/** The two messages of a sender, as unicast_thread of unicaster.c prints them, and a reader of them. */
module Announcement {
  import opened Prelude
  import opened Text
  import Ipv4
  import Settings

  /** Room in up_message and in down_message. */
  const MESSAGE_SIZE := 256

  /** An announced interval. */
  type Positive = n: int | 0 < n <= Settings.INT_MAX witness 1

  /** An announced port; Redis takes no other for `port` and `tls-port`. */
  type Port = n: int | 0 < n <= 65535 witness 1

  /** A task of unicast_thread: what it announces. Its guid is the text of a UUID. */
  datatype Task = Task(name: string, guid: string, address: Ipv4.Address, port: Port, interval: Positive, tls: bool)

  predicate IsGuid(s: string) {
    |s| == 36 && '\t' !in s
  }

  datatype Message =
    | Up(task: Task)
    | Down(name: string, guid: string, address: Ipv4.Address, port: Port)

  function Endpoint(address: Ipv4.Address, port: Port): string {
    Ipv4.Print(address) + [':'] + Numeral(port)
  }

  function Transport(tls: bool): string {
    if tls then "tls" else "plain"
  }

  const TAB := ['\t']

  function DownText(t: Task): string {
    t.name + TAB + (t.guid + TAB + ("down" + TAB + Endpoint(t.address, t.port)))
  }

  function UpText(t: Task): string {
    t.name + TAB + (t.guid + TAB + ("up" + TAB +
    (Endpoint(t.address, t.port) + TAB + (Numeral(t.interval) + TAB + Transport(t.tls)))))
  }

  /** What snprintf leaves in the buffer. */
  function Printed(text: string): string {
    if |text| < MESSAGE_SIZE then text else text[..MESSAGE_SIZE - 1]
  }

  // ---------- The limit on the name ----------

  lemma EndpointLength(address: Ipv4.Address, port: Port)
    ensures 9 <= |Endpoint(address, port)| <= 21
  {
    Ipv4.PrintFits(address);
    assert Pow10(5) == 100_000;
    DecimalLength(port, 5);
  }

  lemma PositiveLength(n: Positive)
    ensures 1 <= |Numeral(n)| <= 10
  {
    assert Pow10(10) == 10_000_000_000;
    DecimalLength(n, 10);
  }

  lemma MessagesFit(t: Task)
    requires IsGuid(t.guid) && |t.name| <= 176
    ensures |UpText(t)| < MESSAGE_SIZE && |DownText(t)| < MESSAGE_SIZE
  {
    EndpointLength(t.address, t.port);
    PositiveLength(t.interval);
  }

  lemma LongestEndpoint(address: Ipv4.Address)
    requires address == Ipv4.Address(255, 255, 255, 255)
    ensures |Endpoint(address, 65535)| == 21
  {
    assert Pow10(2) == 100 && Pow10(4) == 10_000;
    DecimalLongEnough(255, 2);
    DecimalLength(255, 3);
    DecimalLongEnough(65535, 4);
    EndpointLength(address, 65535);
  }

  lemma LongestNumeral()
    ensures |Numeral(Settings.INT_MAX)| == 10
  {
    assert Pow10(9) == 1_000_000_000;
    DecimalLongEnough(Settings.INT_MAX, 9);
    PositiveLength(Settings.INT_MAX);
  }

  /** 176 characters is exactly what a name may have for no message of its service to be cut. */
  lemma NameLimit(name: string, guid: string)
    requires IsGuid(guid)
    ensures |name| <= 176 <==>
              forall t: Task :: t.name == name && t.guid == guid ==>
                |UpText(t)| < MESSAGE_SIZE && |DownText(t)| < MESSAGE_SIZE
  {
    if |name| <= 176 {
      forall t: Task | t.name == name && t.guid == guid
        ensures |UpText(t)| < MESSAGE_SIZE && |DownText(t)| < MESSAGE_SIZE
      {
        MessagesFit(t);
      }
    } else {
      var address := Ipv4.Address(255, 255, 255, 255);
      var t := Task(name, guid, address, 65535, Settings.INT_MAX, false);
      LongestEndpoint(address);
      LongestNumeral();
      assert |UpText(t)| >= MESSAGE_SIZE;
    }
  }

  // ---------- The fields ----------

  lemma NumeralHasNo(n: Positive, c: char)
    requires !IsDigit(c)
    ensures c !in Numeral(n)
  {
  }

  lemma EndpointFields(address: Ipv4.Address, port: Port)
    ensures '\t' !in Endpoint(address, port)
    ensures Split(Endpoint(address, port), ':') == [Ipv4.Print(address), Numeral(port)]
  {
    Ipv4.PrintFits(address);
    NumeralHasNo(port, '\t');
    NumeralHasNo(port, ':');
    SplitWhole(Numeral(port), ':');
    SplitFirst(Ipv4.Print(address), Numeral(port), ':');
  }

  /** Behind a name without tabs a down message has three more fields. */
  lemma DownFields(t: Task)
    requires IsGuid(t.guid) && '\t' !in t.name
    ensures Split(DownText(t), '\t') == [t.name, t.guid, "down", Endpoint(t.address, t.port)]
  {
    var endpoint := Endpoint(t.address, t.port);
    EndpointFields(t.address, t.port);
    SplitWhole(endpoint, '\t');
    SplitFirst("down", endpoint, '\t');
    SplitFirst(t.guid, "down" + TAB + endpoint, '\t');
    SplitFirst(t.name, t.guid + TAB + ("down" + TAB + endpoint), '\t');
  }

  lemma UpTailFields(endpoint: string, interval: string, transport: string)
    requires '\t' !in endpoint && '\t' !in interval && '\t' !in transport
    ensures Split(endpoint + TAB + (interval + TAB + transport), '\t') == [endpoint, interval, transport]
  {
    SplitWhole(transport, '\t');
    SplitFirst(interval, transport, '\t');
    SplitFirst(endpoint, interval + TAB + transport, '\t');
  }

  /** And an up message five. */
  lemma UpFields(t: Task)
    requires IsGuid(t.guid) && '\t' !in t.name
    ensures Split(UpText(t), '\t') ==
            [t.name, t.guid, "up", Endpoint(t.address, t.port), Numeral(t.interval), Transport(t.tls)]
  {
    var endpoint, interval, transport := Endpoint(t.address, t.port), Numeral(t.interval), Transport(t.tls);
    EndpointFields(t.address, t.port);
    NumeralHasNo(t.interval, '\t');
    var tail := endpoint + TAB + (interval + TAB + transport);
    UpTailFields(endpoint, interval, transport);
    SplitFirst("up", tail, '\t');
    SplitFirst(t.guid, "up" + TAB + tail, '\t');
    SplitFirst(t.name, t.guid + TAB + ("up" + TAB + tail), '\t');
  }

  // ---------- Reading a message back ----------

  /** A reader that splits on tabs. */
  function ReadEndpoint(s: string): Option<(Ipv4.Address, Port)> {
    var f := Split(s, ':');
    if |f| == 2 && Ipv4.Parse(f[0], false).Some? && 0 < Settings.ParseInt(f[1]) <= 65535
    then Some((Ipv4.Parse(f[0], false).value, Settings.ParseInt(f[1])))
    else None
  }

  function Read(message: string): Option<Message> {
    ReadFields(Split(message, '\t'))
  }

  function ReadFields(f: seq<string>): Option<Message> {
    if |f| == 4 && f[2] == "down" && ReadEndpoint(f[3]).Some? then
      var (address, port) := ReadEndpoint(f[3]).value;
      Some(Down(f[0], f[1], address, port))
    else if |f| == 6 && f[2] == "up" && ReadEndpoint(f[3]).Some?
            && 0 < Settings.ParseInt(f[4]) <= Settings.INT_MAX && f[5] in {"tls", "plain"} then
      var (address, port) := ReadEndpoint(f[3]).value;
      Some(Up(Task(f[0], f[1], address, port, Settings.ParseInt(f[4]), f[5] == "tls")))
    else None
  }

  lemma EndpointReadsBack(address: Ipv4.Address, port: Port)
    ensures ReadEndpoint(Endpoint(address, port)) == Some((address, port))
  {
    EndpointFields(address, port);
    Ipv4.ParsePrint(address, false);
    Settings.ParseIntOfNumeral(port);
  }

  /** A cut endpoint names another port, or none. */
  lemma CutEndpoint(address: Ipv4.Address, port: Port, n: nat)
    requires n < |Endpoint(address, port)|
    ensures ReadEndpoint(Endpoint(address, port)[..n]) != Some((address, port))
  {
    var whole := Endpoint(address, port);
    var part := whole[..n];
    var f := Split(part, ':');
    EndpointFields(address, port);
    SplitPrefix(whole, n, ':');
    if |f| == 2 {
      CutLastField(whole, n, ':');
      CutNumeral(port, f[1]);
    }
  }

  /** The digits of a cut number are another number. */
  lemma CutNumeral(n: Positive, p: string)
    requires p <= Numeral(n)
    ensures Settings.ParseInt(p) == n <==> p == Numeral(n)
  {
    Settings.ParseIntOfNumeral(n);
    if p != "" {
      var digits := Decimal(n);
      assert p == digits[..|p|];
      ValuePrefix(digits, |p|);
      ValueOfDecimal(n);
      assert AllDigits(p) && p[0] != '0';
      DecimalOfValue(p);
      Settings.ParseIntOfNumeral(Value(p));
    } else {
      assert Settings.ParseInt("") == 0;
    }
  }

  /** Of a name with a tab only the part before the tab can be read. */
  lemma TabIsLost(t: Task, text: string)
    requires '\t' in t.name
    ensures Read(text) != Some(Down(t.name, t.guid, t.address, t.port)) && Read(text) != Some(Up(t))
  {
    FieldsHaveNoSeparator(text, '\t', 0);
  }

  lemma CutDown(t: Task, f: seq<string>)
    requires |f| == 4 ==> f[3] < Endpoint(t.address, t.port)
    ensures ReadFields(f) != Some(Down(t.name, t.guid, t.address, t.port))
  {
    if |f| == 4 {
      var whole := Endpoint(t.address, t.port);
      assert f[3] == whole[..|f[3]|];
      CutEndpoint(t.address, t.port, |f[3]|);
    }
  }

  /** A down message is read back as it was meant exactly when the name has no tab and nothing is cut. */
  lemma DownReadsBack(t: Task)
    requires IsGuid(t.guid)
    ensures Read(Printed(DownText(t))) == Some(Down(t.name, t.guid, t.address, t.port)) <==>
              '\t' !in t.name && |DownText(t)| < MESSAGE_SIZE
  {
    var text := DownText(t);
    if '\t' in t.name {
      TabIsLost(t, Printed(text));
    } else {
      DownFields(t);
      if |text| < MESSAGE_SIZE {
        EndpointReadsBack(t.address, t.port);
      } else {
        var f := Split(text[..MESSAGE_SIZE - 1], '\t');
        if |f| == 4 {
          CutLastField(text, MESSAGE_SIZE - 1, '\t');
        }
        CutDown(t, f);
      }
    }
  }

  lemma CutUp(t: Task, f: seq<string>)
    requires |f| == 6 ==> f[5] < Transport(t.tls)
    ensures ReadFields(f) != Some(Up(t))
  {
    assert !("tls" <= "plain") by {
      assert "tls"[0] != "plain"[0];
    }
  }

  lemma UpFieldsReadBack(t: Task, f: seq<string>)
    requires |f| == 6 && f[0] == t.name && f[1] == t.guid && f[2] == "up"
    requires ReadEndpoint(f[3]) == Some((t.address, t.port))
    requires Settings.ParseInt(f[4]) == t.interval && f[5] == Transport(t.tls)
    ensures ReadFields(f) == Some(Up(t))
  {
  }

  lemma UpNumbersReadBack(t: Task, f: seq<string>)
    requires f == [t.name, t.guid, "up", Endpoint(t.address, t.port), Numeral(t.interval), Transport(t.tls)]
    ensures ReadEndpoint(f[3]) == Some((t.address, t.port))
    ensures Settings.ParseInt(f[4]) == t.interval && f[5] == Transport(t.tls)
  {
    EndpointReadsBack(t.address, t.port);
    Settings.ParseIntOfNumeral(t.interval);
  }

  lemma WholeUpReadsBack(t: Task)
    requires IsGuid(t.guid) && '\t' !in t.name
    ensures Read(UpText(t)) == Some(Up(t))
  {
    UpFields(t);
    var f := Split(UpText(t), '\t');
    UpNumbersReadBack(t, f);
    UpFieldsReadBack(t, f);
  }

  lemma CutUpIsLost(t: Task, n: nat)
    requires IsGuid(t.guid) && '\t' !in t.name && n < |UpText(t)|
    ensures Read(UpText(t)[..n]) != Some(Up(t))
  {
    UpFields(t);
    var f := Split(UpText(t)[..n], '\t');
    if |f| == 6 {
      CutLastField(UpText(t), n, '\t');
    }
    CutUp(t, f);
  }

  /** And so is an up message. */
  lemma UpReadsBack(t: Task)
    requires IsGuid(t.guid)
    ensures Read(Printed(UpText(t))) == Some(Up(t)) <==> '\t' !in t.name && |UpText(t)| < MESSAGE_SIZE
  {
    if '\t' in t.name {
      TabIsLost(t, Printed(UpText(t)));
    } else if |UpText(t)| < MESSAGE_SIZE {
      WholeUpReadsBack(t);
    } else {
      CutUpIsLost(t, MESSAGE_SIZE - 1);
    }
  }

  /** So under a name of at most 176 characters without tabs, messages differ whenever what they
      announce differs, and no up message is a down message. */
  lemma MessagesTellTasksApart(t: Task, u: Task)
    requires IsGuid(t.guid) && IsGuid(u.guid) && '\t' !in t.name && '\t' !in u.name
    requires |t.name| <= 176 && |u.name| <= 176
    ensures Printed(UpText(t)) == Printed(UpText(u)) <==> t == u
    ensures Printed(DownText(t)) == Printed(DownText(u)) <==>
              t.name == u.name && t.guid == u.guid && t.address == u.address && t.port == u.port
    ensures Printed(UpText(t)) != Printed(DownText(u))
  {
    MessagesFit(t);
    MessagesFit(u);
    UpReadsBack(t);
    UpReadsBack(u);
    DownReadsBack(t);
    DownReadsBack(u);
  }
}
