/** SELECTED_INTERFACES of unicaster.c: init_ip_patterns and ip_matches_pattern. */
module Patterns {
  import opened Prelude
  import opened Text

  const MAX_IP_PATTERNS := 16

  function TrimLeft(s: string): string {
    if s != "" && s[0] == ' ' then TrimLeft(s[1..]) else s
  }

  function TrimRight(s: string): string {
    if s != "" && s[|s| - 1] == ' ' then TrimRight(s[..|s| - 1]) else s
  }

  /** A field without the spaces around it. */
  function Trim(s: string): string {
    TrimRight(TrimLeft(s))
  }

  /** The fields that are not blank, trimmed, in order. */
  function NonBlank(fields: seq<string>): seq<string> {
    if fields == [] then []
    else
      var first := Trim(fields[0]);
      (if first == "" then [] else [first]) + NonBlank(fields[1..])
  }

  /** The patterns in a text, which is the setting or the part of it not read yet. */
  function Fields(text: string): seq<string> {
    NonBlank(Split(text, ','))
  }

  /** The patterns SELECTED_INTERFACES offers; unset, it offers none. */
  function Offered(setting: Option<string>): seq<string> {
    if setting.None? then [] else Fields(setting.value)
  }

  /** The patterns in force after init_ip_patterns: the offered ones are added until 16 are stored. */
  function Stored<T>(before: seq<T>, offered: seq<T>): (r: seq<T>)
    requires |before| <= MAX_IP_PATTERNS
    ensures |r| <= MAX_IP_PATTERNS
  {
    var room := MAX_IP_PATTERNS - |before|;
    before + (if |offered| <= room then offered else offered[..room])
  }

  /** An address is used when there is no pattern, or one of them is a text prefix of it. */
  ghost predicate Accepts(patterns: seq<string>, ip: string) {
    patterns == [] || exists i :: 0 <= i < |patterns| && patterns[i] <= ip
  }

  // ---------- Trimming a token in the copied setting ----------

  /** The bytes from `at` on are those of `token`, and a NUL ends it. */
  ghost predicate IsToken(buf: array<char>, at: nat, token: string)
    reads buf
  {
    && at + |token| < buf.Length && buf[at + |token|] == NUL
    && forall k :: 0 <= k < |token| ==> buf[at + k] == token[k] != NUL
  }

  /** strlen. */
  method StrLen(buf: array<char>, at: nat, ghost token: string) returns (n: nat)
    requires IsToken(buf, at, token)
    ensures n == |token|
  {
    n := 0;
    while buf[at + n] != NUL
      invariant n <= |token|
      invariant n < |token| ==> token[n] == buf[at + n]
      decreases |token| - n
    {
      n := n + 1;
    }
  }

  /** The first trimming loop. */
  method SkipSpaces(buf: array<char>, at: nat, ghost token: string) returns (lo: nat)
    requires IsToken(buf, at, token)
    ensures at <= lo <= at + |token|
    ensures forall k :: at <= k < lo ==> buf[k] == ' '
    ensures buf[lo] != ' '
  {
    lo := at;
    while buf[lo] == ' '
      invariant at <= lo <= at + |token|
      invariant forall k :: at <= k < lo ==> buf[k] == ' '
      decreases at + |token| - lo
    {
      lo := lo + 1;
    }
  }

  /** The second trimming loop: the NUL it writes lands in the token or on its terminator. */
  method CutSpaces(buf: array<char>, lo: nat, ghost word: string) returns (ghost m: nat)
    requires IsToken(buf, lo, word) && (word != "" ==> word[0] != ' ')
    modifies buf
    ensures m <= |word| && (m > 0 ==> word[m - 1] != ' ')
    ensures forall k :: m <= k < |word| ==> word[k] == ' '
    ensures IsToken(buf, lo, word[..m]) && buf[lo + |word|] == NUL
    ensures forall k :: 0 <= k < buf.Length && !(lo <= k <= lo + |word|) ==> buf[k] == old(buf[k])
  {
    var n := StrLen(buf, lo, word);
    var end := lo + n - 1;
    while end > lo && buf[end] == ' '
      invariant lo - 1 <= end < lo + n
      invariant n > 0 ==> lo <= end
      invariant forall k :: end - lo < k < n ==> word[k] == ' '
      decreases end - lo
    {
      assert buf[end] == word[end - lo];
      end := end - 1;
    }
    m := end + 1 - lo;
    assert m > 0 ==> buf[end] == word[end - lo];
    buf[end + 1] := NUL;
  }

  lemma {:induction false} TrimLeftAt(token: string, n: nat)
    requires n <= |token| && (forall k :: 0 <= k < n ==> token[k] == ' ')
    requires n < |token| ==> token[n] != ' '
    ensures TrimLeft(token) == token[n..]
  {
    if n > 0 {
      TrimLeftAt(token[1..], n - 1);
      assert token[1..][n - 1..] == token[n..];
    }
  }

  lemma {:induction false} TrimRightAt(word: string, m: nat)
    requires m <= |word| && (forall k :: m <= k < |word| ==> word[k] == ' ')
    requires m > 0 ==> word[m - 1] != ' '
    ensures TrimRight(word) == word[..m]
    decreases |word|
  {
    if m < |word| {
      TrimRightAt(word[..|word| - 1], m);
      assert word[..|word| - 1][..m] == word[..m];
    } else {
      assert word[..m] == word;
    }
  }

  /** Trimming a token of the copy: every read and write stays inside it, its terminator included. */
  method TrimToken(buf: array<char>, at: nat, ghost token: string) returns (pattern: string)
    requires IsToken(buf, at, token)
    modifies buf
    ensures pattern == Trim(token) && buf[at + |token|] == NUL
    ensures forall k :: 0 <= k < buf.Length && !(at <= k <= at + |token|) ==> buf[k] == old(buf[k])
  {
    var lo := SkipSpaces(buf, at, token);
    ghost var word := token[lo - at..];
    assert lo < at + |token| ==> buf[lo] == token[lo - at];
    assert TrimLeft(token) == word by {
      assert forall k :: 0 <= k < lo - at ==> token[k] == buf[at + k];
      TrimLeftAt(token, lo - at);
    }
    ghost var m := CutSpaces(buf, lo, word);
    TrimRightAt(word, m);
    pattern := CString(buf[lo..]);
    assert buf[lo..] == word[..m] + [NUL] + buf[lo + m + 1..];
    CStringWhole(word[..m], buf[lo + m + 1..]);
  }

  // ---------- strtok(patterns_str, ",") ----------

  /** The bytes of the copy from `next` on are still those of the setting. */
  ghost predicate Untouched(buf: array<char>, text: string, next: nat)
    reads buf
  {
    && next <= |text| && buf.Length == |text| + 1 && buf[|text|] == NUL
    && forall k :: next <= k < |text| ==> buf[k] == text[k] != NUL
  }

  /** From `next` on there are only commas up to `start`, and none from there up to `stop`, which is
      at a comma or at the end. */
  ghost predicate IsRun(text: string, next: nat, start: nat, stop: nat) {
    && next <= start <= stop <= |text|
    && (forall k :: next <= k < start ==> text[k] == ',')
    && (forall k :: start <= k < stop ==> text[k] != ',')
    && (start < |text| ==> start < stop)
    && (stop < |text| ==> text[stop] == ',')
  }

  /** The next run without commas; it is empty only at the end. */
  method FindRun(buf: array<char>, ghost text: string, next: nat) returns (start: nat, stop: nat)
    requires Untouched(buf, text, next)
    ensures IsRun(text, next, start, stop)
  {
    start := next;
    while buf[start] == ','
      invariant next <= start <= |text|
      invariant forall k :: next <= k < start ==> text[k] == ','
      decreases |text| - start
    {
      start := start + 1;
    }
    stop := start;
    while buf[stop] != ',' && buf[stop] != NUL
      invariant start <= stop <= |text|
      invariant start < |text| ==> start < stop || buf[start] != ','
      invariant forall k :: start <= k < stop ==> text[k] != ','
      decreases |text| - stop
    {
      stop := stop + 1;
    }
  }

  /** One call of strtok: the NUL it writes ends the token. */
  method NextToken(buf: array<char>, ghost text: string, next: nat)
    returns (start: nat, stop: nat, rest: nat)
    requires Untouched(buf, text, next)
    modifies buf
    ensures IsRun(text, next, start, stop)
    ensures Untouched(buf, text, rest) && rest == if stop < |text| then stop + 1 else stop
    ensures IsToken(buf, start, text[start..stop])
  {
    start, stop := FindRun(buf, text, next);
    if buf[stop] == ',' {
      buf[stop] := NUL;
      rest := stop + 1;
    } else {
      rest := stop;
    }
  }

  // ---------- The runs are the fields that are not blank ----------

  lemma NonBlankFirst(first: string, rest: seq<string>)
    ensures NonBlank([first] + rest) == NonBlank([first]) + NonBlank(rest)
  {
    assert ([first] + rest)[1..] == rest;
    assert [first][1..] == [];
  }

  lemma {:induction false} LeadingCommas(text: string, n: nat)
    requires n <= |text| && forall k :: 0 <= k < n ==> text[k] == ','
    ensures Fields(text) == Fields(text[n..])
  {
    if n == 0 {
      assert text[0..] == text;
    } else {
      var rest := text[1..];
      LeadingCommas(rest, n - 1);
      assert rest[n - 1..] == text[n..];
      NonBlankFirst("", Split(rest, ','));
      assert NonBlank([""]) == [] by {
        assert [""][1..] == [];
      }
    }
  }

  lemma LeadingToken(token: string, rest: string)
    requires ',' !in token
    ensures Fields(token) == NonBlank([token])
    ensures Fields(token + [','] + rest) == NonBlank([token]) + Fields(rest)
  {
    SplitWhole(token, ',');
    SplitFirst(token, rest, ',');
    NonBlankFirst(token, Split(rest, ','));
  }

  lemma LastToken(token: string)
    requires ',' !in token
    ensures Fields(token) == NonBlank([token]) + Fields("")
  {
    LeadingToken(token, "");
    SplitWhole("", ',');
    assert NonBlank([""]) == [] by {
      assert [""][1..] == [];
    }
  }

  lemma CommasBeforeRun(text: string, next: nat, start: nat, stop: nat)
    requires IsRun(text, next, start, stop)
    ensures Fields(text[next..]) == Fields(text[start..])
  {
    LeadingCommas(text[next..], start - next);
    assert text[next..][start - next..] == text[start..];
  }

  lemma RunAtComma(text: string, start: nat, stop: nat)
    requires start <= stop < |text| && text[stop] == ','
    requires forall k :: start <= k < stop ==> text[k] != ','
    ensures Fields(text[start..]) == NonBlank([text[start..stop]]) + Fields(text[stop + 1..])
  {
    assert text[start..] == text[start..stop] + [','] + text[stop + 1..];
    LeadingToken(text[start..stop], text[stop + 1..]);
  }

  lemma RunAtEnd(text: string, start: nat)
    requires start <= |text| && forall k :: start <= k < |text| ==> text[k] != ','
    ensures Fields(text[start..]) == NonBlank([text[start..]]) + Fields("")
  {
    LastToken(text[start..]);
  }

  /** What is left at a run: its own pattern, then what is left behind it. */
  lemma RunIsField(text: string, next: nat, start: nat, stop: nat)
    requires IsRun(text, next, start, stop)
    ensures Fields(text[next..]) ==
            NonBlank([text[start..stop]]) + Fields(text[if stop < |text| then stop + 1 else stop..])
  {
    CommasBeforeRun(text, next, start, stop);
    if stop < |text| {
      RunAtComma(text, start, stop);
    } else {
      RunAtEnd(text, start);
      assert text[stop..] == "" && text[start..] == text[start..stop];
    }
  }

  /** An element of ip_patterns; None is the NULL a failed strdup leaves there. */
  type Slot = Option<string>

  /** The copies of these patterns from slot `at` on; `granted` tells which strdup succeeds. */
  function Copies(at: nat, texts: seq<string>, granted: nat -> bool): (r: seq<Slot>)
    ensures |r| == |texts|
  {
    seq(|texts|, k requires 0 <= k < |texts| => if granted(at + k) then Some(texts[k]) else None)
  }

  /** One pattern more, or a blank skipped, and the outcome is the same. */
  lemma StoredStep(slots: seq<Slot>, token: string, left: seq<string>, granted: nat -> bool)
    requires |slots| < MAX_IP_PATTERNS
    ensures Stored(slots, Copies(|slots|, NonBlank([token]) + left, granted)) ==
            if Trim(token) == "" then Stored(slots, Copies(|slots|, left, granted))
            else
              var copy := if granted(|slots|) then Some(Trim(token)) else None;
              Stored(slots + [copy], Copies(|slots| + 1, left, granted))
  {
    assert [token][1..] == [];
    assert NonBlank([token]) == if Trim(token) == "" then [] else [Trim(token)];
    if Trim(token) == "" {
      assert [] + left == left;
    } else {
      var copy: Slot := if granted(|slots|) then Some(Trim(token)) else None;
      assert Copies(|slots|, [Trim(token)] + left, granted) == [copy] + Copies(|slots| + 1, left, granted);
    }
  }

  /** The body of the loop: the token, trimmed, goes into the next slot unless it was blank. */
  method AddPattern(buf: array<char>, start: nat, ghost token: string, slots: seq<Slot>, ghost left: seq<string>,
                    granted: nat -> bool)
    returns (r: seq<Slot>)
    requires IsToken(buf, start, token) && |slots| < MAX_IP_PATTERNS
    modifies buf
    ensures |r| <= MAX_IP_PATTERNS
    ensures Stored(r, Copies(|r|, left, granted)) == Stored(slots, Copies(|slots|, NonBlank([token]) + left, granted))
    ensures forall k :: 0 <= k < buf.Length && !(start <= k <= start + |token|) ==> buf[k] == old(buf[k])
    ensures buf[start + |token|] == NUL
  {
    StoredStep(slots, token, left, granted);
    var pattern := TrimToken(buf, start, token);
    r := if |pattern| > 0 then slots + [if granted(|slots|) then Some(pattern) else None] else slots;
  }

  /** init_ip_patterns, on its own copy of the setting; None when that copy could not be made and
      strtok is handed NULL. */
  method InitIpPatterns(setting: Option<string>, before: seq<Slot>, copied: bool, granted: nat -> bool)
    returns (slots: Option<seq<Slot>>)
    requires |before| <= MAX_IP_PATTERNS
    requires setting.Some? ==> NUL !in setting.value
    ensures slots.None? <==> setting.Some? && !copied
    ensures slots.Some? ==> slots.value == Stored(before, Copies(|before|, Offered(setting), granted))
  {
    if setting.None? {
      return Some(before);
    }
    if !copied {
      return None;
    }
    var text := setting.value;
    var buf := new char[|text| + 1](i requires 0 <= i <= |text| => if i < |text| then text[i] else NUL);
    assert text[0..] == text;
    var patterns := before;
    ghost var left := Fields(text);
    ghost var outcome := Stored(before, Copies(|before|, left, granted));
    var start, stop, next := NextToken(buf, text, 0);
    RunIsField(text, 0, start, stop);
    while start < stop && |patterns| < MAX_IP_PATTERNS
      invariant |patterns| <= MAX_IP_PATTERNS
      invariant Untouched(buf, text, next)
      invariant start <= stop <= next && (start == stop ==> next == |text|)
      invariant IsToken(buf, start, text[start..stop])
      invariant left == NonBlank([text[start..stop]]) + Fields(text[next..])
      invariant outcome == Stored(patterns, Copies(|patterns|, left, granted))
      decreases |text| - next, stop - start
    {
      ghost var token := text[start..stop];
      patterns := AddPattern(buf, start, token, patterns, Fields(text[next..]), granted);
      left := Fields(text[next..]);
      ghost var from := next;
      start, stop, next := NextToken(buf, text, next);
      RunIsField(text, from, start, stop);
    }
    return Some(patterns);
  }

  /** strncmp(a, b, strlen(b)) == 0. */
  method HasPrefix(a: string, b: string) returns (r: bool)
    ensures r <==> b <= a
  {
    var i := 0;
    while i < |b| && i < |a| && a[i] == b[i]
      invariant 0 <= i <= |b| && i <= |a|
      invariant a[..i] == b[..i]
    {
      i := i + 1;
    }
    r := i == |b|;
  }

  /** Slot `k` is the first that a comparison with `ip` does not pass by. */
  ghost predicate Stops(slots: seq<Slot>, ip: string, k: nat) {
    && k < |slots|
    && (forall m :: 0 <= m < k ==> slots[m].Some? && !(slots[m].value <= ip))
    && (slots[k].Some? ==> slots[k].value <= ip)
  }

  /** ip_matches_pattern; None when it dereferences NULL, which happens exactly when a NULL slot comes
      before every pattern that matches. */
  method IpMatchesPattern(slots: seq<Slot>, ip: string) returns (r: Option<bool>)
    ensures r.None? <==> exists k: nat :: Stops(slots, ip, k) && slots[k].None?
    ensures r == Some(true) <==> slots == [] || exists k: nat :: Stops(slots, ip, k) && slots[k].Some?
    ensures forall texts: seq<string> ::
              |texts| == |slots| && (forall k :: 0 <= k < |texts| ==> slots[k] == Some(texts[k])) ==>
                r == Some(Accepts(texts, ip))
  {
    if |slots| == 0 {
      return Some(true);
    }
    var i := 0;
    while i < |slots|
      invariant 0 <= i <= |slots|
      invariant forall k :: 0 <= k < i ==> slots[k].Some? && !(slots[k].value <= ip)
    {
      if slots[i].None? {
        assert Stops(slots, ip, i);
        return None;
      }
      var matches := HasPrefix(ip, slots[i].value);
      if matches {
        assert Stops(slots, ip, i);
        return Some(true);
      }
      i := i + 1;
    }
    r := Some(false);
  }

  // ---------- What the patterns are ----------

  /** A stored pattern has no comma, is not blank, and has no space at either end. */
  ghost predicate IsPattern(p: string) {
    p != "" && p[0] != ' ' && p[|p| - 1] != ' ' && ',' !in p
  }

  lemma TrimOfField(s: string)
    requires ',' !in s
    ensures Trim(s) == "" || IsPattern(Trim(s))
    ensures Trim(s) == "" <==> forall i :: 0 <= i < |s| ==> s[i] == ' '
  {
    TrimBlank(s);
    var left := TrimLeft(s);
    if left != "" {
      TrimRightKeepsStart(left);
      assert forall c :: c in Trim(s) ==> c in left;
    }
  }

  lemma {:induction false} TrimBlank(s: string)
    ensures TrimLeft(s) == "" <==> forall i :: 0 <= i < |s| ==> s[i] == ' '
    ensures TrimLeft(s) != "" ==> TrimLeft(s)[0] != ' '
    ensures forall c :: c in TrimLeft(s) ==> c in s
  {
    if s != "" && s[0] == ' ' {
      TrimBlank(s[1..]);
      assert forall i :: 0 < i < |s| ==> s[i] == s[1..][i - 1];
    }
  }

  lemma {:induction false} TrimRightKeepsStart(s: string)
    requires s != "" && s[0] != ' '
    ensures TrimRight(s) != "" && TrimRight(s) <= s && TrimRight(s)[|TrimRight(s)| - 1] != ' '
  {
    if s[|s| - 1] == ' ' {
      TrimRightKeepsStart(s[..|s| - 1]);
    }
  }

  lemma {:induction false} NonBlankArePatterns(fields: seq<string>)
    requires forall k :: 0 <= k < |fields| ==> ',' !in fields[k]
    ensures forall k :: 0 <= k < |NonBlank(fields)| ==> IsPattern(NonBlank(fields)[k])
  {
    if fields != [] {
      TrimOfField(fields[0]);
      NonBlankArePatterns(fields[1..]);
    }
  }

  lemma OfferedArePatterns(setting: Option<string>)
    ensures forall k :: 0 <= k < |Offered(setting)| ==> IsPattern(Offered(setting)[k])
  {
    if setting.Some? {
      var fields := Split(setting.value, ',');
      forall k | 0 <= k < |fields|
        ensures ',' !in fields[k]
      {
        FieldsHaveNoSeparator(setting.value, ',', k);
      }
      NonBlankArePatterns(fields);
    }
  }

  /** Starting from none, at most 16 patterns are stored, each a proper one, in the order of the
      setting; with any pattern stored, not every text is accepted. */
  lemma StoredArePatterns(setting: Option<string>)
    ensures var patterns := Stored([], Offered(setting));
            && |patterns| <= MAX_IP_PATTERNS && patterns <= Offered(setting)
            && (patterns == Offered(setting) || |patterns| == MAX_IP_PATTERNS)
            && (forall k :: 0 <= k < |patterns| ==> IsPattern(patterns[k]))
            && (patterns != [] <==> !Accepts(patterns, ""))
  {
    OfferedArePatterns(setting);
    var offered := Offered(setting);
    assert Stored([], offered) == if |offered| <= MAX_IP_PATTERNS then offered else offered[..MAX_IP_PATTERNS];
  }

  lemma OnePattern(pattern: string, ip: string)
    ensures Accepts([pattern], ip) <==> pattern <= ip
  {
    assert [pattern][0] == pattern;
  }

  /** The prefix is one of text, not of octets: a pattern also takes addresses that only continue its
      last octet, and takes them exactly then, unless it ends in a dot itself. */
  lemma PrefixIsTextual(pattern: string, ip: string)
    ensures Split(pattern, '.') <= Split(ip, '.') ==> Accepts([pattern], ip)
    ensures Accepts([pattern], ip) && !(Split(pattern, '.') <= Split(ip, '.')) <==>
              pattern <= ip && |pattern| < |ip| && ip[|pattern|] != '.'
  {
    OnePattern(pattern, ip);
    FirstFieldsAreText(pattern, ip, '.');
  }

  /** So "10" lets 101.1.1.1 through. */
  lemma TenIsTextual()
    ensures Accepts(["10"], "101.1.1.1") && !(Split("10", '.') <= Split("101.1.1.1", '.'))
  {
    PrefixIsTextual("10", "101.1.1.1");
    assert "101.1.1.1"[2] != '.';
  }
}
