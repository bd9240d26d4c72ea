/** pod_list.c: from the body of a response to the distinct pod addresses, and when that succeeds. */
module PodList {
  import opened Prelude
  import opened Text
  import opened Ipv4
  import opened Ascending

  const MAX_PODS := 10000

  /** A parsed body. `Null` is also what json-c hands back, as NULL, for a text it cannot parse. */
  datatype Json =
    | Null
    | Bool(b: bool)
    | Number(text: string)
    | Str(s: seq<char>)
    | Array(items: seq<Json>)
    | Object(fields: map<string, Json>)

  /** json_object_object_get_ex: anything but an object has no members. */
  function Get(j: Json, key: string): Option<Json> {
    if j.Object? && key in j.fields then Some(j.fields[key]) else None
  }

  /** is_finished; strcmp stops at a NUL inside the JSON string. */
  predicate IsFinished(status: Json) {
    var phase := Get(status, "phase");
    phase.Some? && phase.value.Str? && CString(phase.value.s) in {"Succeeded", "Failed"}
  }

  /** The address an item contributes, if any. */
  function ItemAddress(item: Json, leadingZeros: bool): Option<Address> {
    var status := Get(item, "status");
    if status.None? || IsFinished(status.value) then None
    else
      var podIp := Get(status.value, "podIP");
      if podIp.None? || !podIp.value.Str? then None
      else Parse(CString(podIp.value.s), leadingZeros)
  }

  /** The items looked at: the cut comes before any filtering. */
  function Considered(items: seq<Json>): seq<Json> {
    if |items| > MAX_PODS then items[..MAX_PODS] else items
  }

  /** The canonical text of that address. */
  function ItemText(item: Json, leadingZeros: bool): Option<string> {
    var address := ItemAddress(item, leadingZeros);
    if address.Some? then Some(Print(address.value)) else None
  }

  /** What each item contributes, in item order. */
  ghost function ItemTexts(items: seq<Json>, leadingZeros: bool): (texts: seq<Option<string>>)
    ensures |texts| == |items|
    ensures forall i :: 0 <= i < |items| ==> texts[i] == ItemText(items[i], leadingZeros)
  {
    seq(|items|, i requires 0 <= i < |items| => ItemText(items[i], leadingZeros))
  }

  /** The texts that are there, as the first loop stores them. */
  ghost function Present(texts: seq<Option<string>>): (r: seq<string>)
    ensures |r| <= |texts|
  {
    if texts == [] then []
    else
      var last := |texts| - 1;
      Present(texts[..last]) + (if texts[last].Some? then [texts[last].value] else [])
  }

  lemma PresentNext(texts: seq<Option<string>>, i: nat)
    requires i < |texts|
    ensures Present(texts[..i + 1]) == Present(texts[..i]) + (if texts[i].Some? then [texts[i].value] else [])
  {
    assert texts[..i + 1][..i] == texts[..i];
  }

  /** The list parse_pod_list returns. */
  ghost function PodIps(items: seq<Json>, leadingZeros: bool): seq<string> {
    SortUnique(Present(ItemTexts(Considered(items), leadingZeros)))
  }

  // ---------- What the list is ----------

  /** A `phase` that says the pod has finished. */
  predicate SaysFinished(j: Json) {
    j.Str? && (CString(j.s) == "Succeeded" || CString(j.s) == "Failed")
  }

  /** In terms of the body: the item is an object with an object `status` that has a string `podIP`
      reading as an address whose canonical text is `x`, and no `phase` saying that it has finished. */
  ghost predicate Gives(item: Json, leadingZeros: bool, x: string) {
    && item.Object? && "status" in item.fields && item.fields["status"].Object?
    && var status := item.fields["status"].fields;
       && "podIP" in status && status["podIP"].Str?
       && (exists a: Address :: Parse(CString(status["podIP"].s), leadingZeros) == Some(a) && Print(a) == x)
       && !("phase" in status && SaysFinished(status["phase"]))
  }

  /** And that is what the item contributes. */
  lemma GivesItsText(item: Json, leadingZeros: bool, x: string)
    ensures Gives(item, leadingZeros, x) <==> ItemText(item, leadingZeros) == Some(x)
  {}

  /** Some item gives the text `x`. */
  ghost predicate Contributes(items: seq<Json>, leadingZeros: bool, x: string) {
    exists i :: 0 <= i < |items| && Gives(items[i], leadingZeros, x)
  }

  lemma ContributesItsText(items: seq<Json>, leadingZeros: bool, x: string)
    ensures Contributes(items, leadingZeros, x) <==> Some(x) in ItemTexts(items, leadingZeros)
  {
    forall i | 0 <= i < |items|
      ensures Gives(items[i], leadingZeros, x) <==> ItemTexts(items, leadingZeros)[i] == Some(x)
    {
      GivesItsText(items[i], leadingZeros, x);
    }
  }

  lemma {:induction false} PresentMembers(texts: seq<Option<string>>, x: string)
    ensures x in Present(texts) <==> Some(x) in texts
  {
    if texts != [] {
      var last := |texts| - 1;
      PresentMembers(texts[..last], x);
      assert texts == texts[..last] + [texts[last]];
    }
  }

  /** The list is strictly ascending, it is exactly the canonical addresses of the unfinished items
      among the first MAX_PODS, and each entry reads back as the address it was printed from. */
  lemma PodIpsAreTheAddresses(items: seq<Json>, leadingZeros: bool, x: string)
    ensures IsAscending(PodIps(items, leadingZeros))
    ensures |PodIps(items, leadingZeros)| <= MAX_PODS
    ensures x in PodIps(items, leadingZeros) <==> Contributes(Considered(items), leadingZeros, x)
    ensures x in PodIps(items, leadingZeros) ==>
              Parse(x, leadingZeros).Some? && Print(Parse(x, leadingZeros).value) == x
  {
    var texts := ItemTexts(Considered(items), leadingZeros);
    PresentMembers(texts, x);
    ContributesItsText(Considered(items), leadingZeros, x);
    if Some(x) in texts {
      var i :| 0 <= i < |texts| && texts[i] == Some(x);
      ParsePrint(ItemAddress(Considered(items)[i], leadingZeros).value, leadingZeros);
    }
  }

  /** No address is announced to twice. */
  lemma PodIpsAddressDistinct(items: seq<Json>, leadingZeros: bool, i: nat, j: nat)
    requires i < j < |PodIps(items, leadingZeros)|
    ensures Parse(PodIps(items, leadingZeros)[i], leadingZeros) !=
            Parse(PodIps(items, leadingZeros)[j], leadingZeros)
  {
    var ips := PodIps(items, leadingZeros);
    PodIpsAreTheAddresses(items, leadingZeros, ips[i]);
    PodIpsAreTheAddresses(items, leadingZeros, ips[j]);
    if ips[i] == ips[j] {
      AscendingDistinct(ips, i, j);
    }
  }

  /** The cut is taken before the filter: items past it never matter, however few of the first
      MAX_PODS items contributed, even when none did. */
  lemma CutBeforeFilter(items: seq<Json>, leadingZeros: bool)
    requires |items| > MAX_PODS
    ensures PodIps(items, leadingZeros) == PodIps(items[..MAX_PODS], leadingZeros)
    ensures (forall i :: 0 <= i < MAX_PODS ==> ItemText(items[i], leadingZeros).None?) ==>
              PodIps(items, leadingZeros) == []
  {
    assert Considered(items) == items[..MAX_PODS] == Considered(items[..MAX_PODS]);
    if PodIps(items, leadingZeros) != [] {
      PodIpsAreTheAddresses(items, leadingZeros, PodIps(items, leadingZeros)[0]);
    }
  }

  /** An item with this phase and address. */
  function PodItem(phase: string, address: Address): Json {
    Object(map["status" := Object(map["phase" := Str(phase), "podIP" := Str(Print(address))])])
  }

  lemma PodItemText(phase: string, address: Address, leadingZeros: bool)
    requires NUL !in phase
    ensures ItemText(PodItem(phase, address), leadingZeros) ==
            if phase == "Succeeded" || phase == "Failed" then None else Some(Print(address))
  {
    PrintFits(address);
    CStringWhole(Print(address), []);
    CStringWhole(phase, []);
    ParsePrint(address, leadingZeros);
  }

  lemma OneItem(item: Json, leadingZeros: bool, text: Option<string>)
    requires ItemText(item, leadingZeros) == text
    ensures PodIps([item], leadingZeros) == if text.Some? then [text.value] else []
  {
    var texts := ItemTexts([item], leadingZeros);
    assert Considered([item]) == [item] && texts == [text];
    assert texts[..0] == [];
    assert Present(texts) == if text.Some? then [text.value] else [];
  }

  /** For one: a pod that succeeded or failed is not listed, a pod in any other phase is. */
  lemma FinishedPodsAreNotListed(phase: string, address: Address, leadingZeros: bool)
    requires NUL !in phase
    ensures PodIps([PodItem(phase, address)], leadingZeros) ==
            if phase == "Succeeded" || phase == "Failed" then [] else [Print(address)]
  {
    PodItemText(phase, address, leadingZeros);
    OneItem(PodItem(phase, address), leadingZeros, ItemText(PodItem(phase, address), leadingZeros));
  }

  // ---------- parse_pod_list, in place ----------

  datatype ParseError = InvalidJson | NoItemsArray | OutOfMemory

  /** The block of PodList: a count and room for `ips.Length` texts. */
  class Block {
    var count: nat
    const ips: array<string>

    constructor (room: nat)
      ensures count == 0 && fresh(ips) && ips.Length == room
    {
      count := 0;
      ips := new string[room];
    }

    ghost predicate Valid()
      reads this
    {
      count <= ips.Length
    }

    ghost function Contents(): seq<string>
      reads this, ips
      requires Valid()
    {
      ips[..count]
    }

    method Append(text: string)
      requires count < ips.Length
      modifies this, ips
      ensures Valid() && Contents() == old(Contents()) + [text]
      ensures count == old(count) + 1
    {
      ips[count] := text;
      count := count + 1;
    }
  }

  /** Sorted but for the text at `j`, which is not above those after it. */
  ghost predicate SortedBut(s: seq<string>, j: nat) {
    && j < |s|
    && (forall x, y :: 0 <= x <= y < |s| && x != j && y != j ==> AtMost(s[x], s[y]))
    && (forall y :: j < y < |s| ==> AtMost(s[j], s[y]))
  }

  function Swapped(s: seq<string>, i: nat, j: nat): seq<string>
    requires i < |s| && j < |s|
  {
    s[i := s[j]][j := s[i]]
  }

  lemma SwapKeepsTexts(s: seq<string>, i: nat)
    requires i + 1 < |s|
    ensures multiset(Swapped(s, i, i + 1)) == multiset(s)
  {
    assert s == s[..i] + [s[i], s[i + 1]] + s[i + 2..];
    assert Swapped(s, i, i + 1) == s[..i] + [s[i + 1], s[i]] + s[i + 2..];
  }

  lemma AppendedIsSortedBut(s: seq<string>)
    requires s != [] && IsSorted(s[..|s| - 1])
    ensures SortedBut(s, |s| - 1)
  {
    assert forall x :: 0 <= x < |s| - 1 ==> s[x] == s[..|s| - 1][x];
  }

  lemma SwapSettles(s: seq<string>, j: nat)
    requires 0 < j && SortedBut(s, j) && Less(s[j], s[j - 1])
    ensures SortedBut(Swapped(s, j - 1, j), j - 1)
  {
  }

  ghost predicate Sifting(s: seq<string>, was: seq<string>, j: nat) {
    SortedBut(s, j) && multiset(s) == multiset(was)
  }

  lemma SiftStep(s: seq<string>, was: seq<string>, j: nat)
    requires 0 < j && Sifting(s, was, j) && Less(s[j], s[j - 1])
    ensures Sifting(Swapped(s, j - 1, j), was, j - 1)
  {
    SwapKeepsTexts(s, j - 1);
    SwapSettles(s, j);
  }

  lemma SettledIsSorted(s: seq<string>, j: nat)
    requires SortedBut(s, j) && (j == 0 || !Less(s[j], s[j - 1]))
    ensures IsSorted(s)
  {
    forall x, y | 0 <= x <= y < |s|
      ensures AtMost(s[x], s[y])
    {
      if y == j && x < j {
        LessTotal(s[j], s[j - 1]);
        if s[x] != s[j - 1] && s[j - 1] != s[j] {
          LessTransitive(s[x], s[j - 1], s[j]);
        }
      }
    }
  }

  /** The text at `j` goes one place down, if it must. */
  method SiftOnce(a: array<string>, k: nat, j: nat, ghost was: seq<string>) returns (settled: bool)
    requires j <= k < a.Length && Sifting(a[..k + 1], was, j)
    modifies a
    ensures settled ==> IsSorted(a[..k + 1]) && multiset(a[..k + 1]) == multiset(was)
    ensures !settled ==> j > 0 && Sifting(a[..k + 1], was, j - 1)
    ensures a[k + 1..] == old(a[k + 1..])
  {
    ghost var s := a[..k + 1];
    settled := j == 0 || !Less(a[j], a[j - 1]);
    if settled {
      SettledIsSorted(s, j);
    } else {
      SiftStep(s, was, j);
      a[j], a[j - 1] := a[j - 1], a[j];
      assert a[..k + 1] == Swapped(s, j - 1, j);
    }
  }

  /** The last of the texts settles among the sorted ones before it. */
  method SiftDown(a: array<string>, k: nat)
    requires k < a.Length && IsSorted(a[..k])
    modifies a
    ensures IsSorted(a[..k + 1])
    ensures multiset(a[..k + 1]) == multiset(old(a[..k + 1]))
    ensures a[k + 1..] == old(a[k + 1..])
  {
    ghost var was := a[..k + 1];
    assert was[..k] == a[..k];
    AppendedIsSortedBut(was);
    var j: nat := k;
    var settled := false;
    while !settled
      invariant j <= k
      invariant !settled ==> Sifting(a[..k + 1], was, j)
      invariant settled ==> IsSorted(a[..k + 1]) && multiset(a[..k + 1]) == multiset(was)
      invariant a[k + 1..] == old(a[k + 1..])
      decreases !settled, j
    {
      settled := SiftOnce(a, k, j, was);
      j := if settled then j else j - 1;
    }
  }

  /** qsort with strcmp. */
  method Sort(a: array<string>, count: nat)
    requires count <= a.Length
    modifies a
    ensures IsSorted(a[..count])
    ensures multiset(a[..count]) == multiset(old(a[..count]))
  {
    var k := 0;
    while k < count
      invariant 0 <= k <= count
      invariant IsSorted(a[..k])
      invariant multiset(a[..k]) == multiset(old(a[..k]))
      invariant a[k..] == old(a[k..])
    {
      assert a[..k + 1] == a[..k] + [a[k]] && old(a[..k + 1]) == old(a[..k]) + [old(a[k])];
      assert a[k] == a[k..][0];
      assert a[k + 1..] == a[k..][1..] == old(a[k..])[1..] == old(a[k + 1..]);
      SiftDown(a, k);
      k := k + 1;
    }
  }

  lemma SameMembers(s: seq<string>, r: seq<string>)
    requires multiset(s) == multiset(r)
    ensures forall x :: x in s <==> x in r
  {
    forall x
      ensures x in s <==> x in r
    {
      assert x in s <==> x in multiset(s);
      assert x in r <==> x in multiset(r);
    }
  }

  /** The compaction loop: an entry is kept when it differs from the last one kept. The write never
      overtakes the read. */
  method Compact(a: array<string>, count: nat) returns (unique: nat)
    requires count <= a.Length && IsSorted(a[..count])
    modifies a
    ensures unique <= count
    ensures IsAscending(a[..unique])
    ensures forall x :: x in a[..unique] <==> x in old(a[..count])
  {
    unique := 0;
    ghost var sorted := a[..count];
    var i := 0;
    while i < count
      invariant 0 <= unique <= i <= count
      invariant a[i..count] == sorted[i..]
      invariant IsAscending(a[..unique])
      invariant forall x :: x in a[..unique] <==> x in sorted[..i]
      invariant i > 0 ==> unique > 0 && a[unique - 1] == sorted[i - 1]
    {
      assert a[i] == a[i..count][0] == sorted[i];
      assert sorted[..i + 1] == sorted[..i] + [sorted[i]];
      assert a[i + 1..count] == a[i..count][1..];
      if unique == 0 || a[unique - 1] != a[i] {
        ghost var kept := a[..unique];
        assert forall k :: 0 <= k < unique ==> Less(kept[k], sorted[i]) by {
          forall k | 0 <= k < unique ensures Less(kept[k], sorted[i]) {
            assert AtMost(sorted[i - 1], sorted[i]);
            if k < unique - 1 {
              LessTransitive(kept[k], kept[unique - 1], sorted[i]);
            }
          }
        }
        a[unique] := a[i];
        unique := unique + 1;
        assert a[..unique] == kept + [sorted[i]];
      }
      i := i + 1;
    }
    assert sorted[..count] == sorted;
  }

  /** One turn of the first loop of parse_pod_list. */
  method StoreItem(list: Block, item: Json, leadingZeros: bool)
    requires list.count < list.ips.Length
    modifies list, list.ips
    ensures list.Valid() && list.count <= old(list.count) + 1
    ensures list.Contents() ==
            old(list.Contents()) + (var text := ItemText(item, leadingZeros); if text.Some? then [text.value] else [])
  {
    var text := ItemText(item, leadingZeros);
    if text.Some? {
      list.Append(text.value);
    }
  }

  /** The first loop of parse_pod_list. */
  method StoreTexts(items: seq<Json>, leadingZeros: bool) returns (list: Block)
    ensures fresh(list) && fresh(list.ips) && list.Valid()
    ensures list.Contents() == Present(ItemTexts(items, leadingZeros))
  {
    list := new Block(|items|);
    ghost var texts := ItemTexts(items, leadingZeros);
    var i := 0;
    while i < |items|
      invariant 0 <= list.count <= i <= |items|
      invariant list.ips.Length == |items|
      invariant list.Contents() == Present(texts[..i])
    {
      PresentNext(texts, i);
      StoreItem(list, items[i], leadingZeros);
      i := i + 1;
    }
    assert texts[..|items|] == texts;
  }

  /** parse_pod_list as a function of the body. */
  ghost function ParseBody(root: Json, hasMemory: bool, leadingZeros: bool): Result<seq<string>, ParseError> {
    if root.Null? then Failure(InvalidJson)
    else if Get(root, "items").None? || !Get(root, "items").value.Array? then Failure(NoItemsArray)
    else if !hasMemory then Failure(OutOfMemory)
    else Success(PodIps(Get(root, "items").value.items, leadingZeros))
  }

  /** parse_pod_list on a parsed body; `hasMemory` tells whether the list's malloc succeeded. */
  method ParsePodList(root: Json, hasMemory: bool, leadingZeros: bool) returns (r: Result<Block, ParseError>)
    ensures r == Failure(InvalidJson) <==> root.Null?
    ensures r == Failure(NoItemsArray) <==>
              !root.Null? && (Get(root, "items").None? || !Get(root, "items").value.Array?)
    ensures r.Success? ==>
              && hasMemory && Get(root, "items").Some? && Get(root, "items").value.Array?
              && fresh(r.value) && r.value.Valid()
              && r.value.Contents() == PodIps(Get(root, "items").value.items, leadingZeros)
    ensures r.Failure? ==> ParseBody(root, hasMemory, leadingZeros) == Failure(r.error)
  {
    if root.Null? {
      return Failure(InvalidJson);
    }
    var found := Get(root, "items");
    if found.None? || !found.value.Array? {
      return Failure(NoItemsArray);
    }
    var items := found.value.items;
    var n := if |items| > MAX_PODS then MAX_PODS else |items|;
    if !hasMemory {
      return Failure(OutOfMemory);
    }
    assert items[..n] == Considered(items);
    var list := StoreTexts(items[..n], leadingZeros);
    ghost var texts := ItemTexts(Considered(items), leadingZeros);
    Sort(list.ips, list.count);
    SameMembers(list.ips[..list.count], Present(texts));
    list.count := Compact(list.ips, list.count);
    AscendingUnique(list.ips[..list.count], SortUnique(Present(texts)));
    return Success(list);
  }

  // ---------- pod_list_fetch ----------

  /** What one request met: the namespace and the token (None: unavailable), how the transfer ended,
      the HTTP status, the body (None: nothing was written), and whether the list's malloc succeeded. */
  datatype Request = Request(
    hasNamespace: bool,
    hasToken: bool,
    transferred: bool,
    code: int,
    body: Option<Json>,
    hasMemory: bool)

  datatype FetchError =
    | BadNamespace
    | NoToken
    | TransportError
    | HttpError(code: int)
    | EmptyResponse
    | BadBody(error: ParseError)

  ghost function FetchList(q: Request, leadingZeros: bool): Result<seq<string>, FetchError> {
    if !q.hasNamespace then Failure(BadNamespace)
    else if !q.hasToken then Failure(NoToken)
    else if !q.transferred then Failure(TransportError)
    else if q.code != 200 then Failure(HttpError(q.code))
    else if q.body.None? then Failure(EmptyResponse)
    else match ParseBody(q.body.value, q.hasMemory, leadingZeros)
      case Success(ips) => Success(ips)
      case Failure(e) => Failure(BadBody(e))
  }

  /** pod_list_fetch after the request is made: the body is looked at only when it came with a 200. */
  method PodListFetch(q: Request, leadingZeros: bool) returns (r: Result<Block, FetchError>)
    ensures r.Failure? ==> FetchList(q, leadingZeros) == Failure(r.error)
    ensures r.Success? ==> r.value.Valid() && FetchList(q, leadingZeros) == Success(r.value.Contents())
  {
    if !q.hasNamespace {
      return Failure(BadNamespace);
    }
    if !q.hasToken {
      return Failure(NoToken);
    }
    if !q.transferred {
      r := Failure(TransportError);
    } else if q.code != 200 {
      r := Failure(HttpError(q.code));
    } else if q.body.None? {
      r := Failure(EmptyResponse);
    } else {
      var parsed := ParsePodList(q.body.value, q.hasMemory, leadingZeros);
      r := match parsed case Success(list) => Success(list) case Failure(e) => Failure(BadBody(e));
    }
  }

  /** A list comes out of a complete HTTP 200 answer whose body is a pod list, and out of nothing
      else; it is the list of that body. */
  lemma FetchSucceedsOnlyOnAPodList(q: Request, leadingZeros: bool)
    ensures FetchList(q, leadingZeros).Success? <==>
              && q.hasNamespace && q.hasToken && q.transferred && q.code == 200 && q.hasMemory
              && q.body.Some? && Get(q.body.value, "items").Some? && Get(q.body.value, "items").value.Array?
    ensures FetchList(q, leadingZeros).Success? ==>
              && IsAscending(FetchList(q, leadingZeros).value)
              && |FetchList(q, leadingZeros).value| <= MAX_PODS
              && forall x :: x in FetchList(q, leadingZeros).value <==>
                   Contributes(Considered(Get(q.body.value, "items").value.items), leadingZeros, x)
  {
    if FetchList(q, leadingZeros).Success? {
      var items := Get(q.body.value, "items").value.items;
      forall x
        ensures x in PodIps(items, leadingZeros) <==> Contributes(Considered(items), leadingZeros, x)
      {
        PodIpsAreTheAddresses(items, leadingZeros, x);
      }
    }
  }

  /** The body of an answer that came: it was transferred with a 200. */
  predicate Answered(q: Request) {
    q.hasNamespace && q.hasToken && q.transferred && q.code == 200 && q.body.Some?
  }

  predicate IsPodList(body: Json) {
    body.Object? && "items" in body.fields && body.fields["items"].Array?
  }

  /** Which failure is reported: the first thing missing, in the order in which they are needed. */
  lemma FetchFailsForTheFirstReason(q: Request, leadingZeros: bool, code: int)
    ensures var r := FetchList(q, leadingZeros);
            && (r == Failure(BadNamespace) <==> !q.hasNamespace)
            && (r == Failure(NoToken) <==> q.hasNamespace && !q.hasToken)
            && (r == Failure(TransportError) <==> q.hasNamespace && q.hasToken && !q.transferred)
            && (r == Failure(HttpError(code)) <==>
                  q.hasNamespace && q.hasToken && q.transferred && q.code == code != 200)
            && (r == Failure(EmptyResponse) <==>
                  q.hasNamespace && q.hasToken && q.transferred && q.code == 200 && q.body.None?)
            && (r == Failure(BadBody(InvalidJson)) <==> Answered(q) && q.body.value.Null?)
            && (r == Failure(BadBody(NoItemsArray)) <==>
                  Answered(q) && !q.body.value.Null? && !IsPodList(q.body.value))
            && (r == Failure(BadBody(OutOfMemory)) <==> Answered(q) && IsPodList(q.body.value) && !q.hasMemory)
            && (r.Success? <==> Answered(q) && IsPodList(q.body.value) && q.hasMemory)
  {}

  /** What pod_list_fetch returns; None is NULL. */
  ghost function Answer(q: Request, leadingZeros: bool): (r: Option<seq<string>>)
    ensures r.Some? ==> IsAscending(r.value) && |r.value| <= MAX_PODS
  {
    FetchSucceedsOnlyOnAPodList(q, leadingZeros);
    var result := FetchList(q, leadingZeros);
    if result.Success? then Some(result.value) else None
  }

  /** One running pod is enough for a list. */
  lemma SomeRequestSucceeds(leadingZeros: bool) returns (q: Request)
    ensures Answer(q, leadingZeros).Some? && Answer(q, leadingZeros).value != []
  {
    var address := Address(10, 0, 0, 1);
    var text := Print(address);
    var item := Object(map["status" := Object(map["podIP" := Str(text)])]);
    ParsePrint(address, leadingZeros);
    PrintFits(address);
    CStringWhole(text, []);
    assert ItemText(item, leadingZeros) == Some(text);
    q := Request(true, true, true, 200, Some(Object(map["items" := Array([item])])), true);
    FetchSucceedsOnlyOnAPodList(q, leadingZeros);
    GivesItsText(item, leadingZeros, text);
    assert Contributes([item], leadingZeros, text) by {
      assert Gives([item][0], leadingZeros, text);
    }
    PodIpsAreTheAddresses([item], leadingZeros, text);
  }
}
