/** write_body of pod_list.c: the buffer that collects a response, grown by doubling. */
module ResponseBody {
  import opened Backoff

  type Byte = x: nat | x < 256

  /** size_t. */
  newtype Size = x: int | 0 <= x < 0x1_0000_0000_0000_0000

  const FIRST_CAPACITY: Size := 16384

  /** What the buffer holds, the room it has, and how many bytes its growth has moved so far. */
  datatype Body = Body(bytes: seq<Byte>, capacity: nat, moved: nat)

  const EMPTY_BODY := Body([], 0, 0)

  /** `capacity` doubled until `needed` fits. */
  function Doubled(capacity: nat, needed: nat): nat
    requires capacity > 0
    decreases needed - capacity
  {
    if needed > capacity then Doubled(2 * capacity, needed) else capacity
  }

  /** One call of write_body, and what it returns; `granted` tells whether a realloc it asks for
      succeeds. */
  function Write(b: Body, chunk: seq<Byte>, granted: bool): (Body, nat) {
    var needed := |b.bytes| + |chunk| + 1;
    if needed <= b.capacity then (b.(bytes := b.bytes + chunk), |chunk|)
    else if !granted then (b, 0)
    else (Body(b.bytes + chunk, Doubled(if b.capacity > 0 then b.capacity else 16384, needed), b.moved + b.capacity),
          |chunk|)
  }

  // ---------- After any sequence of calls ----------

  datatype Call = Call(chunk: seq<Byte>, granted: bool)

  function Run(calls: seq<Call>): Body {
    if calls == [] then EMPTY_BODY
    else
      var last := calls[|calls| - 1];
      Write(Run(calls[..|calls| - 1]), last.chunk, last.granted).0
  }

  /** Did the last of these calls find room, or get it? */
  predicate Accepted(calls: seq<Call>)
    requires calls != []
  {
    var last := calls[|calls| - 1];
    var before := Run(calls[..|calls| - 1]);
    last.granted || |before.bytes| + |last.chunk| + 1 <= before.capacity
  }

  /** The accepted chunks, joined. */
  function AcceptedBytes(calls: seq<Call>): seq<Byte> {
    if calls == [] then []
    else
      AcceptedBytes(calls[..|calls| - 1]) + (if Accepted(calls) then calls[|calls| - 1].chunk else [])
  }

  /** The least 16384 * 2^k with room for `needed`. */
  ghost predicate IsLeastCapacity(capacity: nat, needed: nat) {
    exists k: nat :: capacity == 16384 * Pow2(k) && needed <= capacity && (k == 0 || 16384 * Pow2(k - 1) < needed)
  }

  lemma {:induction false} DoubledIsLeast(k: nat, needed: nat)
    requires k == 0 || 16384 * Pow2(k - 1) < needed
    ensures Pow2(k) >= 1
    ensures IsLeastCapacity(Doubled(16384 * Pow2(k), needed), needed)
    decreases needed - 16384 * Pow2(k)
  {
    Pow2Monotone(0, k);
    if needed > 16384 * Pow2(k) {
      assert Pow2(k + 1) == 2 * Pow2(k);
      assert 2 * (16384 * Pow2(k)) == 16384 * Pow2(k + 1);
      DoubledIsLeast(k + 1, needed);
    }
  }

  lemma {:induction false} DoubledAtLeastTwice(capacity: nat, needed: nat)
    requires capacity > 0
    ensures Doubled(capacity, needed) >= capacity && Doubled(capacity, needed) >= needed
    ensures needed > capacity ==> Doubled(capacity, needed) >= 2 * capacity
    decreases needed - capacity
  {
    if needed > capacity {
      DoubledAtLeastTwice(2 * capacity, needed);
    }
  }

  /** The buffer is untouched, or its capacity is the least one for its contents and the NUL; all
      growth together moved fewer bytes than the capacity it led to. */
  ghost predicate Tidy(b: Body) {
    || b == EMPTY_BODY
    || (IsLeastCapacity(b.capacity, |b.bytes| + 1) && b.moved < b.capacity)
  }

  lemma WriteTidy(b: Body, chunk: seq<Byte>, granted: bool)
    requires Tidy(b)
    ensures Tidy(Write(b, chunk, granted).0)
  {
    var needed := |b.bytes| + |chunk| + 1;
    if b == EMPTY_BODY {
      assert Pow2(0) == 1;
      DoubledIsLeast(0, needed);
      DoubledAtLeastTwice(16384, needed);
    } else {
      var k: nat :| b.capacity == 16384 * Pow2(k) && |b.bytes| + 1 <= b.capacity
                    && (k == 0 || 16384 * Pow2(k - 1) < |b.bytes| + 1);
      if needed > b.capacity && granted {
        DoubledIsLeast(k, needed);
        DoubledAtLeastTwice(b.capacity, needed);
      }
    }
  }

  /** After any calls: the accepted chunks joined, in the least capacity, at less than one capacity's
      worth of moving. */
  lemma {:induction false} RunIsTidy(calls: seq<Call>)
    ensures Tidy(Run(calls)) && Run(calls).bytes == AcceptedBytes(calls)
  {
    if calls != [] {
      var last := calls[|calls| - 1];
      RunIsTidy(calls[..|calls| - 1]);
      WriteTidy(Run(calls[..|calls| - 1]), last.chunk, last.granted);
    }
  }

  /** A refused realloc changes nothing. The caller can tell from the result, except for an empty
      chunk: there 0 is both the refusal and the chunk's own length. */
  lemma RefusalChangesNothing(calls: seq<Call>)
    requires calls != []
    ensures var before, last := Run(calls[..|calls| - 1]), calls[|calls| - 1];
            && (!Accepted(calls) ==> Run(calls) == before)
            && (Write(before, last.chunk, last.granted).1 == |last.chunk| <==> Accepted(calls) || last.chunk == [])
  {}

  // ---------- The buffer itself ----------

  /** realloc: on success a new block that starts with the old one's contents. */
  method Realloc(block: array?<Byte>, capacity: Size, granted: bool) returns (r: array?<Byte>)
    requires block != null ==> block.Length <= capacity as int
    ensures !granted <==> r == null
    ensures granted ==> fresh(r) && r.Length == capacity as int
    ensures granted && block != null ==> r[..block.Length] == block[..]
  {
    if !granted {
      return null;
    }
    r := new Byte[capacity as int];
    if block != null {
      var i := 0;
      while i < block.Length
        invariant 0 <= i <= block.Length
        invariant r[..i] == block[..i]
      {
        r[i] := block[i];
        i := i + 1;
      }
    }
  }

  /** memcpy. */
  method CopyInto(block: array<Byte>, at: nat, chunk: seq<Byte>)
    requires at + |chunk| <= block.Length
    modifies block
    ensures block[..at] == old(block[..at])
    ensures block[at..at + |chunk|] == chunk
  {
    var i := 0;
    while i < |chunk|
      invariant 0 <= i <= |chunk|
      invariant block[..at] == old(block[..at])
      invariant block[at..at + i] == chunk[..i]
    {
      block[at + i] := chunk[i];
      i := i + 1;
    }
  }

  /** The doubling loop; below half the address space no doubling wraps around. */
  method Grow(capacity: Size, needed: Size) returns (grown: Size)
    requires capacity > 0 && needed as int <= 0x8000_0000_0000_0000
    ensures grown as nat == Doubled(capacity as nat, needed as nat)
  {
    grown := capacity;
    while needed > grown
      invariant capacity <= grown
      invariant Doubled(grown as nat, needed as nat) == Doubled(capacity as nat, needed as nat)
      decreases needed as int - grown as int
    {
      grown := grown * 2;
    }
  }

  class Buffer {
    var data: array?<Byte>
    var size: Size
    var capacity: Size
    ghost var moved: nat

    constructor ()
      ensures Valid() && Contents() == EMPTY_BODY && data == null
    {
      data, size, capacity, moved := null, 0, 0, 0;
    }

    /** The fields fit the block. */
    ghost predicate Fits()
      reads this, data
    {
      && (data == null <==> capacity == 0)
      && (data == null ==> size == 0)
      && (data != null ==> data.Length == capacity as int && size < capacity)
    }

    /** And a NUL follows the contents. */
    ghost predicate Valid()
      reads this, data
    {
      Fits() && (data != null ==> data[size as int] == 0)
    }

    ghost function Contents(): Body
      reads this, data
      requires Fits()
    {
      Body(if data == null then [] else data[..size as int], capacity as nat, moved)
    }

    /** The first half of write_body: make room for `length` more bytes and the NUL. */
    method Reserve(length: Size, granted: bool) returns (ok: bool)
      requires Fits()
      requires size as int + length as int + 1 <= 0x8000_0000_0000_0000
      modifies this
      ensures Fits() && size == old(size)
      ensures ok <==> size as int + length as int + 1 <= old(capacity) as int || granted
      ensures ok ==> data != null && size as int + length as int < data.Length
      ensures Contents().bytes == old(Contents().bytes)
      ensures size as int + length as int + 1 <= old(capacity) as int || !ok ==> unchanged(this)
      ensures ok && size as int + length as int + 1 > old(capacity) as int ==>
                && fresh(data)
                && capacity as nat == Doubled(if old(capacity) > 0 then old(capacity) as nat else 16384,
                                              size as nat + length as nat + 1)
                && moved == old(moved) + old(capacity) as nat
    {
      if size + length + 1 > capacity {
        var first := if capacity != 0 then capacity else FIRST_CAPACITY;
        var grown := Grow(first, size + length + 1);
        DoubledAtLeastTwice(first as nat, (size + length + 1) as nat);
        var block := Realloc(data, grown, granted);
        if block == null {
          return false;
        }
        assert data != null ==> block[..size as int] == block[..data.Length][..size as int] == data[..size as int];
        moved := moved + capacity as nat;
        data := block;
        capacity := grown;
      }
      ok := true;
    }

    /** write_body. The bound says that buffer and chunk together fit half the address space; nothing
        larger exists, and with it no size_t here wraps around. */
    method WriteBody(chunk: seq<Byte>, granted: bool) returns (n: Size)
      requires Valid()
      requires size as int + |chunk| + 1 <= 0x8000_0000_0000_0000
      modifies this, data
      ensures Valid()
      ensures (Contents(), n as nat) == Write(old(Contents()), chunk, granted)
      ensures data == old(data) || fresh(data)
    {
      var ok := Reserve(|chunk| as Size, granted);
      if !ok {
        return 0;
      }
      var at := size as int;
      CopyInto(data, at, chunk);
      assert data[..at + |chunk|] == data[..at] + data[at..at + |chunk|];
      size := size + |chunk| as Size;
      data[size as int] := 0;
      n := |chunk| as Size;
    }
  }
}
