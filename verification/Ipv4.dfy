/** IPv4 addresses and their dotted-decimal text: inet_pton and inet_ntop for AF_INET. */
module Ipv4 {
  import opened Prelude
  import opened Text

  /** INET_ADDRSTRLEN: the room one printed address needs, its NUL included. */
  const INET_ADDRSTRLEN := 16

  type Octet = x: nat | x < 256

  datatype Address = Address(a: Octet, b: Octet, c: Octet, d: Octet)

  /** inet_ntop. */
  function Print(x: Address): string {
    Decimal(x.a) + "." + (Decimal(x.b) + "." + (Decimal(x.c) + "." + Decimal(x.d)))
  }

  /** One `ddd`: one to three digits worth at most 255. Whether "010" is taken is the C library's
      choice; section 6.3 of RFC 3493 leaves it open, glibc and musl refuse it. */
  predicate IsOctet(s: string, leadingZeros: bool) {
    && 1 <= |s| <= 3
    && AllDigits(s)
    && (leadingZeros || |s| == 1 || s[0] != '0')
    && Value(s) < 256
  }

  /** inet_pton. */
  function Parse(s: string, leadingZeros: bool): Option<Address> {
    var f := Split(s, '.');
    if |f| == 4 && IsOctet(f[0], leadingZeros) && IsOctet(f[1], leadingZeros)
       && IsOctet(f[2], leadingZeros) && IsOctet(f[3], leadingZeros)
    then Some(Address(Value(f[0]), Value(f[1]), Value(f[2]), Value(f[3])))
    else None
  }

  lemma OctetText(n: Octet, leadingZeros: bool)
    ensures IsOctet(Decimal(n), leadingZeros) && Value(Decimal(n)) == n
    ensures '.' !in Decimal(n) && NUL !in Decimal(n)
  {
    ValueOfDecimal(n);
    assert Pow10(3) == 1000;
    DecimalLength(n, 3);
  }

  lemma PrintFields(x: Address)
    ensures Split(Print(x), '.') == [Decimal(x.a), Decimal(x.b), Decimal(x.c), Decimal(x.d)]
  {
    OctetText(x.a, true);
    OctetText(x.b, true);
    OctetText(x.c, true);
    OctetText(x.d, true);
    var cd := Decimal(x.c) + "." + Decimal(x.d);
    SplitWhole(Decimal(x.d), '.');
    SplitFirst(Decimal(x.c), Decimal(x.d), '.');
    SplitFirst(Decimal(x.b), cd, '.');
    SplitFirst(Decimal(x.a), Decimal(x.b) + "." + cd, '.');
    assert Print(x) == Decimal(x.a) + "." + (Decimal(x.b) + "." + cd);
  }

  /** What inet_ntop prints, inet_pton reads back. */
  lemma ParsePrint(x: Address, leadingZeros: bool)
    ensures Parse(Print(x), leadingZeros) == Some(x)
  {
    PrintFields(x);
    OctetText(x.a, leadingZeros);
    OctetText(x.b, leadingZeros);
    OctetText(x.c, leadingZeros);
    OctetText(x.d, leadingZeros);
  }

  /** Distinct addresses have distinct texts, so comparing texts compares addresses. */
  lemma PrintInjective(x: Address, y: Address)
    ensures Print(x) == Print(y) <==> x == y
  {
    ParsePrint(x, true);
    ParsePrint(y, true);
  }

  /** A library that refuses leading zeros accepts canonical texts only. */
  lemma StrictTextIsCanonical(s: string)
    requires Parse(s, false).Some?
    ensures s == Print(Parse(s, false).value)
  {
    var f := Split(s, '.');
    DecimalOfValue(f[0]);
    DecimalOfValue(f[1]);
    DecimalOfValue(f[2]);
    DecimalOfValue(f[3]);
    PrintFields(Parse(s, false).value);
    assert f == Split(Print(Parse(s, false).value), '.');
    JoinSplit(s, '.');
    JoinSplit(Print(Parse(s, false).value), '.');
  }

  /** Every printed address fits its slot with the terminating NUL, so inet_ntop never fails. */
  lemma PrintFits(x: Address)
    ensures 7 <= |Print(x)| < INET_ADDRSTRLEN && NUL !in Print(x) && '\t' !in Print(x)
  {
    OctetText(x.a, true);
    OctetText(x.b, true);
    OctetText(x.c, true);
    OctetText(x.d, true);
  }
}
