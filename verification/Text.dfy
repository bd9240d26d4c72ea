/** Strings as the C library sees them: splitting, decimal numerals and the order of strcmp. */
module Text {

  // ---------- Splitting ----------

  /** The fields of `s` between occurrences of `sep`, as a reader of the announcement splits it. */
  function Split(s: string, sep: char): (fields: seq<string>)
    ensures |fields| >= 1
  {
    if s == "" then [""]
    else if s[0] == sep then [""] + Split(s[1..], sep)
    else var rest := Split(s[1..], sep); [[s[0]] + rest[0]] + rest[1..]
  }

  lemma {:induction false} SplitWhole(a: string, sep: char)
    requires sep !in a
    ensures Split(a, sep) == [a]
  {
    if a != "" {
      SplitWhole(a[1..], sep);
      assert a == [a[0]] + a[1..];
    }
  }

  lemma {:induction false} SplitFirst(a: string, b: string, sep: char)
    requires sep !in a
    ensures Split(a + [sep] + b, sep) == [a] + Split(b, sep)
  {
    if a == "" {
      assert (a + [sep] + b)[1..] == b;
    } else {
      SplitFirst(a[1..], b, sep);
      assert (a + [sep] + b)[1..] == a[1..] + [sep] + b;
      assert a == [a[0]] + a[1..];
    }
  }

  /** All fields but the last are the same, and that one is perhaps cut short. */
  ghost predicate IsCutOf(part: seq<string>, whole: seq<string>) {
    && 0 < |part| <= |whole|
    && (forall k :: 0 <= k < |part| - 1 ==> part[k] == whole[k])
    && part[|part| - 1] <= whole[|part| - 1]
  }

  lemma CutGrows(c: char, part: seq<string>, whole: seq<string>)
    requires IsCutOf(part, whole)
    ensures IsCutOf([""] + part, [""] + whole)
    ensures IsCutOf([[c] + part[0]] + part[1..], [[c] + whole[0]] + whole[1..])
  {}

  /** A text cut short keeps its fields, the last one perhaps cut short itself. */
  lemma {:induction false} SplitPrefix(s: string, n: nat, sep: char)
    requires n <= |s|
    ensures IsCutOf(Split(s[..n], sep), Split(s, sep))
  {
    if n > 0 {
      SplitPrefix(s[1..], n - 1, sep);
      assert s[..n][1..] == s[1..][..n - 1];
      CutGrows(s[0], Split(s[1..][..n - 1], sep), Split(s[1..], sep));
    }
  }

  lemma FirstGrows(c: char, a: seq<string>, b: seq<string>)
    requires a != [] && b != []
    ensures [[c] + a[0]] + a[1..] <= [[c] + b[0]] + b[1..] <==> a <= b
    ensures [""] + a <= [""] + b <==> a <= b
  {
    var a', b' := [[c] + a[0]] + a[1..], [[c] + b[0]] + b[1..];
    assert a'[0][1..] == a[0] && b'[0][1..] == b[0];
    if a' <= b' {
      assert forall k :: 0 <= k < |a| ==> a'[k] == b'[k];
      assert forall k :: 0 < k < |a| ==> a[k] == a'[k] && b[k] == b'[k];
    }
    assert ([""] + a)[1..] == a && ([""] + b)[1..] == b;
  }

  lemma FirstCharacters(a: string, b: string, sep: char)
    requires a != "" && (b == "" || a[0] != b[0])
    ensures !(Split(a, sep) <= Split(b, sep))
  {
    var f, g := Split(a, sep), Split(b, sep);
    assert if a[0] == sep then f[0] == "" && |f| > 1 else f[0] != "" && f[0][0] == a[0];
    assert b == "" ==> g == [""];
    assert b != "" ==> if b[0] == sep then g[0] == "" else g[0] != "" && g[0][0] == b[0];
    assert |f| > |g| || f[0] != g[0];
  }

  lemma SplitCons(s: string, sep: char)
    requires s != ""
    ensures var rest := Split(s[1..], sep);
            Split(s, sep) == if s[0] == sep then [""] + rest else [[s[0]] + rest[0]] + rest[1..]
  {}

  /** The fields of one text are the first of another exactly when it is a prefix that ends where one
      of them does. */
  lemma {:induction false} FirstFieldsAreText(a: string, b: string, sep: char)
    ensures Split(a, sep) <= Split(b, sep) <==> a <= b && (|a| < |b| ==> b[|a|] == sep)
  {
    if a == "" {
      assert [""] <= Split(b, sep) <==> Split(b, sep)[0] == "";
    } else if b == "" || a[0] != b[0] {
      FirstCharacters(a, b, sep);
    } else {
      SplitCons(a, sep);
      SplitCons(b, sep);
      FirstGrows(a[0], Split(a[1..], sep), Split(b[1..], sep));
      FirstFieldsAreText(a[1..], b[1..], sep);
      assert a <= b <==> a[1..] <= b[1..];
    }
  }

  function Join(fields: seq<string>, sep: char): string
    requires |fields| >= 1
  {
    if |fields| == 1 then fields[0] else fields[0] + [sep] + Join(fields[1..], sep)
  }

  /** Nothing is lost by splitting. */
  lemma {:induction false} JoinSplit(s: string, sep: char)
    ensures Join(Split(s, sep), sep) == s
  {
    if s != "" {
      JoinSplit(s[1..], sep);
      var rest := Split(s[1..], sep);
      if s[0] != sep {
        var fields := Split(s, sep);
        assert fields[1..] == rest[1..];
        assert s == [s[0]] + s[1..];
      } else {
        assert Split(s, sep)[1..] == rest;
      }
    }
  }

  lemma {:induction false} FieldsHaveNoSeparator(s: string, sep: char, k: nat)
    requires k < |Split(s, sep)|
    ensures sep !in Split(s, sep)[k]
  {
    if s != "" {
      var rest := Split(s[1..], sep);
      if s[0] == sep {
        if k > 0 {
          FieldsHaveNoSeparator(s[1..], sep, k - 1);
        }
      } else {
        FieldsHaveNoSeparator(s[1..], sep, k);
      }
    }
  }

  /** A text cut short within its last field. */
  lemma CutLastField(s: string, n: nat, sep: char)
    requires n < |s| && |Split(s[..n], sep)| == |Split(s, sep)|
    ensures var k := |Split(s, sep)| - 1;
            && Split(s[..n], sep)[..k] == Split(s, sep)[..k]
            && |Split(s[..n], sep)[k]| < |Split(s, sep)[k]| && Split(s[..n], sep)[k] <= Split(s, sep)[k]
  {
    SplitPrefix(s, n, sep);
    var whole, part := Split(s, sep), Split(s[..n], sep);
    if part[|whole| - 1] == whole[|whole| - 1] {
      assert part == whole;
      JoinSplit(s, sep);
      JoinSplit(s[..n], sep);
    }
  }

  // ---------- Decimal numerals ----------

  predicate IsDigit(c: char) {
    '0' <= c <= '9'
  }

  predicate AllDigits(s: string) {
    forall i :: 0 <= i < |s| ==> IsDigit(s[i])
  }

  /** `%d` of a non-negative number. */
  function Decimal(n: nat): (s: string)
    ensures |s| >= 1 && AllDigits(s)
    ensures n > 0 ==> s[0] != '0'
  {
    if n < 10 then [n as char + '0'] else Decimal(n / 10) + [(n % 10) as char + '0']
  }

  /** The number a run of digits stands for. */
  function Value(s: string): nat
    requires AllDigits(s)
  {
    if s == "" then 0 else 10 * Value(s[..|s| - 1]) + (s[|s| - 1] - '0') as nat
  }

  lemma {:induction false} ValueOfDecimal(n: nat)
    ensures Value(Decimal(n)) == n
  {
    if n >= 10 {
      ValueOfDecimal(n / 10);
      assert Decimal(n)[..|Decimal(n)| - 1] == Decimal(n / 10);
    } else {
      assert Decimal(n)[..0] == "";
    }
  }

  lemma {:induction false} ValuePrefix(s: string, n: nat)
    requires AllDigits(s) && n <= |s|
    ensures Value(s[..n]) <= Value(s)
  {
    if n < |s| {
      var front := s[..|s| - 1];
      ValuePrefix(front, n);
      assert front[..n] == s[..n];
    } else {
      assert s[..n] == s;
    }
  }

  lemma {:induction false} ValuePositive(s: string)
    requires AllDigits(s) && s != "" && s[0] != '0'
    ensures Value(s) > 0
  {
    if |s| > 1 {
      ValuePositive(s[..|s| - 1]);
    }
  }

  /** A numeral without leading zeros is the one `%d` prints. */
  lemma {:induction false} DecimalOfValue(s: string)
    requires AllDigits(s) && s != "" && (|s| == 1 || s[0] != '0')
    ensures Decimal(Value(s)) == s
  {
    if |s| == 1 {
      assert Value(s[..0]) == 0;
    } else {
      var front := s[..|s| - 1];
      ValuePositive(front);
      DecimalOfValue(front);
      assert s == front + [s[|s| - 1]];
    }
  }

  function Pow10(n: nat): nat {
    if n == 0 then 1 else 10 * Pow10(n - 1)
  }

  lemma {:induction false} DecimalLength(n: nat, k: nat)
    requires k >= 1 && n < Pow10(k)
    ensures |Decimal(n)| <= k
  {
    if n >= 10 {
      DecimalLength(n / 10, k - 1);
    }
  }

  lemma {:induction false} DecimalLongEnough(n: nat, k: nat)
    requires n >= Pow10(k)
    ensures |Decimal(n)| > k
  {
    if k > 0 {
      DecimalLongEnough(n / 10, k - 1);
    }
  }

  /** `%d`. */
  function Numeral(n: int): string {
    if n < 0 then "-" + Decimal(-n) else Decimal(n)
  }

  // ---------- strcmp ----------

  /** strcmp(a, b) < 0 for strings without NUL. */
  predicate Less(a: string, b: string) {
    if b == "" then false
    else if a == "" then true
    else a[0] < b[0] || (a[0] == b[0] && Less(a[1..], b[1..]))
  }

  predicate AtMost(a: string, b: string) {
    a == b || Less(a, b)
  }

  lemma {:induction false} LessIrreflexive(a: string)
    ensures !Less(a, a)
  {
    if a != "" {
      LessIrreflexive(a[1..]);
    }
  }

  lemma {:induction false} LessTransitive(a: string, b: string, c: string)
    requires Less(a, b) && Less(b, c)
    ensures Less(a, c)
  {
    if a != "" && a[0] == b[0] == c[0] {
      LessTransitive(a[1..], b[1..], c[1..]);
    }
  }

  lemma {:induction false} LessTotal(a: string, b: string)
    ensures a == b || Less(a, b) || Less(b, a)
  {
    if a != "" && b != "" && a[0] == b[0] {
      LessTotal(a[1..], b[1..]);
      assert a == [a[0]] + a[1..] && b == [b[0]] + b[1..];
    }
  }

  // ---------- C strings ----------

  const NUL: char := 0 as char

  /** What C sees of a buffer: the characters before the first NUL. */
  function CString(s: seq<char>): (r: string)
    ensures NUL !in r && r <= s
    ensures |r| < |s| ==> s[|r|] == NUL
  {
    if s == [] || s[0] == NUL then "" else [s[0]] + CString(s[1..])
  }

  /** What follows the terminator is not seen. */
  lemma {:induction false} CStringCut(s: seq<char>, rest: seq<char>)
    ensures CString(s + [NUL] + rest) == CString(s)
  {
    if s == [] {
      assert (s + [NUL] + rest)[0] == NUL;
    } else {
      CStringCut(s[1..], rest);
      assert (s + [NUL] + rest)[1..] == s[1..] + [NUL] + rest;
    }
  }

  lemma {:induction false} CStringWhole(s: string, rest: seq<char>)
    requires NUL !in s
    ensures CString(s + [NUL] + rest) == s && CString(s) == s
  {
    if s == "" {
      assert (s + [NUL] + rest)[0] == NUL;
    } else {
      CStringWhole(s[1..], rest);
      assert (s + [NUL] + rest)[1..] == s[1..] + [NUL] + rest;
    }
  }
}
