/** settings.c: numbers out of environment strings, and the lower bounds the threads rely on. */
module Settings {
  import opened Text

  const INT_MAX := 0x7FFF_FFFF
  const INT_MIN := -0x8000_0000
  const LONG_MAX := 0x7FFF_FFFF_FFFF_FFFF
  const LONG_MIN := -0x8000_0000_0000_0000

  const DEFAULT_PORT := 63000
  const DEFAULT_INTERVAL := 1
  const DEFAULT_PODS_REFRESH := 5
  const DEFAULT_PODS_TIMEOUT := 5

  // ---------- strtol ----------

  /** isspace in the C locale: space, and \t \n \v \f \r. */
  predicate IsSpace(c: char) {
    c == ' ' || 9 <= c as int <= 13
  }

  function SkipSpace(s: string): string {
    if s != "" && IsSpace(s[0]) then SkipSpace(s[1..]) else s
  }

  function SkipSign(s: string): string {
    if s != "" && (s[0] == '+' || s[0] == '-') then s[1..] else s
  }

  /** The longest run of digits `s` starts with. */
  function DigitRun(s: string): (r: string)
    ensures AllDigits(r) && r <= s
    ensures |r| < |s| ==> !IsDigit(s[|r|])
  {
    if s == "" || !IsDigit(s[0]) then "" else [s[0]] + DigitRun(s[1..])
  }

  /** What strtol reports: the saturated value, whether it set ERANGE, whether any digit was read,
      and whether it stopped before the end of the string. */
  datatype Scan = Scan(value: int, outOfRange: bool, converted: bool, leftover: bool)

  function Signed(negative: bool, digits: string): int
    requires AllDigits(digits)
  {
    var magnitude: int := Value(digits);
    if negative then -magnitude else magnitude
  }

  function StrToL(s: string): Scan {
    var signed := SkipSpace(s);
    var unsigned := SkipSign(signed);
    var digits := DigitRun(unsigned);
    var n := Signed(signed != "" && signed[0] == '-', digits);
    Scan(if n > LONG_MAX then LONG_MAX else if n < LONG_MIN then LONG_MIN else n,
         n > LONG_MAX || n < LONG_MIN,
         digits != "",
         digits != unsigned)
  }

  /** parse_int. */
  function ParseInt(s: string): int {
    var scan := StrToL(s);
    if !scan.converted || scan.leftover
       || ((scan.value == LONG_MIN || scan.value == LONG_MAX) && scan.outOfRange)
       || scan.value > INT_MAX || scan.value < INT_MIN
    then 0
    else scan.value
  }

  /** Leading white space, at most one sign, then digits to the end. */
  ghost predicate Reads(s: string, n: int, space: string, sign: string, digits: string) {
    && s == space + (sign + digits)
    && (forall i :: 0 <= i < |space| ==> IsSpace(space[i]))
    && sign in {"", "+", "-"}
    && digits != "" && AllDigits(digits)
    && n == Signed(sign == "-", digits)
  }

  /** The strings that are numbers, and which. */
  ghost predicate Denotes(s: string, n: int) {
    exists space, sign, digits :: Reads(s, n, space, sign, digits)
  }

  lemma {:induction false} SkipSpaceDrops(space: string, rest: string)
    requires forall i :: 0 <= i < |space| ==> IsSpace(space[i])
    requires rest != "" && !IsSpace(rest[0])
    ensures SkipSpace(space + rest) == rest
  {
    if space == "" {
      assert space + rest == rest;
    } else {
      SkipSpaceDrops(space[1..], rest);
      assert (space + rest)[1..] == space[1..] + rest;
    }
  }

  lemma SkipSignDrops(sign: string, digits: string)
    requires sign in {"", "+", "-"} && digits != "" && AllDigits(digits)
    ensures SkipSign(sign + digits) == digits
    ensures (sign + digits)[0] == '-' <==> sign == "-"
  {
    assert IsDigit(digits[0]);
    if sign == "" {
      assert sign + digits == digits;
    }
  }

  lemma {:induction false} DigitRunWhole(s: string)
    requires AllDigits(s)
    ensures DigitRun(s) == s
  {
    if s != "" {
      DigitRunWhole(s[1..]);
    }
  }

  lemma {:induction false} SkipSpaceSplits(s: string) returns (space: string)
    ensures s == space + SkipSpace(s)
    ensures forall i :: 0 <= i < |space| ==> IsSpace(space[i])
  {
    if s != "" && IsSpace(s[0]) {
      var rest := SkipSpaceSplits(s[1..]);
      space := [s[0]] + rest;
    } else {
      space := "";
    }
  }

  lemma ScanOfNumber(s: string, n: int)
    requires Denotes(s, n)
    ensures var scan := StrToL(s);
            scan.converted && !scan.leftover &&
            (LONG_MIN <= n <= LONG_MAX ==> scan.value == n && !scan.outOfRange) &&
            (!(LONG_MIN <= n <= LONG_MAX) ==> scan.outOfRange && scan.value in {LONG_MIN, LONG_MAX})
  {
    var space, sign, digits :| Reads(s, n, space, sign, digits);
    var unsigned := sign + digits;
    assert !IsSpace(unsigned[0]) by {
      assert IsDigit(digits[0]);
    }
    SkipSpaceDrops(space, unsigned);
    SkipSignDrops(sign, digits);
    DigitRunWhole(digits);
  }

  /** parse_int returns a non-zero `n` exactly when the whole string denotes it and it fits an int. */
  lemma ParseIntExact(s: string, n: int)
    requires n != 0
    ensures ParseInt(s) == n <==> Denotes(s, n) && INT_MIN <= n <= INT_MAX
  {
    if Denotes(s, n) {
      ScanOfNumber(s, n);
    } else if ParseInt(s) == n {
      var signed := SkipSpace(s);
      var space := SkipSpaceSplits(s);
      var digits := DigitRun(SkipSign(signed));
      var sign := signed[..|signed| - |digits|];
      assert digits == SkipSign(signed) && signed == sign + digits;
      assert sign == "" || sign == [signed[0]];
      assert Reads(s, n, space, sign, digits);
    }
  }

  /** No string yields anything outside the range of an int. */
  lemma ParseIntRange(s: string)
    ensures INT_MIN <= ParseInt(s) <= INT_MAX
  {
    if ParseInt(s) != 0 {
      ParseIntExact(s, ParseInt(s));
    }
  }

  /** What `%d` prints, parse_int reads back. */
  lemma ParseIntOfNumeral(n: int)
    requires INT_MIN <= n <= INT_MAX
    ensures ParseInt(Numeral(n)) == n
  {
    var digits := Decimal(if n < 0 then -n else n);
    ValueOfDecimal(if n < 0 then -n else n);
    assert Reads(Numeral(n), n, "", if n < 0 then "-" else "", digits);
    ScanOfNumber(Numeral(n), n);
  }

  // ---------- The getters ----------

  type Environment = map<string, string>

  function GetEnvSeconds(env: Environment, name: string, min: int, fallback: int): int {
    if name in env && ParseInt(env[name]) >= min then ParseInt(env[name]) else fallback
  }

  function GetPort(env: Environment): int {
    if "REDIS_BROADCAST_PORT" in env && 0 < ParseInt(env["REDIS_BROADCAST_PORT"]) <= 65535
    then ParseInt(env["REDIS_BROADCAST_PORT"])
    else DEFAULT_PORT
  }

  /** What the threads of one load read. */
  datatype Config = Config(interval: int, refresh: int, timeout: int, maxAge: int)

  function ReadConfig(env: Environment): Config {
    Config(
      GetEnvSeconds(env, "REDIS_BROADCAST_INTERVAL", 1, DEFAULT_INTERVAL),
      GetEnvSeconds(env, "REDIS_BROADCAST_PODS_REFRESH", 1, DEFAULT_PODS_REFRESH),
      GetEnvSeconds(env, "REDIS_BROADCAST_PODS_TIMEOUT", 1, DEFAULT_PODS_TIMEOUT),
      GetEnvSeconds(env, "REDIS_BROADCAST_PODS_MAX_AGE", 0, 0))
  }

  ghost predicate ValidConfig(c: Config) {
    && 1 <= c.interval <= INT_MAX
    && 1 <= c.refresh <= INT_MAX
    && 1 <= c.timeout <= INT_MAX
    && 0 <= c.maxAge <= INT_MAX
  }

  lemma GetEnvSecondsExact(env: Environment, name: string, min: int, fallback: int, n: int)
    requires 0 <= min <= fallback <= INT_MAX
    ensures min <= GetEnvSeconds(env, name, min, fallback) <= INT_MAX
    ensures n != 0 && n != fallback ==>
              (GetEnvSeconds(env, name, min, fallback) == n <==>
               name in env && Denotes(env[name], n) && min <= n <= INT_MAX)
  {
    if name in env {
      ParseIntRange(env[name]);
      if n != 0 {
        ParseIntExact(env[name], n);
      }
    }
  }

  /** Every environment yields usable settings: no interval, refresh or timeout below one second,
      no negative maximum age. */
  lemma EveryEnvironmentIsValid(env: Environment)
    ensures ValidConfig(ReadConfig(env)) && 1 <= GetPort(env) <= 65535
  {
    GetEnvSecondsExact(env, "REDIS_BROADCAST_INTERVAL", 1, DEFAULT_INTERVAL, 0);
    GetEnvSecondsExact(env, "REDIS_BROADCAST_PODS_REFRESH", 1, DEFAULT_PODS_REFRESH, 0);
    GetEnvSecondsExact(env, "REDIS_BROADCAST_PODS_TIMEOUT", 1, DEFAULT_PODS_TIMEOUT, 0);
    GetEnvSecondsExact(env, "REDIS_BROADCAST_PODS_MAX_AGE", 0, 0, 0);
  }

  /** The value of a setting: what its variable denotes, if that is within these bounds, and its
      default otherwise. */
  ghost predicate IsSetting(env: Environment, name: string, min: int, max: int, fallback: int, r: int) {
    if exists n :: InEnvironment(env, name, min, max, n) then InEnvironment(env, name, min, max, r) else r == fallback
  }

  ghost predicate InEnvironment(env: Environment, name: string, min: int, max: int, n: int) {
    name in env && Denotes(env[name], n) && min <= n <= max
  }

  lemma ParsedIsDenoted(env: Environment, name: string, min: int, max: int, n: int)
    requires InEnvironment(env, name, min, max, n) && 0 <= min && max <= INT_MAX
    ensures ParseInt(env[name]) == n
  {
    if n != 0 {
      ParseIntExact(env[name], n);
    } else if ParseInt(env[name]) != 0 {
      ScanOfNumber(env[name], 0);
    }
  }

  lemma GetEnvSecondsIsSetting(env: Environment, name: string, min: int, fallback: int)
    requires 0 <= min && (min == 0 ==> fallback == 0)
    ensures IsSetting(env, name, min, INT_MAX, fallback, GetEnvSeconds(env, name, min, fallback))
  {
    if n :| InEnvironment(env, name, min, INT_MAX, n) {
      ParsedIsDenoted(env, name, min, INT_MAX, n);
    } else if name in env && ParseInt(env[name]) >= min && ParseInt(env[name]) != 0 {
      ParseIntExact(env[name], ParseInt(env[name]));
      assert InEnvironment(env, name, min, INT_MAX, ParseInt(env[name]));
    }
  }

  /** Each setting comes from its own variable, within its bounds, or is its documented default. */
  lemma SettingsAreRead(env: Environment)
    ensures var c := ReadConfig(env);
            && IsSetting(env, "REDIS_BROADCAST_INTERVAL", 1, INT_MAX, 1, c.interval)
            && IsSetting(env, "REDIS_BROADCAST_PODS_REFRESH", 1, INT_MAX, 5, c.refresh)
            && IsSetting(env, "REDIS_BROADCAST_PODS_TIMEOUT", 1, INT_MAX, 5, c.timeout)
            && IsSetting(env, "REDIS_BROADCAST_PODS_MAX_AGE", 0, INT_MAX, 0, c.maxAge)
    ensures IsSetting(env, "REDIS_BROADCAST_PORT", 1, 65535, 63000, GetPort(env))
  {
    GetEnvSecondsIsSetting(env, "REDIS_BROADCAST_INTERVAL", 1, 1);
    GetEnvSecondsIsSetting(env, "REDIS_BROADCAST_PODS_REFRESH", 1, 5);
    GetEnvSecondsIsSetting(env, "REDIS_BROADCAST_PODS_TIMEOUT", 1, 5);
    GetEnvSecondsIsSetting(env, "REDIS_BROADCAST_PODS_MAX_AGE", 0, 0);
    GetPortIsSetting(env);
  }

  lemma GetPortIsSetting(env: Environment)
    ensures IsSetting(env, "REDIS_BROADCAST_PORT", 1, 65535, 63000, GetPort(env))
  {
    var name := "REDIS_BROADCAST_PORT";
    if n :| InEnvironment(env, name, 1, 65535, n) {
      ParsedIsDenoted(env, name, 1, 65535, n);
    } else if name in env && 0 < ParseInt(env[name]) <= 65535 {
      ParseIntExact(env[name], ParseInt(env[name]));
      assert InEnvironment(env, name, 1, 65535, ParseInt(env[name]));
    }
  }
}
