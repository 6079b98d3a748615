/** The names of migration files: a version, an underscore, a name, a direction. */
module MigrationNames {
  import opened Common

  const MAX_INT64 := 0x7FFF_FFFF_FFFF_FFFF

  datatype Parsed = NoMatch | Overflow | Parsed(version: int, name: string, up: bool)

  predicate IsDigit(c: char) { '0' <= c <= '9' }

  predicate NameChar(c: char) { IsDigit(c) || 'a' <= c <= 'z' || 'A' <= c <= 'Z' || c == '_' }

  predicate AllDigits(s: string) { forall i | 0 <= i < |s| :: IsDigit(s[i]) }

  predicate NameOk(s: string) { s != "" && forall i | 0 <= i < |s| :: NameChar(s[i]) }

  function Suffix(up: bool): string { if up then ".up.sql" else ".down.sql" }

  const DIGITS := "0123456789"
  const LOWER := "abcdefghijklmnopqrstuvwxyz"
  const UPPER := "ABCDEFGHIJKLMNOPQRSTUVWXYZ"

  /** The characters of a name. */
  predicate InName(c: char) { c in LOWER || c in UPPER || c in DIGITS || c == '_' }

  /** What the pattern of file names accepts, and with which groups. */
  predicate Matches(base: string, digits: string, name: string, up: bool) {
    && digits != "" && (forall i | 0 <= i < |digits| :: digits[i] in DIGITS)
    && name != "" && (forall i | 0 <= i < |name| :: InName(name[i]))
    && base == digits + "_" + name + if up then ".up.sql" else ".down.sql"
  }

  function Value(digits: string): nat
    requires AllDigits(digits)
  {
    if digits == "" then 0 else 10 * Value(digits[..|digits| - 1]) + (digits[|digits| - 1] - '0') as int
  }

  /** A version is a 64-bit number. */
  function Interpret(digits: string, name: string, up: bool): Parsed
    requires AllDigits(digits)
  {
    if Value(digits) > MAX_INT64 then Overflow else Parsed(Value(digits), name, up)
  }

  /** The length of the leading run of digits. */
  function DigitRun(s: string): (n: nat)
    ensures n <= |s| && AllDigits(s[..n]) && (n < |s| ==> !IsDigit(s[n]))
  {
    if s == "" || !IsDigit(s[0]) then 0
    else
      assert forall i | 1 <= i < 1 + DigitRun(s[1..]) :: s[i] == s[1..][..DigitRun(s[1..])][i - 1];
      1 + DigitRun(s[1..])
  }

  /** The name before a suffix, if the rest has that shape. */
  function Before(rest: string, suffix: string): Option<string> {
    var n := |rest| - |suffix|;
    if n > 0 && rest[n..] == suffix && NameOk(rest[..n]) then Some(rest[..n]) else None
  }

  function ParseName(base: string): Parsed {
    var d := DigitRun(base);
    if d == 0 || d == |base| || base[d] != '_' then NoMatch
    else
      var rest := base[d + 1..];
      if Before(rest, Suffix(true)).Some? then Interpret(base[..d], Before(rest, Suffix(true)).value, true)
      else if Before(rest, Suffix(false)).Some? then Interpret(base[..d], Before(rest, Suffix(false)).value, false)
      else NoMatch
  }

  /** The run of digits before an underscore is the whole run. */
  lemma RunEnds(digits: string, tail: string)
    requires AllDigits(digits)
    ensures DigitRun(digits + "_" + tail) == |digits|
  {
    var s := digits + "_" + tail;
    var n := DigitRun(s);
    assert s[|digits|] == '_';
    assert n > |digits| ==> IsDigit(s[..n][|digits|]);
  }

  lemma LowerIs(c: char)
    ensures 'a' <= c <= 'z' <==> c in LOWER
  {
    if 'a' <= c <= 'z' { assert LOWER[(c - 'a') as int] == c; }
  }

  lemma UpperIs(c: char)
    ensures 'A' <= c <= 'Z' <==> c in UPPER
  {
    if 'A' <= c <= 'Z' { assert UPPER[(c - 'A') as int] == c; }
  }

  lemma NameCharIs(c: char)
    ensures NameChar(c) <==> InName(c)
  {
    LowerIs(c);
    UpperIs(c);
    DigitIs(c);
  }

  /** The character classes are the listed ones. */
  lemma PatternIs(digits: string, name: string)
    ensures AllDigits(digits) <==> forall i | 0 <= i < |digits| :: digits[i] in DIGITS
    ensures NameOk(name) <==> name != "" && forall i | 0 <= i < |name| :: InName(name[i])
  {
    forall c: char ensures IsDigit(c) <==> c in DIGITS { DigitIs(c); }
    forall c: char ensures NameChar(c) <==> InName(c) { NameCharIs(c); }
  }

  lemma DigitIs(c: char)
    ensures IsDigit(c) <==> c in DIGITS
  {
  }

  lemma BeforeOwnSuffix(name: string, up: bool)
    requires NameOk(name)
    ensures Before(name + Suffix(up), Suffix(up)) == Some(name)
  {
    var rest := name + Suffix(up);
    assert rest[|name|..] == Suffix(up) && rest[..|name|] == name;
  }

  /** A rest that ends in one direction does not end in the other. */
  lemma BeforeOtherSuffix(name: string)
    ensures Before(name + Suffix(false), Suffix(true)).None?
  {
    var rest, n := name + Suffix(false), |name| + |Suffix(false)| - |Suffix(true)|;
    assert rest[n + 2] == 'n' && Suffix(true)[2] == 'p';
    assert rest[n..][2] == rest[n + 2];
  }

  /** Every way to match a name is the way it is read. */
  lemma MatchIsRead(base: string, digits: string, name: string, up: bool)
    requires Matches(base, digits, name, up)
    ensures AllDigits(digits) && ParseName(base) == Interpret(digits, name, up)
  {
    PatternIs(digits, name);
    var tail := name + Suffix(up);
    Reassociate(digits, name, Suffix(up));
    RunEnds(digits, tail);
    assert base[..|digits|] == digits && base[|digits| + 1..] == tail;
    BeforeOwnSuffix(name, up);
    if !up { BeforeOtherSuffix(name); }
  }

  /** A name is refused exactly when it does not match; otherwise its one match is read. */
  lemma NamesAreRead(base: string)
    ensures ParseName(base).NoMatch? <==> forall d, n, up :: !Matches(base, d, n, up)
    ensures forall d, n, up | Matches(base, d, n, up) :: AllDigits(d) && ParseName(base) == Interpret(d, n, up)
  {
    forall d, n, up | Matches(base, d, n, up) ensures AllDigits(d) && ParseName(base) == Interpret(d, n, up) {
      MatchIsRead(base, d, n, up);
    }
    if !ParseName(base).NoMatch? { ReadIsMatch(base); }
  }

  lemma BeforeSplits(rest: string, suffix: string)
    requires Before(rest, suffix).Some?
    ensures NameOk(Before(rest, suffix).value) && rest == Before(rest, suffix).value + suffix
  {
  }

  lemma Glue(base: string, d: nat, tail: string)
    requires d < |base| && base[d] == '_' && base[d + 1..] == tail
    ensures base == base[..d] + "_" + tail
  {
  }

  lemma ReadIsMatch(base: string)
    requires !ParseName(base).NoMatch?
    ensures exists d, n, up :: Matches(base, d, n, up)
  {
    var d := DigitRun(base);
    var rest, up := base[d + 1..], Before(base[d + 1..], Suffix(true)).Some?;
    var name := Before(rest, Suffix(up)).value;
    BeforeSplits(rest, Suffix(up));
    Glue(base, d, name + Suffix(up));
    Reassociate(base[..d], name, Suffix(up));
    PatternIs(base[..d], name);
    assert Matches(base, base[..d], name, up);
  }

  // --------------------------------------------------------------- writing a name

  /** A number in decimal notation. */
  function Decimal(n: nat): string {
    (if n < 10 then "" else Decimal(n / 10)) + [DIGITS[n % 10]]
  }

  lemma DigitValue(d: nat)
    requires d < 10
    ensures IsDigit(DIGITS[d]) && (DIGITS[d] - '0') as int == d
  {
  }

  function Zeros(k: nat): string { if k == 0 then "" else Zeros(k - 1) + "0" }

  lemma {:induction false} ZerosAreNothing(k: nat)
    ensures AllDigits(Zeros(k)) && Value(Zeros(k)) == 0
  {
    if k > 0 {
      ZerosAreNothing(k - 1);
      OneMoreDigit(Zeros(k - 1), '0');
    }
  }

  lemma OneMoreDigit(s: string, c: char)
    requires AllDigits(s) && IsDigit(c)
    ensures AllDigits(s + [c]) && Value(s + [c]) == 10 * Value(s) + (c - '0') as int
  {
    assert (s + [c])[..|s|] == s;
  }

  lemma {:induction false} DecimalIsRead(k: nat, n: nat)
    ensures AllDigits(Zeros(k) + Decimal(n)) && Value(Zeros(k) + Decimal(n)) == n
    decreases n
  {
    var c := DIGITS[n % 10];
    DigitValue(n % 10);
    if n < 10 {
      ZerosAreNothing(k);
      OneMoreDigit(Zeros(k), c);
      assert Zeros(k) + Decimal(n) == Zeros(k) + [c];
    } else {
      DecimalIsRead(k, n / 10);
      OneMoreDigit(Zeros(k) + Decimal(n / 10), c);
      assert Zeros(k) + Decimal(n) == Zeros(k) + Decimal(n / 10) + [c];
    }
  }

  /** A number written in decimal, padded with any zeros, comes back unless 64 bits cannot hold it. */
  lemma WrittenIsRead(base: string, k: nat, n: nat, name: string, up: bool)
    requires Matches(base, Zeros(k) + Decimal(n), name, up)
    ensures ParseName(base) == if n <= 9_223_372_036_854_775_807 then Parsed(n, name, up) else Overflow
  {
    DecimalIsRead(k, n);
    MatchIsRead(base, Zeros(k) + Decimal(n), name, up);
  }

  lemma Reassociate(a: string, b: string, c: string)
    ensures a + "_" + (b + c) == a + "_" + b + c
  {
  }
}
