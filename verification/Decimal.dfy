/** Decimal numbers as the C library prints and reads them: %d, %u, %lld and strtol in base 10
    (section 7.22.1.4 of C11). */
module Decimal {
  const LONG_MAX: int := 0x7fff_ffff_ffff_ffff
  const LONG_MIN: int := -0x8000_0000_0000_0000
  const INT_MAX: int := 0x7fff_ffff
  const INT_MIN: int := -0x8000_0000

  predicate IsDigit(c: char) { '0' <= c <= '9' }

  /** isspace in the C locale. */
  predicate IsSpace(c: char) { c == ' ' || '\t' <= c <= '\r' }

  function DigitChar(d: nat): (c: char)
    requires d < 10
    ensures IsDigit(c) && DigitValue(c) == d
  {
    '0' + d as char
  }

  function DigitValue(c: char): nat
    requires IsDigit(c)
  {
    (c - '0') as nat
  }

  predicate AllDigits(s: string) { forall i | 0 <= i < |s| :: IsDigit(s[i]) }

  function Value(s: string): nat
    requires AllDigits(s)
  {
    if s == "" then 0 else 10 * Value(s[..|s| - 1]) + DigitValue(s[|s| - 1])
  }

  /** The decimal digits of `n`, most significant first, without leading zeros. */
  function Digits(n: nat): (s: string)
    ensures s != "" && AllDigits(s)
  {
    if n < 10 then [DigitChar(n)] else Digits(n / 10) + [DigitChar(n % 10)]
  }

  function Print(v: int): (s: string)
    ensures s != "" && (forall i | 0 <= i < |s| :: IsDigit(s[i]) || s[i] == '-')
  {
    if v < 0 then "-" + Digits(-v) else Digits(v)
  }

  /** Reading the digits back gives the number. */
  lemma {:induction false} DigitsValue(n: nat)
    ensures Value(Digits(n)) == n
  {
    if n >= 10 {
      DigitsValue(n / 10);
      var s := Digits(n);
      assert s[..|s| - 1] == Digits(n / 10);
    }
  }

  function Pow10(k: nat): nat { if k == 0 then 1 else 10 * Pow10(k - 1) }

  /** A number below 10^k has at most k digits. */
  lemma {:induction false} DigitsLength(n: nat, k: nat)
    requires k > 0 && n < Pow10(k)
    ensures |Digits(n)| <= k
  {
    if n >= 10 {
      assert Pow10(1) == 10;
      DigitsLength(n / 10, k - 1);
    }
  }

  lemma PrintLengths(v: int)
    ensures 0 <= v < 0x1_0000_0000 ==> |Print(v)| <= 10
    ensures INT_MIN <= v <= INT_MAX ==> |Print(v)| <= 11
    ensures LONG_MIN <= v <= LONG_MAX ==> |Print(v)| <= 20
  {
    assert Pow10(10) == 10_000_000_000 by { PowTen(); }
    assert Pow10(19) == 10_000_000_000_000_000_000 by { PowNineteen(); }
    var n := if v < 0 then -v else v;
    if n < Pow10(10) { DigitsLength(n, 10); }
    if n < Pow10(19) { DigitsLength(n, 19); }
  }

  lemma PowTen()
    ensures Pow10(10) == 10_000_000_000
  {
    assert Pow10(2) == 100;
    assert Pow10(4) == 10_000;
    assert Pow10(6) == 1_000_000;
    assert Pow10(8) == 100_000_000;
  }

  lemma PowNineteen()
    ensures Pow10(19) == 10_000_000_000_000_000_000
  {
    PowTen();
    assert Pow10(12) == 1_000_000_000_000;
    assert Pow10(14) == 100_000_000_000_000;
    assert Pow10(16) == 10_000_000_000_000_000;
    assert Pow10(18) == 1_000_000_000_000_000_000;
  }

  // ---------------------------------------------------------------- strtol

  /** Length of the leading run of white space (digits). */
  function Spaces(s: string): (n: nat)
    ensures n <= |s| && (forall i | 0 <= i < n :: IsSpace(s[i])) && (n < |s| ==> !IsSpace(s[n]))
  {
    if s == "" || !IsSpace(s[0]) then 0 else 1 + Spaces(s[1..])
  }

  function DigitRun(s: string): (n: nat)
    ensures n <= |s| && AllDigits(s[..n]) && (n < |s| ==> !IsDigit(s[n]))
  {
    if s == "" || !IsDigit(s[0]) then 0 else 1 + DigitRun(s[1..])
  }

  function Clamp(v: int): int { if v > LONG_MAX then LONG_MAX else if v < LONG_MIN then LONG_MIN else v }

  /** Length of an optional sign. */
  function SignLength(s: string): nat { if s != "" && (s[0] == '-' || s[0] == '+') then 1 else 0 }

  function Signed(s: string, v: int): int { if s != "" && s[0] == '-' then -v else v }

  /** Value and number of characters consumed; nothing is consumed if there is no number. */
  function Strtol(s: string): (r: (int, nat))
    ensures LONG_MIN <= r.0 <= LONG_MAX && r.1 <= |s|
    ensures r.1 > 0 ==> IsDigit(s[r.1 - 1])
    ensures 0 < r.1 < |s| ==> !IsDigit(s[r.1])
  {
    var t := s[Spaces(s)..];
    var ds := t[SignLength(t)..];
    var n := DigitRun(ds);
    if n == 0 then (0, 0) else (Clamp(Signed(t, Value(ds[..n]))), Spaces(s) + SignLength(t) + n)
  }

  lemma DigitRunOf(ds: string, rest: string)
    requires AllDigits(ds) && (rest != "" ==> !IsDigit(rest[0]))
    ensures DigitRun(ds + rest) == |ds|
  {
    if ds == "" {
      assert ds + rest == rest;
    } else {
      assert (ds + rest)[1..] == ds[1..] + rest;
      DigitRunOf(ds[1..], rest);
    }
  }

  /** strtol reads back exactly what was printed and stops right after it. */
  lemma {:induction false} StrtolPrint(v: int, rest: string)
    requires LONG_MIN <= v <= LONG_MAX && (rest != "" ==> !IsDigit(rest[0]))
    ensures Strtol(Print(v) + rest) == (v, |Print(v)|)
  {
    var n := if v < 0 then -v else v;
    var ds, s := Digits(n), Print(v) + rest;
    DigitsValue(n);
    DigitRunOf(ds, rest);
    assert Spaces(s) == 0 && s[0..] == s;
    assert SignLength(s) == (if v < 0 then 1 else 0) && Signed(s, n) == v;
    assert s[SignLength(s)..] == ds + rest;
    assert (ds + rest)[..|ds|] == ds;
  }

  // ---------------------------------------------------------------- what these functions mean

  /** Positional notation: one more digit on the right is worth ten times less. */
  lemma DigitsPositional(n: nat, d: nat)
    requires d < 10
    ensures Digits(d) == [('0' as int + d) as char]
    ensures n > 0 ==> Digits(10 * n + d) == Digits(n) + [('0' as int + d) as char]
  {
  }

  lemma ValuePositional(ds: string, c: char)
    requires AllDigits(ds) && IsDigit(c)
    ensures AllDigits(ds + [c]) && Value(ds + [c]) == 10 * Value(ds) + (c as int - '0' as int)
  {
    assert (ds + [c])[..|ds|] == ds;
  }

  lemma PrintSign(v: int)
    ensures v < 0 ==> Print(v) == "-" + Print(-v)
    ensures v >= 0 ==> IsDigit(Print(v)[0])
  {
  }

  /** The six white-space characters of the C locale. */
  lemma SpaceChars(c: char)
    ensures IsSpace(c) <==> c in [' ', '\t', '\n', 11 as char, 12 as char, '\r']
  {
  }

  predicate AllSpaces(s: string) { forall i | 0 <= i < |s| :: IsSpace(s[i]) }

  predicate IsSign(s: string) { s == "" || s == "+" || s == "-" }

  lemma {:induction false} SpacesOf(sp: string, rest: string)
    requires AllSpaces(sp) && (rest != "" ==> !IsSpace(rest[0]))
    ensures Spaces(sp + rest) == |sp|
    decreases |sp|
  {
    if sp == "" {
      assert sp + rest == rest;
    } else {
      assert (sp + rest)[1..] == sp[1..] + rest;
      SpacesOf(sp[1..], rest);
    }
  }

  /** What comes after the white space: an optional sign and what is left of the text. */
  lemma {:induction false} AfterSpaces(sp: string, sign: string, rest: string)
    requires AllSpaces(sp) && IsSign(sign)
    requires sign == "" && rest != "" ==> !IsSpace(rest[0]) && rest[0] != '+' && rest[0] != '-'
    ensures var s := sp + sign + rest; var t := s[Spaces(s)..];
            && Spaces(s) == |sp| && t == sign + rest && SignLength(t) == |sign| && t[|sign|..] == rest
  {
    SpacesOf(sp, sign + rest);
    var s := sp + sign + rest;
    assert s == sp + (sign + rest);
    assert s[|sp|..] == sign + rest;
  }

  function WithSign(sign: string, n: int): int { if sign == "-" then -n else n }

  lemma {:induction false} SignedBy(sign: string, rest: string, n: int)
    requires IsSign(sign) && (rest != "" ==> rest[0] != '-')
    ensures Signed(sign + rest, n) == WithSign(sign, n)
  {
    if sign == "" { assert sign + rest == rest; }
  }

  lemma {:induction false} StrtolParts(s: string, a: nat, b: nat, ds: string, d: string)
    requires Spaces(s) == a && SignLength(s[a..]) == b && b <= |s| - a && s[a..][b..] == d
    requires DigitRun(d) == |ds| <= |d| && d[..|ds|] == ds && ds != "" && AllDigits(ds)
    ensures Strtol(s) == (Clamp(Signed(s[a..], Value(ds))), a + b + |ds|)
  {
    hide Value, Spaces, DigitRun, SignLength, Signed, Clamp;
  }

  lemma {:induction false} StrtolAfter(sp: string, sign: string, ds: string, d: string)
    requires AllSpaces(sp) && IsSign(sign) && ds != "" && AllDigits(ds)
    requires DigitRun(d) == |ds| <= |d| && d[..|ds|] == ds && IsDigit(d[0])
    ensures Strtol(sp + sign + d) == (Clamp(WithSign(sign, Value(ds))), |sp| + |sign| + |ds|)
  {
    hide Strtol, Value, Spaces, DigitRun, SignLength, Signed, Clamp, WithSign, AllSpaces, AllDigits, IsSign;
    AfterSpaces(sp, sign, d);
    SignedBy(sign, d, Value(ds));
    StrtolParts(sp + sign + d, |sp|, |sign|, ds, d);
  }

  /** strtol takes white space, one sign and all the digits, and clamps to 64 bits. */
  lemma {:induction false} StrtolReads(sp: string, sign: string, ds: string, rest: string)
    requires AllSpaces(sp) && IsSign(sign) && ds != "" && AllDigits(ds) && (rest != "" ==> !IsDigit(rest[0]))
    ensures Strtol(sp + sign + (ds + rest)) == (Clamp(WithSign(sign, Value(ds))), |sp| + |sign| + |ds|)
  {
    hide Strtol, Value, DigitRun, Clamp, WithSign, AllSpaces, IsSign;
    DigitRunOf(ds, rest);
    assert (ds + rest)[..|ds|] == ds;
    StrtolAfter(sp, sign, ds, ds + rest);
  }

  lemma ClampMeans(v: int)
    ensures v > 9223372036854775807 ==> Clamp(v) == 9223372036854775807
    ensures v < -9223372036854775808 ==> Clamp(v) == -9223372036854775808
    ensures -9223372036854775808 <= v <= 9223372036854775807 ==> Clamp(v) == v
  {
  }

  /** ... and takes nothing where no digit follows. */
  lemma {:induction false} StrtolNothing(sp: string, sign: string, rest: string)
    requires AllSpaces(sp) && IsSign(sign) && (rest != "" ==> !IsDigit(rest[0]))
    requires sign == "" && rest != "" ==> !IsSpace(rest[0]) && rest[0] != '+' && rest[0] != '-'
    ensures Strtol(sp + sign + rest) == (0, 0)
  {
    hide Value, Spaces;
    AfterSpaces(sp, sign, rest);
  }
}
