/**
 * The two JavaScript number conversions the service relies on: the global
 * `parseInt` called without a radix (ECMA-262, section 19.2.5) and
 * `Number.prototype.toString` applied to an integer. Numbers are modelled as
 * mathematical integers, with NaN as a separate constructor.
 */
module JsNumbers {

  /** A number produced by `parseInt`: NaN or an integer. */
  datatype Number = NaN | Num(value: int)

  /** `isNaN(n) ? 0 : n`, the guard the parser applies to every parsed weight. */
  function OrZero(n: Number): int
  {
    match n
    case NaN => 0
    case Num(v) => v
  }

  function Pow(b: nat, e: nat): (r: nat)
    ensures b > 0 ==> r > 0
  {
    if e == 0 then 1 else b * Pow(b, e - 1)
  }

  lemma {:induction false} PowMonotone(b: nat, e1: nat, e2: nat)
    requires b > 0 && e1 <= e2
    ensures Pow(b, e1) <= Pow(b, e2)
  {
    if e1 < e2 {
      PowMonotone(b, e1, e2 - 1);
      assert Pow(b, e2) == b * Pow(b, e2 - 1);
    }
  }

  /** WhiteSpace and LineTerminator code points of ECMA-262: what `parseInt` skips at the front. */
  predicate IsWhiteSpace(c: char)
  {
    var n := c as int;
    n == 0x09 || n == 0x0A || n == 0x0B || n == 0x0C || n == 0x0D || n == 0x20
    || n == 0xA0 || n == 0x1680 || (0x2000 <= n <= 0x200A)
    || n == 0x2028 || n == 0x2029 || n == 0x202F || n == 0x205F || n == 0x3000 || n == 0xFEFF
  }

  predicate IsDecimalDigit(c: char) { '0' <= c <= '9' }

  predicate AllDecimalDigits(s: string)
  {
    forall i :: 0 <= i < |s| ==> IsDecimalDigit(s[i])
  }

  /** The value of `c` as a digit in radix 36, or 36 for a character that is no digit at all. */
  function DigitValue(c: char): (d: nat)
    ensures d <= 36
    ensures d < 10 <==> IsDecimalDigit(c)
    ensures IsDecimalDigit(c) ==> d == c as int - '0' as int
  {
    if '0' <= c <= '9' then c as int - '0' as int
    else if 'a' <= c <= 'z' then c as int - 'a' as int + 10
    else if 'A' <= c <= 'Z' then c as int - 'A' as int + 10
    else 36
  }

  predicate IsRadixDigit(c: char, radix: nat) { DigitValue(c) < radix }

  predicate AllRadixDigits(s: string, radix: nat)
  {
    forall i :: 0 <= i < |s| ==> IsRadixDigit(s[i], radix)
  }

  /** Drops the leading white space: exactly the white prefix goes, and what is left does not start with white space. */
  function TrimStart(s: string): (r: string)
    ensures |r| <= |s| && r == s[|s| - |r|..]
    ensures r == [] || !IsWhiteSpace(r[0])
    ensures forall i :: 0 <= i < |s| - |r| ==> IsWhiteSpace(s[i])
  {
    if s != [] && IsWhiteSpace(s[0]) then TrimStart(s[1..]) else s
  }

  /** The length of the longest prefix of `s` made of digits of `radix`. */
  function DigitRun(s: string, radix: nat): (n: nat)
    ensures n <= |s|
    ensures AllRadixDigits(s[..n], radix)
    ensures n < |s| ==> !IsRadixDigit(s[n], radix)
  {
    if s != [] && IsRadixDigit(s[0], radix) then 1 + DigitRun(s[1..], radix) else 0
  }

  /** The value of a run of digits, most significant first. */
  function DigitsValue(s: string, radix: nat): nat
    requires AllRadixDigits(s, radix)
  {
    if s == [] then 0
    else DigitsValue(s[..|s| - 1], radix) * radix + DigitValue(s[|s| - 1])
  }

  lemma {:induction false} DigitsValueBound(s: string, radix: nat)
    requires AllRadixDigits(s, radix)
    ensures DigitsValue(s, radix) < Pow(radix, |s|)
  {
    if s != [] {
      var init := s[..|s| - 1];
      assert AllRadixDigits(init, radix);
      DigitsValueBound(init, radix);
      var v, p, d := DigitsValue(init, radix), Pow(radix, |init|), DigitValue(s[|s| - 1]);
      assert d < radix;
      ShiftBound(v, p, d, radix);
      assert Pow(radix, |s|) == radix * p;
    }
  }

  lemma MulMonotone(a: nat, b: nat, c: nat)
    requires a <= b
    ensures a * c <= b * c
  {
  }

  /** Appending a digit `d < r` to a value below `p` stays below `p * r`. */
  lemma ShiftBound(v: nat, p: nat, d: nat, r: nat)
    requires v < p && d < r
    ensures v * r + d < p * r
  {
    MulMonotone(v + 1, p, r);
    assert (v + 1) * r == v * r + r;
  }

  /** What `parseInt` finds before its digits: the sign, the radix (16 after a `0x` or `0X` prefix) and the rest of the text. */
  datatype Scan = Scan(negative: bool, radix: nat, rest: string)

  function ScanPrefix(s: string): (sc: Scan)
    ensures sc.radix == 10 || sc.radix == 16
    ensures |sc.rest| + (if sc.negative then 1 else 0) + (if sc.radix == 16 then 2 else 0) <= |s|
  {
    ScanSign(TrimStart(s))
  }

  /** Reads one optional sign from text that starts after the white space. */
  function ScanSign(t: string): (sc: Scan)
    ensures sc.radix == 10 || sc.radix == 16
    ensures |sc.rest| + (if sc.negative then 1 else 0) + (if sc.radix == 16 then 2 else 0) <= |t|
  {
    if t != [] && (t[0] == '+' || t[0] == '-') then ScanRadix(t[0] == '-', t[1..])
    else ScanRadix(false, t)
  }

  /** Detects the `0x` or `0X` prefix that switches to radix 16. */
  function ScanRadix(negative: bool, u: string): (sc: Scan)
    ensures sc.negative == negative
    ensures sc.radix == 10 || sc.radix == 16
    ensures |sc.rest| + (if sc.radix == 16 then 2 else 0) <= |u|
  {
    if |u| >= 2 && u[0] == '0' && (u[1] == 'x' || u[1] == 'X') then Scan(negative, 16, u[2..])
    else Scan(negative, 10, u)
  }

  /**
   * The global `parseInt(s)` without a radix: leading white space is skipped,
   * one `+` or `-` is read, `0x`/`0X` switches to radix 16, and the longest run
   * of digits that follows is converted; no digit at all gives NaN.
   */
  function ParseInt(s: string): Number
  {
    ReadDigits(ScanPrefix(s))
  }

  /** The digits after the prefix: the longest run of digits of the radix, signed; none at all is `NaN`. */
  function ReadDigits(sc: Scan): Number
  {
    var end := DigitRun(sc.rest, sc.radix);
    if end == 0 then NaN
    else
      var v: int := DigitsValue(sc.rest[..end], sc.radix);
      Num(if sc.negative then -v else v)
  }

  /** A non-empty run of decimal digits is read whole, as its decimal value; leading zeros add nothing. */
  lemma ParseIntOfDigits(s: string)
    requires s != [] && AllDecimalDigits(s)
    ensures AllRadixDigits(s, 10)
    ensures ParseInt(s) == Num(DigitsValue(s, 10))
  {
    assert !IsWhiteSpace(s[0]);
    assert TrimStart(s) == s;
    assert ScanPrefix(s) == Scan(false, 10, s);
    assert AllRadixDigits(s, 10);
    assert DigitRun(s, 10) == |s|;
    assert s[..|s|] == s;
  }

  /** A `-` and a run of decimal digits is read as minus the digits' value. */
  lemma ParseIntOfNegative(s: string)
    requires |s| >= 2 && s[0] == '-' && AllDecimalDigits(s[1..])
    ensures AllRadixDigits(s[1..], 10)
    ensures ParseInt(s) == Num(-(DigitsValue(s[1..], 10) as int))
  {
    var digits := s[1..];
    assert !IsWhiteSpace(s[0]);
    assert TrimStart(s) == s;
    assert |digits| < 2 || !(digits[1] == 'x' || digits[1] == 'X') by {
      if |digits| >= 2 { assert IsDecimalDigit(digits[1]); }
    }
    assert ScanPrefix(s) == Scan(true, 10, digits);
    assert AllRadixDigits(digits, 10);
    assert DigitRun(digits, 10) == |digits|;
    assert digits[..|digits|] == digits;
  }

  /** Whatever text of at most seven characters `parseInt` reads, the result stays within [-999999, 9999999]. */
  lemma ParseIntBound(s: string)
    requires |s| <= 7
    ensures ParseInt(s).Num? ==> -999999 <= ParseInt(s).value <= 9999999
  {
    var sc := ScanPrefix(s);
    var end := DigitRun(sc.rest, sc.radix);
    if end > 0 {
      var digits := sc.rest[..end];
      DigitsValueBound(digits, sc.radix);
      var cap: nat := if sc.negative then (if sc.radix == 16 then 4 else 6) else (if sc.radix == 16 then 5 else 7);
      PowMonotone(sc.radix, end, cap);
      assert Pow(16, 4) == 65536;
      assert Pow(16, 5) == 1048576;
      assert Pow(10, 6) == 1000000;
      assert Pow(10, 7) == 10000000;
    }
  }

  function DigitChar(d: nat): (c: char)
    requires d < 10
    ensures IsDecimalDigit(c) && DigitValue(c) == d
  {
    ('0' as int + d) as char
  }

  /** `n.toString()` for a non-negative integer: its shortest decimal spelling. */
  function NatToString(n: nat): (s: string)
    ensures s != [] && AllDecimalDigits(s)
  {
    if n < 10 then [DigitChar(n)] else NatToString(n / 10) + [DigitChar(n % 10)]
  }

  /** `n.toString()` for an integer (below 10^21 in magnitude, where JavaScript switches to exponent notation). */
  function IntToString(n: int): (s: string)
    ensures n < 0 ==> |s| >= 1 && s[0] == '-' && s[1..] == NatToString(-n)
    ensures n >= 0 ==> s == NatToString(n)
  {
    if n < 0 then "-" + NatToString(-n) else NatToString(n)
  }

  lemma {:induction false} NatToStringValue(n: nat)
    ensures AllRadixDigits(NatToString(n), 10)
    ensures DigitsValue(NatToString(n), 10) == n
  {
    var s := NatToString(n);
    if n >= 10 {
      NatToStringValue(n / 10);
      assert s[..|s| - 1] == NatToString(n / 10);
    }
  }

  lemma {:induction false} NatToStringLength(n: nat, k: nat)
    requires k >= 1 && n < Pow(10, k)
    ensures |NatToString(n)| <= k
  {
    if n >= 10 {
      assert Pow(10, k) == 10 * Pow(10, k - 1);
      assert Pow(10, 1) == 10;
      NatToStringLength(n / 10, k - 1);
    }
  }

  /** A run of `n` zero digits, as `padStart` puts in front of a number. */
  function Zeros(n: nat): (z: string)
    ensures |z| == n && AllDecimalDigits(z)
  {
    seq(n, _ => '0')
  }

  lemma {:induction false} ZerosValue(n: nat)
    ensures AllRadixDigits(Zeros(n), 10)
    ensures DigitsValue(Zeros(n), 10) == 0
  {
    if n > 0 {
      assert Zeros(n)[..n - 1] == Zeros(n - 1);
      ZerosValue(n - 1);
    }
  }

  /** Leading zeros do not change the value of a decimal digit run. */
  lemma {:induction false} LeadingZerosIgnored(n: nat, t: string)
    requires AllDecimalDigits(t)
    ensures AllRadixDigits(t, 10) && AllRadixDigits(Zeros(n) + t, 10)
    ensures DigitsValue(Zeros(n) + t, 10) == DigitsValue(t, 10)
  {
    var zt := Zeros(n) + t;
    assert AllRadixDigits(zt, 10) by {
      assert AllDecimalDigits(zt);
    }
    if t == [] {
      assert zt == Zeros(n);
      ZerosValue(n);
    } else {
      var m := |t| - 1;
      assert zt[..n + m] == Zeros(n) + t[..m];
      LeadingZerosIgnored(n, t[..m]);
    }
  }

  /** `parseInt` undoes `toString` on every integer: `parseInt(String(n)) === n`. */
  lemma ParseIntOfIntToString(n: int)
    ensures ParseInt(IntToString(n)) == Num(n)
  {
    var m: nat := if n < 0 then -n else n;
    var digits := NatToString(m);
    NatToStringValue(m);
    var s := IntToString(n);
    if n < 0 {
      assert s == "-" + digits && s[1..] == digits;
      ParseIntOfNegative(s);
    } else {
      ParseIntOfDigits(digits);
    }
  }
}
