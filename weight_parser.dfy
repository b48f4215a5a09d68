/**
 * `ScaleMonitor.parseWeight`: how a weight is read out of the text a scale
 * terminal sends back after a probe. The canonical frame is
 * `ST,GS,+,<7 digits>kg`; when no such frame is present, a legacy rule reads
 * seven characters found behind the first `99` of the upper-cased text; in
 * every other case the weight is 0. Nothing in it can throw, so the source's
 * `catch` branch is unreachable and has no counterpart here.
 */
module WeightParser {
  import opened Wrappers
  import opened JsNumbers

  /** The literal in front of the seven weight digits of a canonical frame. */
  const FramePrefix: string := "ST,GS,+,"
  /** The literal behind the seven weight digits. */
  const FrameUnit: string := "kg"

  /** The regular expression /ST,GS,\+,(\d{7})kg/ matches the 17 characters of `s` that start at `i`. */
  predicate PrimaryAt(s: string, i: nat)
  {
    i + 17 <= |s| && s[i..i + 8] == FramePrefix && AllDecimalDigits(s[i + 8..i + 15]) && s[i + 15..i + 17] == FrameUnit
  }

  /** The group the regular expression captures at `i`: the seven weight digits. */
  function Captured(s: string, i: nat): string
    requires i + 17 <= |s|
  {
    s[i + 8..i + 15]
  }

  /** The leftmost match at or after `from`, the one `String.prototype.match` reports. */
  function FindPrimary(s: string, from: nat): (r: Option<nat>)
    decreases |s| - from
    ensures r.Some? ==> from <= r.value && PrimaryAt(s, r.value)
    ensures r.Some? ==> forall j: nat :: from <= j < r.value ==> !PrimaryAt(s, j)
    ensures r.None? ==> forall j: nat :: from <= j ==> !PrimaryAt(s, j)
  {
    if from + 17 > |s| then None
    else if PrimaryAt(s, from) then Some(from)
    else FindPrimary(s, from + 1)
  }

  /** The two-character marker `99` starts at `i`. */
  predicate MarkerAt(s: string, i: nat)
  {
    i + 2 <= |s| && s[i] == '9' && s[i + 1] == '9'
  }

  /** `s.indexOf('99')` searched from `from` on; None stands for -1. */
  function IndexOfMarker(s: string, from: nat): (r: Option<nat>)
    decreases |s| - from
    ensures r.Some? ==> from <= r.value && MarkerAt(s, r.value)
    ensures r.Some? ==> forall j: nat :: from <= j < r.value ==> !MarkerAt(s, j)
    ensures r.None? ==> forall j: nat :: from <= j ==> !MarkerAt(s, j)
  {
    if from + 2 > |s| then None
    else if MarkerAt(s, from) then Some(from)
    else IndexOfMarker(s, from + 1)
  }

  /** `toUpperCase` on one character of the ASCII range: only `a`..`z` change. */
  function UpperChar(c: char): (u: char)
    ensures 'a' <= c <= 'z' ==> 'A' <= u <= 'Z' && u as int == c as int - 32
    ensures !('a' <= c <= 'z') ==> u == c
  {
    if 'a' <= c <= 'z' then (c as int - 32) as char else c
  }

  function ToUpper(s: string): (r: string)
    ensures |r| == |s|
    ensures forall i :: 0 <= i < |s| ==> r[i] == UpperChar(s[i])
  {
    seq(|s|, i requires 0 <= i < |s| => UpperChar(s[i]))
  }

  lemma UpperSlice(s: string, a: nat, b: nat)
    requires a <= b <= |s|
    ensures ToUpper(s)[a..b] == ToUpper(s[a..b])
  {
    var u, v := ToUpper(s)[a..b], ToUpper(s[a..b]);
    assert |u| == |v|;
    forall i | 0 <= i < |u|
      ensures u[i] == v[i]
    {
      assert u[i] == UpperChar(s[a + i]);
    }
  }

  function Min(a: int, b: int): int { if a <= b then a else b }

  function Clamp(x: int, len: nat): (r: nat)
    ensures r <= len
  {
    if x < 0 then 0 else if x > len then len else x
  }

  /** `s.substring(start, end)`: both ends are clamped to [0, |s|] and swapped when out of order. */
  function Substring(s: string, start: int, end: int): (r: string)
    ensures 0 <= start <= end ==> r == s[Min(start, |s|)..Min(end, |s|)]
    ensures |r| <= if start <= end then end - start else start - end
  {
    var a, b := Clamp(start, |s|), Clamp(end, |s|);
    if a <= b then s[a..b] else s[b..a]
  }

  /** The legacy rule, applied to the upper-cased text: `parseInt` of the seven characters that start three places after the first `99`. */
  function FallbackWeight(upper: string): (w: int)
    ensures -999999 <= w <= 9999999
  {
    match IndexOfMarker(upper, 0)
    case Some(k) =>
      ParseIntBound(Substring(upper, k + 3, k + 10));
      OrZero(ParseInt(Substring(upper, k + 3, k + 10)))
    case None => 0
  }

  /** `parseWeight(response)`; 0 stands both for "no reading" and for a frame that reads zero. */
  function ParseWeight(response: string): (w: int)
    ensures -999999 <= w <= 9999999
  {
    match FindPrimary(response, 0)
    case Some(i) =>
      ParseIntBound(Captured(response, i));
      OrZero(ParseInt(Captured(response, i)))
    case None => FallbackWeight(ToUpper(response))
  }

  /** One octet of a `Buffer`. */
  newtype Byte = b: int | 0 <= b < 256

  /** `data.toString('ascii')`: every byte with its high bit cleared, read as one character. */
  function AsciiDecode(data: seq<Byte>): (s: string)
    ensures |s| == |data|
    ensures forall i :: 0 <= i < |s| ==> s[i] as int < 128 && s[i] as int == data[i] as int % 128
  {
    seq(|data|, i requires 0 <= i < |data| => (data[i] as int % 128) as char)
  }

  // ---------------------------------------------------------------------------
  // The canonical frame

  lemma LeftmostIsFound(s: string, i: nat)
    requires PrimaryAt(s, i)
    requires forall j: nat :: j < i ==> !PrimaryAt(s, j)
    ensures FindPrimary(s, 0) == Some(i)
  {
  }

  /**
   * When the leftmost match of the canonical frame is at `i`, the weight is the
   * decimal value of its seven digits, leading zeros honoured, and lies in [0, 9999999].
   */
  lemma PrimaryRule(s: string, i: nat)
    requires PrimaryAt(s, i)
    requires forall j: nat :: j < i ==> !PrimaryAt(s, j)
    ensures AllRadixDigits(Captured(s, i), 10)
    ensures ParseWeight(s) == DigitsValue(Captured(s, i), 10)
    ensures 0 <= ParseWeight(s) <= 9999999
  {
    LeftmostIsFound(s, i);
    ParseIntOfDigits(Captured(s, i));
    DigitsValueBound(Captured(s, i), 10);
    assert Pow(10, 7) == 10000000;
  }

  /**
   * A canonical frame anywhere in the text decides the weight: the leftmost one
   * (at or before it) is read, so the `99` rule is never consulted.
   */
  lemma PrimaryShadowsFallback(s: string, i: nat)
    requires PrimaryAt(s, i)
    ensures FindPrimary(s, 0).Some? && FindPrimary(s, 0).value <= i
    ensures AllRadixDigits(Captured(s, FindPrimary(s, 0).value), 10)
    ensures ParseWeight(s) == DigitsValue(Captured(s, FindPrimary(s, 0).value), 10)
  {
    var j := FindPrimary(s, 0).value;
    PrimaryRule(s, j);
  }

  lemma PrimaryAtExtended(s: string, t: string, k: nat)
    requires k + 17 <= |s|
    ensures PrimaryAt(s + t, k) == PrimaryAt(s, k)
    ensures Captured(s + t, k) == Captured(s, k)
  {
    var st := s + t;
    assert st[k..k + 8] == s[k..k + 8];
    assert st[k + 8..k + 15] == s[k + 8..k + 15];
    assert st[k + 15..k + 17] == s[k + 15..k + 17];
  }

  /** Once the text holds a canonical frame, whatever follows it in the same chunk changes nothing. */
  lemma TrailingTextIgnored(s: string, t: string, i: nat)
    requires PrimaryAt(s, i)
    ensures ParseWeight(s + t) == ParseWeight(s)
  {
    var j := FindPrimary(s, 0).value;
    PrimaryAtExtended(s, t, j);
    forall k: nat | k < j
      ensures !PrimaryAt(s + t, k)
    {
      PrimaryAtExtended(s, t, k);
    }
    PrimaryRule(s, j);
    PrimaryRule(s + t, j);
  }

  // ---------------------------------------------------------------------------
  // The `99` rule

  lemma MarkerSurvivesUpper(s: string, j: nat)
    ensures MarkerAt(ToUpper(s), j) <==> MarkerAt(s, j)
  {
  }

  lemma UpperChars(c: char)
    ensures IsWhiteSpace(UpperChar(c)) == IsWhiteSpace(c)
    ensures DigitValue(UpperChar(c)) == DigitValue(c)
    ensures (UpperChar(c) == '+') == (c == '+') && (UpperChar(c) == '-') == (c == '-')
    ensures (UpperChar(c) == '0') == (c == '0')
    ensures (UpperChar(c) == 'x' || UpperChar(c) == 'X') == (c == 'x' || c == 'X')
  {
  }

  lemma {:induction false} UpperTrimStart(t: string)
    ensures TrimStart(ToUpper(t)) == ToUpper(TrimStart(t))
  {
    if t != [] {
      var u := ToUpper(t);
      UpperChars(t[0]);
      assert u[0] == UpperChar(t[0]);
      assert u[1..] == ToUpper(t[1..]);
      if IsWhiteSpace(t[0]) {
        assert TrimStart(u) == TrimStart(u[1..]);
        UpperTrimStart(t[1..]);
      } else {
        assert TrimStart(u) == u;
      }
    }
  }

  lemma {:induction false} UpperDigitRun(t: string, radix: nat)
    ensures DigitRun(ToUpper(t), radix) == DigitRun(t, radix)
  {
    if t != [] {
      assert DigitValue(UpperChar(t[0])) == DigitValue(t[0]);
      assert ToUpper(t)[1..] == ToUpper(t[1..]);
      UpperDigitRun(t[1..], radix);
    }
  }

  lemma {:induction false} UpperDigitsValue(t: string, radix: nat)
    requires AllRadixDigits(t, radix)
    ensures AllRadixDigits(ToUpper(t), radix)
    ensures DigitsValue(ToUpper(t), radix) == DigitsValue(t, radix)
  {
    forall i | 0 <= i < |t|
      ensures IsRadixDigit(ToUpper(t)[i], radix)
    {
      assert DigitValue(UpperChar(t[i])) == DigitValue(t[i]);
    }
    if t != [] {
      var n := |t| - 1;
      assert ToUpper(t)[..n] == ToUpper(t[..n]);
      assert DigitValue(UpperChar(t[n])) == DigitValue(t[n]);
      UpperDigitsValue(t[..n], radix);
    }
  }

  lemma UpperScanRadix(negative: bool, u: string)
    ensures ScanRadix(negative, ToUpper(u)) == ScanRadix(negative, u).(rest := ToUpper(ScanRadix(negative, u).rest))
  {
    if |u| >= 2 {
      UpperChars(u[0]);
      UpperChars(u[1]);
      UpperSlice(u, 2, |u|);
    }
  }

  lemma UpperScanSign(t: string)
    ensures ScanSign(ToUpper(t)) == ScanSign(t).(rest := ToUpper(ScanSign(t).rest))
  {
    if t != [] {
      UpperChars(t[0]);
      UpperSlice(t, 1, |t|);
      UpperScanRadix(t[0] == '-', t[1..]);
    }
    UpperScanRadix(false, t);
  }

  lemma UpperScan(t: string)
    ensures ScanPrefix(ToUpper(t)) == ScanPrefix(t).(rest := ToUpper(ScanPrefix(t).rest))
  {
    UpperTrimStart(t);
    UpperScanSign(TrimStart(t));
  }

  /** Upper-casing never changes what `parseInt` reads: hex digits and the `x` of `0x` are read either way. */
  lemma ParseIntIgnoresCase(t: string)
    ensures ParseInt(ToUpper(t)) == ParseInt(t)
  {
    UpperScan(t);
    UpperReadDigits(ScanPrefix(t));
  }

  lemma UpperReadDigits(sc: Scan)
    ensures ReadDigits(sc.(rest := ToUpper(sc.rest))) == ReadDigits(sc)
  {
    UpperDigitRun(sc.rest, sc.radix);
    var end := DigitRun(sc.rest, sc.radix);
    if end > 0 {
      UpperSlice(sc.rest, 0, end);
      UpperDigitsValue(sc.rest[..end], sc.radix);
    }
  }

  /**
   * Without a canonical frame, and with the first `99` at `k`, the weight is
   * `parseInt` of the characters `k + 3` up to `k + 10`, cut off at the end of
   * the text, or 0 when they hold no number; the character right behind the
   * marker is skipped.
   */
  lemma FallbackRule(s: string, k: nat)
    requires forall j: nat :: !PrimaryAt(s, j)
    requires MarkerAt(s, k) && forall j: nat :: j < k ==> !MarkerAt(s, j)
    ensures ParseWeight(s) == OrZero(ParseInt(s[Min(k + 3, |s|)..Min(k + 10, |s|)]))
  {
    assert FindPrimary(s, 0).None?;
    var u := ToUpper(s);
    MarkerSurvivesUpper(s, k);
    forall j: nat | j < k
      ensures !MarkerAt(u, j)
    {
      MarkerSurvivesUpper(s, j);
    }
    assert IndexOfMarker(u, 0) == Some(k);
    var a, b := Min(k + 3, |s|), Min(k + 10, |s|);
    assert Substring(u, k + 3, k + 10) == u[a..b];
    UpperSlice(s, a, b);
    ParseIntIgnoresCase(s[a..b]);
  }

  /** Neither a canonical frame nor a `99` anywhere: the weight is 0, and no error escapes. */
  lemma NoRuleMatches(s: string)
    requires forall j: nat :: !PrimaryAt(s, j)
    requires forall j: nat :: !MarkerAt(s, j)
    ensures ParseWeight(s) == 0
  {
    assert FindPrimary(s, 0).None?;
    var u := ToUpper(s);
    var r := IndexOfMarker(u, 0);
    if r.Some? {
      MarkerSurvivesUpper(s, r.value);
      assert false;
    }
  }

  /** Whatever a terminal sends, the weight lies in [-999999, 9999999]; only the `99` rule can give a negative one. */
  lemma WeightBound(s: string)
    ensures -999999 <= ParseWeight(s) <= 9999999
    ensures ParseWeight(s) < 0 ==> FindPrimary(s, 0).None?
  {
    match FindPrimary(s, 0)
    case Some(i) =>
      PrimaryRule(s, i);
    case None =>
      var u := ToUpper(s);
      match IndexOfMarker(u, 0)
      case Some(k) =>
        ParseIntBound(Substring(u, k + 3, k + 10));
      case None =>
  }

  // ---------------------------------------------------------------------------
  // Sample frames

  /** A text that opens with a canonical frame reads as the value of that frame's seven digits. */
  lemma LeadingFrame(digits: string, rest: string)
    requires |digits| == 7 && AllDecimalDigits(digits)
    ensures AllRadixDigits(digits, 10)
    ensures ParseWeight(FramePrefix + digits + FrameUnit + rest) == DigitsValue(digits, 10)
  {
    var s := FramePrefix + digits + FrameUnit + rest;
    assert s[0..8] == FramePrefix;
    assert s[8..15] == digits;
    assert s[15..17] == FrameUnit;
    PrimaryRule(s, 0);
  }

  lemma FourFiveSixSeven()
    ensures AllRadixDigits(Zeros(3) + NatToString(4567), 10)
    ensures Zeros(3) + NatToString(4567) == "0004567"
    ensures DigitsValue(Zeros(3) + NatToString(4567), 10) == 4567
  {
    assert NatToString(4567) == "4567";
    LeadingZerosIgnored(3, NatToString(4567));
    NatToStringValue(4567);
  }

  /** The canonical reply `ST,GS,+,0004567kg` reads as 4567 kg. */
  lemma CanonicalFrameExample(reply: string)
    requires reply == "ST,GS,+,0004567kg\r\n"
    ensures ParseWeight(reply) == 4567
  {
    FourFiveSixSeven();
    assert reply == FramePrefix + "0004567" + FrameUnit + "\r\n";
    LeadingFrame("0004567", "\r\n");
  }

  /** A frame that reads `0000000` gives 0, the same value as no reading at all. */
  lemma ZeroFrameExample(reply: string)
    requires reply == "ST,GS,+,0000000kg\r\n"
    ensures ParseWeight(reply) == 0
  {
    ZerosValue(7);
    assert Zeros(7) == "0000000";
    assert reply == FramePrefix + Zeros(7) + FrameUnit + "\r\n";
    LeadingFrame(Zeros(7), "\r\n");
  }

  /** A reply that matches neither rule reads as 0. */
  lemma GarbageExample(reply: string)
    requires reply == "garbage\r\n"
    ensures ParseWeight(reply) == 0
  {
    assert |reply| == 9;
    forall j: nat
      ensures !MarkerAt(reply, j)
    {
      if j + 2 <= |reply| {
        assert reply[j] != '9';
      }
    }
    NoRuleMatches(reply);
  }

  /** A text shorter than a frame that opens with `99` is read by the `99` rule from its fourth character on. */
  lemma LeadingMarker(s: string)
    requires |s| < 17 && MarkerAt(s, 0)
    ensures 3 <= |s| ==> ParseWeight(s) == OrZero(ParseInt(s[3..Min(10, |s|)]))
  {
    forall j: nat
      ensures !PrimaryAt(s, j)
    {
    }
    FallbackRule(s, 0);
  }

  /**
   * The `99` rule hands its text to `parseInt` as it is, so a `-` there gives a
   * negative weight: a text shorter than a frame made of `99`, any character,
   * `-` and digits reads as minus the first six of those digits.
   */
  lemma NegativeFallback(s: string)
    requires 5 <= |s| < 17 && MarkerAt(s, 0) && s[3] == '-' && AllDecimalDigits(s[4..])
    ensures AllRadixDigits(s[4..Min(10, |s|)], 10)
    ensures ParseWeight(s) == -(DigitsValue(s[4..Min(10, |s|)], 10) as int)
  {
    var m := Min(10, |s|);
    assert s[4..m] == s[4..][..m - 4];
    LeadingMarker(s);
    assert s[3..m][1..] == s[4..m];
    ParseIntOfNegative(s[3..m]);
  }
}
