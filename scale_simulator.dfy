/**
 * `ScaleSimulator.generateWeight` and `generateResponse`: the reply a simulated
 * terminal sends back for every probe. The random draw is a parameter: it is the
 * integer `Math.floor(Math.random() * (maxWeight - minWeight + 1))`, which lies
 * in [0, maxWeight - minWeight].
 */
module Simulator {
  import opened JsNumbers
  import opened WeightParser

  const MinWeight: nat := 1000
  const MaxWeight: nat := 9999
  /** The width `padStart` brings the weight to. */
  const WeightWidth: nat := 7

  predicate ValidDraw(draw: int) { 0 <= draw <= MaxWeight - MinWeight }

  /** The weight a draw stands for: the draw plus `minWeight`, never outside [minWeight, maxWeight]. */
  function DrawnWeight(draw: int): (w: nat)
    requires ValidDraw(draw)
    ensures MinWeight <= w <= MaxWeight
  {
    draw + MinWeight
  }

  /** `s.padStart(width, '0')`. */
  function PadStart(s: string, width: nat): (r: string)
    ensures |r| == if |s| >= width then |s| else width
    ensures r == Zeros(|r| - |s|) + s
  {
    if |s| >= width then s else Zeros(width - |s|) + s
  }

  /** `generateWeight()`: the drawn weight in decimal, padded with zeros to seven characters. */
  function GenerateWeight(draw: int): (r: string)
    requires ValidDraw(draw)
    ensures |r| == WeightWidth && AllDecimalDigits(r)
  {
    assert Pow(10, 7) == 10000000;
    NatToStringLength(DrawnWeight(draw), 7);
    PadStart(NatToString(DrawnWeight(draw)), WeightWidth)
  }

  /** `generateResponse()`: the regular expression of `parseWeight` matches it at the start and captures the weight string. */
  function GenerateResponse(draw: int): (r: string)
    requires ValidDraw(draw)
    ensures |r| == 19 && PrimaryAt(r, 0) && Captured(r, 0) == GenerateWeight(draw)
  {
    var r := "ST,GS,+," + GenerateWeight(draw) + "kg\r\n";
    assert r[0..8] == FramePrefix && r[8..15] == GenerateWeight(draw) && r[15..17] == FrameUnit;
    r
  }

  /** A string of characters below 128 as the bytes that carry it: one byte per character. */
  function AsciiBytes(s: string): (bytes: seq<Byte>)
    requires forall i :: 0 <= i < |s| ==> s[i] as int < 128
    ensures |bytes| == |s|
  {
    seq(|s|, i requires 0 <= i < |s| => s[i] as int as Byte)
  }

  /** `socket.write(response)`: the reply is plain ASCII, so each character goes out as one byte. */
  function ResponseBytes(draw: int): (bytes: seq<Byte>)
    requires ValidDraw(draw)
    ensures |bytes| == |GenerateResponse(draw)|
  {
    ResponseIsAscii(draw);
    AsciiBytes(GenerateResponse(draw))
  }

  /** Decoding the bytes of an ASCII string as ASCII gives the string back. */
  lemma AsciiRoundTrip(s: string)
    requires forall i :: 0 <= i < |s| ==> s[i] as int < 128
    ensures AsciiDecode(AsciiBytes(s)) == s
  {
    var d := AsciiDecode(AsciiBytes(s));
    forall i | 0 <= i < |s|
      ensures d[i] == s[i]
    {
      assert AsciiBytes(s)[i] as int == s[i] as int;
    }
  }

  /**
   * The weight string is exactly seven decimal digits, and read as a decimal
   * number it is the drawn weight: the zero padding keeps the value.
   */
  lemma GeneratedWeightDigits(draw: int)
    requires ValidDraw(draw)
    ensures |GenerateWeight(draw)| == 7 && AllDecimalDigits(GenerateWeight(draw))
    ensures AllRadixDigits(GenerateWeight(draw), 10)
    ensures DigitsValue(GenerateWeight(draw), 10) == DrawnWeight(draw)
  {
    var w := DrawnWeight(draw);
    var digits := NatToString(w);
    assert Pow(10, 7) == 10000000;
    NatToStringLength(w, 7);
    NatToStringValue(w);
    LeadingZerosIgnored(7 - |digits|, digits);
  }

  /** The reply is a canonical frame, `ST,GS,+,` then seven digits then `kg`, followed by CR LF. */
  lemma ResponseIsCanonicalFrame(draw: int)
    requires ValidDraw(draw)
    ensures GenerateResponse(draw) == FramePrefix + GenerateWeight(draw) + FrameUnit + "\r\n"
    ensures |GenerateResponse(draw)| == 19 && PrimaryAt(GenerateResponse(draw), 0)
  {
    GeneratedWeightDigits(draw);
    var r := GenerateResponse(draw);
    assert r[0..8] == FramePrefix;
    assert r[8..15] == GenerateWeight(draw);
    assert r[15..17] == FrameUnit;
  }

  /** Round trip: `parseWeight(generateResponse())` is the generated weight, which is positive. */
  lemma ParseGeneratedResponse(draw: int)
    requires ValidDraw(draw)
    ensures ParseWeight(GenerateResponse(draw)) == DrawnWeight(draw)
    ensures ParseWeight(GenerateResponse(draw)) > 0
  {
    GeneratedWeightDigits(draw);
    ResponseIsCanonicalFrame(draw);
    LeadingFrame(GenerateWeight(draw), "\r\n");
  }

  /** Every character of the reply is ASCII. */
  lemma ResponseIsAscii(draw: int)
    requires ValidDraw(draw)
    ensures forall i :: 0 <= i < |GenerateResponse(draw)| ==> GenerateResponse(draw)[i] as int < 128
  {
    var r := GenerateResponse(draw);
    GeneratedWeightDigits(draw);
    ResponseIsCanonicalFrame(draw);
    forall i | 0 <= i < |r|
      ensures r[i] as int < 128
    {
      if 8 <= i < 15 {
        assert r[i] == GenerateWeight(draw)[i - 8];
      }
    }
  }

  /**
   * The same round trip over the wire: the bytes the simulator writes, decoded
   * as ASCII by the monitor, read as the generated weight.
   */
  lemma WireRoundTrip(draw: int)
    requires ValidDraw(draw)
    ensures AsciiDecode(ResponseBytes(draw)) == GenerateResponse(draw)
    ensures ParseWeight(AsciiDecode(ResponseBytes(draw))) == DrawnWeight(draw)
  {
    ResponseIsAscii(draw);
    AsciiRoundTrip(GenerateResponse(draw));
    ParseGeneratedResponse(draw);
  }
}
