/** Integer PCM framing of the voice session.

    Outbound: microphone samples in [-1, 1] are quantised to signed 16-bit
    integers, then reinterpreted as little-endian bytes, then turned into a
    binary string (one char per byte) that the browser's base64 encoder takes.
    Inbound: the base64 decoder's binary string is copied byte by byte into a
    byte array, which is reinterpreted as signed 16-bit little-endian samples.
    The base64 codec itself is not modelled here. */
module Pcm {

  datatype Option<T> = None | Some(value: T)

  type Byte = x: int | 0 <= x < 0x100
  type Int16 = x: int | -0x8000 <= x < 0x8000

  // ---------------------------------------------------------------------------
  // Capture quantisation (one Float32 sample to one Int16Array element)
  // ---------------------------------------------------------------------------

  /** Math.max(-1, Math.min(1, x)) */
  function Clamp(x: real): (r: real)
    ensures -1.0 <= r <= 1.0
    ensures x <= -1.0 ==> r == -1.0
    ensures 1.0 <= x ==> r == 1.0
    ensures -1.0 <= x <= 1.0 ==> r == x
  {
    if x < -1.0 then -1.0 else if 1.0 < x then 1.0 else x
  }

  /** ECMAScript ToIntegerOrInfinity on a finite number: truncation toward zero. */
  function Truncate(v: real): (r: int)
    ensures 0.0 <= v ==> 0 <= r && r as real <= v < r as real + 1.0
    ensures v < 0.0 ==> r <= 0 && r as real - 1.0 < v <= r as real
  {
    if 0.0 <= v then v.Floor else -((-v).Floor)
  }

  /** ECMAScript ToInt16: truncate, then wrap modulo 2^16 into [-2^15, 2^15). */
  function ToInt16(v: real): (r: Int16)
    ensures (r - Truncate(v)) % 0x10000 == 0
    ensures -0x8000 <= Truncate(v) < 0x8000 ==> r == Truncate(v)
  {
    (Truncate(v) + 0x8000) % 0x10000 - 0x8000
  }

  /** One iteration of the capture loop: clamp, scale negatives by 0x8000 and
      the rest by 0x7FFF, store into an Int16Array. */
  function Quantize(x: real): (r: Int16)
    ensures x <= -1.0 ==> r == -0x8000
    ensures 1.0 <= x ==> r == 0x7FFF
  {
    var s := Clamp(x);
    ToInt16(if s < 0.0 then s * 0x8000 as real else s * 0x7FFF as real)
  }

  lemma TruncateMonotonic(u: real, v: real)
    requires u <= v
    ensures Truncate(u) <= Truncate(v)
  {
    if v < 0.0 {
      assert (-v).Floor <= (-u).Floor;
    }
  }

  lemma TruncateBounds(v: real)
    requires -0x8000 as real <= v <= 0x7FFF as real
    ensures -0x8000 <= Truncate(v) <= 0x7FFF
    ensures ToInt16(v) == Truncate(v)
  {
  }

  /** The scaled value always lies in the Int16 range, so the store into the
      Int16Array never wraps around. */
  lemma {:induction false} QuantizeNoWrap(x: real)
    ensures var s := Clamp(x);
      Quantize(x) == Truncate(if s < 0.0 then s * 0x8000 as real else s * 0x7FFF as real)
  {
    var s := Clamp(x);
    TruncateBounds(if s < 0.0 then s * 0x8000 as real else s * 0x7FFF as real);
  }

  /** Quantisation is monotonic. */
  lemma {:induction false} QuantizeMonotonic(x: real, y: real)
    requires x <= y
    ensures Quantize(x) <= Quantize(y)
  {
    var s, t := Clamp(x), Clamp(y);
    var a := if s < 0.0 then s * 0x8000 as real else s * 0x7FFF as real;
    var b := if t < 0.0 then t * 0x8000 as real else t * 0x7FFF as real;
    assert a <= b;
    QuantizeNoWrap(x);
    QuantizeNoWrap(y);
    TruncateMonotonic(a, b);
  }

  /** The pure view of the capture loop. */
  function QuantizeAll(input: seq<real>): (pcm: seq<Int16>)
    ensures |pcm| == |input|
  {
    seq(|input|, i requires 0 <= i < |input| => Quantize(input[i]))
  }

  /** The capture loop: fills an Int16Array of the input's length. */
  method QuantizeFrame(input: seq<real>) returns (pcm: seq<Int16>)
    ensures |pcm| == |input|
    ensures forall i :: 0 <= i < |input| ==> pcm[i] == Quantize(input[i])
    ensures pcm == QuantizeAll(input)
  {
    var data := new Int16[|input|];
    for i := 0 to |input|
      invariant forall k :: 0 <= k < i ==> data[k] == Quantize(input[k])
    {
      data[i] := Quantize(input[i]);
    }
    pcm := data[..];
  }

  // ---------------------------------------------------------------------------
  // Little-endian 16-bit framing (the Int16Array / Uint8Array views)
  // ---------------------------------------------------------------------------

  /** Low byte of the two's-complement representation. */
  function LowByte(s: Int16): Byte { s % 0x100 }

  /** High byte of the two's-complement representation. */
  function HighByte(s: Int16): Byte { (s / 0x100) % 0x100 }

  /** The signed value of two bytes read little-endian. */
  function FromLittleEndian(lo: Byte, hi: Byte): (s: Int16)
    ensures (s < 0) == (0x80 <= hi)
    ensures LowByte(s) == lo && HighByte(s) == hi
  {
    var u := lo as int + 0x100 * (hi as int);
    if 0x8000 <= u then u - 0x10000 else u
  }

  /** Reading back the two bytes of a sample gives the sample. */
  lemma SampleRoundTrip(s: Int16)
    ensures FromLittleEndian(LowByte(s), HighByte(s)) == s
  {
    var lo: int, hi: int := LowByte(s), HighByte(s);
    if 0 <= s {
      assert s == lo + 0x100 * hi;
    } else {
      assert s + 0x10000 == lo + 0x100 * hi;
    }
  }

  /** new Uint8Array(pcm.buffer): each sample becomes its low then its high byte. */
  function SamplesToBytes(pcm: seq<Int16>): (bytes: seq<Byte>)
    ensures |bytes| == 2 * |pcm|
    ensures forall i :: 0 <= i < |pcm| ==>
      bytes[2 * i] == LowByte(pcm[i]) && bytes[2 * i + 1] == HighByte(pcm[i])
  {
    if pcm == [] then []
    else
      var rest := SamplesToBytes(pcm[1..]);
      assert forall i :: 1 <= i < |pcm| ==> pcm[i] == pcm[1..][i - 1];
      [LowByte(pcm[0]), HighByte(pcm[0])] + rest
  }

  /** new Int16Array(bytes.buffer): fails with a RangeError on an odd byte
      length, otherwise sample i is bytes 2i and 2i+1 read little-endian. */
  function BytesToSamples(bytes: seq<Byte>): (r: Option<seq<Int16>>)
    ensures r.Some? <==> |bytes| % 2 == 0
    ensures r.Some? ==> 2 * |r.value| == |bytes|
  {
    if |bytes| % 2 != 0 then None
    else Some(seq(|bytes| / 2, i requires 0 <= i < |bytes| / 2 =>
                FromLittleEndian(bytes[2 * i], bytes[2 * i + 1])))
  }

  lemma {:induction false} BytesToSamplesAt(bytes: seq<Byte>, i: nat)
    requires |bytes| % 2 == 0 && i < |bytes| / 2
    ensures BytesToSamples(bytes).value[i] == FromLittleEndian(bytes[2 * i], bytes[2 * i + 1])
  {
  }

  /** Decoding the bytes of a sample buffer gives the buffer back. */
  lemma {:induction false} FramingRoundTrip(pcm: seq<Int16>)
    ensures BytesToSamples(SamplesToBytes(pcm)) == Some(pcm)
  {
    var bytes := SamplesToBytes(pcm);
    var back := BytesToSamples(bytes).value;
    assert |back| == |pcm|;
    forall i | 0 <= i < |pcm| ensures back[i] == pcm[i] {
      assert back[i] == FromLittleEndian(bytes[2 * i], bytes[2 * i + 1]);
      SampleRoundTrip(pcm[i]);
    }
    assert back == pcm;
  }

  /** Encoding the samples of an even byte string gives the bytes back. */
  lemma {:induction false} BytesRoundTrip(bytes: seq<Byte>)
    requires |bytes| % 2 == 0
    ensures SamplesToBytes(BytesToSamples(bytes).value) == bytes
  {
    var pcm := BytesToSamples(bytes).value;
    var again := SamplesToBytes(pcm);
    forall k | 0 <= k < |bytes| ensures again[k] == bytes[k] {
      var i := k / 2;
      assert k == 2 * i || k == 2 * i + 1;
      assert pcm[i] == FromLittleEndian(bytes[2 * i], bytes[2 * i + 1]);
    }
  }

  // ---------------------------------------------------------------------------
  // Binary strings (String.fromCharCode / charCodeAt)
  // ---------------------------------------------------------------------------

  /** A binary string: every char code is below 256 (what btoa accepts and
      atob returns). */
  predicate Latin1(s: string)
  {
    forall i :: 0 <= i < |s| ==> s[i] as int < 0x100
  }

  /** String.fromCharCode(...bytes): one char per byte, so a binary string. */
  function BinaryString(bytes: seq<Byte>): (bin: string)
    ensures |bin| == |bytes|
    ensures Latin1(bin)
  {
    seq(|bytes|, i requires 0 <= i < |bytes| => bytes[i] as char)
  }

  /** bytes[i] = bin.charCodeAt(i) stored into a Uint8Array (so modulo 256). */
  function CharCodesOf(bin: string): (bytes: seq<Byte>)
    ensures |bytes| == |bin|
    ensures Latin1(bin) ==> forall i :: 0 <= i < |bin| ==> bytes[i] == bin[i] as int
  {
    seq(|bin|, i requires 0 <= i < |bin| => (bin[i] as int) % 0x100)
  }

  /** The copy loop of the chunk handler. */
  method CharCodes(bin: string) returns (bytes: seq<Byte>)
    ensures |bytes| == |bin|
    ensures forall i :: 0 <= i < |bin| ==> bytes[i] == (bin[i] as int) % 0x100
    ensures bytes == CharCodesOf(bin)
  {
    var data := new Byte[|bin|];
    for i := 0 to |bin|
      invariant forall k :: 0 <= k < i ==> data[k] == (bin[k] as int) % 0x100
    {
      data[i] := (bin[i] as int) % 0x100;
    }
    bytes := data[..];
  }

  /** Char codes of a binary string give its bytes back. */
  lemma {:induction false} BinaryStringRoundTrip(bytes: seq<Byte>)
    ensures CharCodesOf(BinaryString(bytes)) == bytes
  {
    var again := CharCodesOf(BinaryString(bytes));
    forall i | 0 <= i < |bytes| ensures again[i] == bytes[i] {
      assert (bytes[i] as char) as int == bytes[i];
    }
  }

  // ---------------------------------------------------------------------------
  // Inbound chunk decoding (atob result to one playback buffer)
  // ---------------------------------------------------------------------------

  /** From the base64 decoder's result to the samples of one buffer: a decoder
      failure, an odd byte count (Int16Array throws) and an empty buffer
      (AudioContext.createBuffer throws on length 0) all drop the frame. */
  function DecodeChunk(decoded: Option<string>): (r: Option<seq<Int16>>)
    ensures r.Some? <==> decoded.Some? && |decoded.value| % 2 == 0 && |decoded.value| > 0
    ensures r.Some? ==> 2 * |r.value| == |decoded.value|
  {
    match decoded
    case None => None
    case Some(bin) =>
      match BytesToSamples(CharCodesOf(bin))
      case None => None
      case Some(pcm) => if |pcm| == 0 then None else Some(pcm)
  }

  /** Sample i of a decoded chunk is the signed little-endian value of the
      char codes 2i and 2i+1. */
  lemma {:induction false} DecodeChunkAt(bin: string, i: nat)
    requires |bin| % 2 == 0 && i < |bin| / 2
    ensures DecodeChunk(Some(bin)).Some?
    ensures DecodeChunk(Some(bin)).value[i]
         == FromLittleEndian((bin[2 * i] as int) % 0x100, (bin[2 * i + 1] as int) % 0x100)
  {
    BytesToSamplesAt(CharCodesOf(bin), i);
  }

  /** The bytes a captured frame is sent as decode, on the receiving side, to
      the same samples (given a base64 pair that round-trips). */
  lemma {:induction false} WireRoundTrip(pcm: seq<Int16>)
    requires pcm != []
    ensures DecodeChunk(Some(BinaryString(SamplesToBytes(pcm)))) == Some(pcm)
  {
    BinaryStringRoundTrip(SamplesToBytes(pcm));
    FramingRoundTrip(pcm);
  }
}
