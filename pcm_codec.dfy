/** The integer side of the live-audio codec in src/services/geminiService.ts:
    the byte/character loops of `decode` and `encode`, the Int16 quantisation
    and little-endian packing of `createPcmBlob`, and the channel
    de-interleaving of `decodeAudioData`.

    Base64 (`atob`/`btoa`) is not modelled: `Decode` receives the binary
    string `atob` returned, and `Encode` returns the binary string handed to
    `btoa`. The host is taken to be little-endian, as typed-array views are on
    every browser the application targets. */
module PcmCodec {

  type byte = b: int | 0 <= b < 256
  type int16 = v: int | -32768 <= v < 32768

  /** A string whose every character is a byte value: what `atob` returns. */
  predicate IsBinaryString(s: string) {
    forall i :: 0 <= i < |s| ==> s[i] as int < 256
  }

  /** The binary string `encode` builds, one `String.fromCharCode(b)` per byte. */
  function BinaryOf(bytes: seq<byte>): (s: string)
    ensures |s| == |bytes| && IsBinaryString(s)
  {
    seq(|bytes|, i requires 0 <= i < |bytes| => bytes[i] as char)
  }

  /** The bytes `decode` stores, one `charCodeAt(i)` per character. */
  function BytesOf(binary: string): (b: seq<byte>)
    requires IsBinaryString(binary)
    ensures |b| == |binary|
  {
    seq(|binary|, i requires 0 <= i < |binary| => binary[i] as int)
  }

  /** `decode(encode(bytes))` gives back the bytes (base64 being inverse). */
  lemma DecodeEncode(bytes: seq<byte>)
    ensures BytesOf(BinaryOf(bytes)) == bytes
  {
    var r := BytesOf(BinaryOf(bytes));
    assert forall i :: 0 <= i < |bytes| ==> r[i] == bytes[i];
  }

  /** `encode(decode(s))` gives back any binary string. */
  lemma EncodeDecode(s: string)
    requires IsBinaryString(s)
    ensures BinaryOf(BytesOf(s)) == s
  {
    var r := BinaryOf(BytesOf(s));
    assert forall i :: 0 <= i < |s| ==> r[i] == s[i];
  }

  /** `encode` without its final `btoa`: the loop over the byte array. */
  method Encode(bytes: array<byte>) returns (binary: string)
    ensures |binary| == bytes.Length
    ensures forall i :: 0 <= i < bytes.Length ==> binary[i] as int == bytes[i]
  {
    binary := "";
    var i := 0;
    while i < bytes.Length
      invariant 0 <= i <= bytes.Length
      invariant |binary| == i
      invariant forall k :: 0 <= k < i ==> binary[k] as int == bytes[k]
    {
      binary := binary + [bytes[i] as char];
      i := i + 1;
    }
  }

  /** `decode` without its initial `atob`: the loop filling a fresh Uint8Array. */
  method Decode(binary: string) returns (bytes: array<byte>)
    requires IsBinaryString(binary)
    ensures fresh(bytes)
    ensures bytes[..] == BytesOf(binary)
  {
    bytes := new byte[|binary|];
    for i := 0 to |binary|
      invariant forall k :: 0 <= k < i ==> bytes[k] == binary[k] as int
    {
      bytes[i] := binary[i] as int;
    }
  }

  // ---------------------------------------------------------------------
  // Int16 samples and their little-endian bytes

  /** The two's-complement bit pattern of `v`, read unsigned. */
  function Unsigned16(v: int16): (u: int)
    ensures 0 <= u < 65536
    ensures u == if v >= 0 then v else v + 65536
  {
    v % 65536
  }

  /** Low byte of the two's-complement form of `v`. */
  function LowByte(v: int16): byte {
    Unsigned16(v) % 256
  }

  /** High byte of the two's-complement form of `v`. */
  function HighByte(v: int16): byte {
    Unsigned16(v) / 256
  }

  /** The Int16 a little-endian byte pair denotes. */
  function Int16Of(lo: byte, hi: byte): int16 {
    var u := lo + 256 * hi;
    if u < 32768 then u else u - 65536
  }

  lemma Int16OfBytes(v: int16)
    ensures Int16Of(LowByte(v), HighByte(v)) == v
  {
  }

  lemma BytesOfInt16(lo: byte, hi: byte)
    ensures LowByte(Int16Of(lo, hi)) == lo && HighByte(Int16Of(lo, hi)) == hi
  {
  }

  /** The bytes of an Int16Array's buffer (`new Uint8Array(int16.buffer)`). */
  function LEBytes(s: seq<int16>): (r: seq<byte>)
    ensures |r| == 2 * |s|
  {
    if s == [] then [] else [LowByte(s[0]), HighByte(s[0])] + LEBytes(s[1..])
  }

  /** `new Int16Array(buffer)` over an even number of bytes. */
  function Int16View(b: seq<byte>): (r: seq<int16>)
    requires |b| % 2 == 0
    ensures 2 * |r| == |b|
  {
    if b == [] then [] else [Int16Of(b[0], b[1])] + Int16View(b[2..])
  }

  /** Sample `k` of the view is the little-endian pair at bytes `2k`, `2k+1`. */
  lemma {:induction false} Int16ViewAt(b: seq<byte>, k: nat)
    requires |b| % 2 == 0 && k < |b| / 2
    ensures Int16View(b)[k] == Int16Of(b[2 * k], b[2 * k + 1])
  {
    if k > 0 {
      Int16ViewAt(b[2..], k - 1);
    }
  }

  /** Reading back the packed buffer gives the samples that were packed. */
  lemma {:induction false} ViewOfPacked(s: seq<int16>)
    ensures Int16View(LEBytes(s)) == s
  {
    if s != [] {
      var b := LEBytes(s);
      assert b[2..] == LEBytes(s[1..]);
      ViewOfPacked(s[1..]);
      Int16OfBytes(s[0]);
    }
  }

  /** Packing the view of an even-length buffer gives back the buffer. */
  lemma {:induction false} PackedOfView(b: seq<byte>)
    requires |b| % 2 == 0
    ensures LEBytes(Int16View(b)) == b
  {
    if b != [] {
      var v := Int16View(b);
      assert v[1..] == Int16View(b[2..]);
      PackedOfView(b[2..]);
      BytesOfInt16(b[0], b[1]);
    }
  }

  // ---------------------------------------------------------------------
  // Quantisation of outbound samples

  /** Truncation toward zero of a finite number. */
  function TruncateToInt(x: real): (n: int)
    ensures x >= 0.0 ==> n as real <= x < n as real + 1.0
    ensures x < 0.0 ==> n as real - 1.0 < x <= n as real
  {
    if x >= 0.0 then x.Floor else -((-x).Floor)
  }

  /** Wrap-around of an integer into the Int16 range (modulo 2^16). */
  function WrapInt16(n: int): (v: int16)
    ensures (v - n) % 65536 == 0
    ensures -32768 <= n < 32768 ==> v == n
  {
    var m := n % 65536;
    if m < 32768 then m else m - 65536
  }

  /** What storing `x * 32768` into an Int16Array keeps (ECMAScript ToInt16
      of a finite number: truncate, then wrap; no clamping). Multiplying by a
      power of two is exact on doubles, so reals model it exactly. */
  function Quantize(x: real): int16 {
    WrapInt16(TruncateToInt(x * 32768.0))
  }

  /** Inside [-1, 1) no sample wraps, and the decoded value `q / 32768` is
      within one quantisation step of the original. */
  lemma QuantizeWithinOneStep(x: real)
    requires -1.0 <= x < 1.0
    ensures Quantize(x) == TruncateToInt(x * 32768.0)
    ensures -1.0 / 32768.0 < x - Quantize(x) as real / 32768.0 < 1.0 / 32768.0
  {
    var n := TruncateToInt(x * 32768.0);
    assert -32768 <= n < 32768;
  }

  /** A full-scale positive sample wraps to the most negative Int16. */
  lemma QuantizeFullScaleWraps()
    ensures Quantize(1.0) == -32768
  {
    assert TruncateToInt(32768.0) == 32768;
  }

  function Quantized(samples: seq<real>): (q: seq<int16>)
    ensures |q| == |samples|
    ensures forall i :: 0 <= i < |samples| ==> q[i] == Quantize(samples[i])
  {
    seq(|samples|, i requires 0 <= i < |samples| => Quantize(samples[i]))
  }

  /** Every sample in [-1, 1) is stored unwrapped, within one quantisation
      step of its value. */
  lemma QuantizedWithinOneStep(samples: seq<real>)
    ensures forall i :: 0 <= i < |samples| && -1.0 <= samples[i] < 1.0 ==>
      && Quantized(samples)[i] == TruncateToInt(samples[i] * 32768.0)
      && -1.0 / 32768.0 < samples[i] - Quantized(samples)[i] as real / 32768.0 < 1.0 / 32768.0
  {
    forall i | 0 <= i < |samples| && -1.0 <= samples[i] < 1.0
      ensures Quantized(samples)[i] == TruncateToInt(samples[i] * 32768.0)
      ensures -1.0 / 32768.0 < samples[i] - Quantized(samples)[i] as real / 32768.0 < 1.0 / 32768.0
    {
      QuantizeWithinOneStep(samples[i]);
    }
  }

  /** The outbound audio frame: binary PCM string and its MIME tag. */
  datatype Blob = Blob(data: string, mimeType: string)

  const PcmMimeType := "audio/pcm;rate=16000"

  /** `createPcmBlob`: quantise each sample into an Int16Array, view its
      buffer as bytes and encode them. */
  method CreatePcmBlob(data: array<real>) returns (blob: Blob)
    ensures blob.mimeType == PcmMimeType
    ensures blob.data == BinaryOf(LEBytes(Quantized(data[..])))
  {
    var l := data.Length;
    var samples := new int16[l];
    for i := 0 to l
      invariant forall k :: 0 <= k < i ==> samples[k] == Quantize(data[k])
    {
      samples[i] := Quantize(data[i]);
    }
    assert samples[..] == Quantized(data[..]);
    var packed := LEBytes(samples[..]);
    var view := new byte[|packed|](k requires 0 <= k < |packed| => packed[k]);
    assert view[..] == packed;
    var binary := Encode(view);
    assert binary == BinaryOf(packed);
    blob := Blob(binary, PcmMimeType);
  }

  // ---------------------------------------------------------------------
  // Inbound audio

  /** Frames `decodeAudioData` allocates: the sample count divided by the
      channel count, truncated as the `unsigned long` length of
      `createBuffer` is. */
  function FrameCount(byteLength: nat, numChannels: nat): nat
    requires numChannels >= 1
  {
    byteLength / 2 / numChannels
  }

  /** Channel `c`, frame `i` of interleaved samples, scaled by 1/32768 (the
      scaling is exact: every Int16 over 32768 is a float). */
  function ChannelSample(samples: seq<int16>, numChannels: nat, c: nat, i: nat): real
    requires numChannels >= 1 && c < numChannels && i < |samples| / numChannels
  {
    FrameIndexInRange(i, c, |samples| / numChannels, numChannels, |samples|);
    samples[i * numChannels + c] as real / 32768.0
  }

  /** `decodeAudioData`: view the bytes as Int16 samples and de-interleave
      them into `numChannels` channels, scaling each by 1/32768. The result
      is null where the source throws: an odd byte length (the Int16Array
      view) or a zero frame count (`createBuffer`). */
  method DecodeAudioData(data: array<byte>, numChannels: nat) returns (buffer: array2?<real>)
    requires numChannels >= 1
    ensures buffer == null <==> data.Length % 2 == 1 || FrameCount(data.Length, numChannels) == 0
    ensures buffer != null ==>
      && fresh(buffer)
      && buffer.Length0 == numChannels
      && buffer.Length1 == FrameCount(data.Length, numChannels)
      && forall c, i :: 0 <= c < numChannels && 0 <= i < buffer.Length1 ==>
           buffer[c, i] == ChannelSample(Int16View(data[..]), numChannels, c, i)
  {
    if data.Length % 2 == 1 {
      return null;
    }
    var dataInt16 := Int16View(data[..]);
    var frameCount := |dataInt16| / numChannels;
    if frameCount == 0 {
      return null;
    }
    var b := new real[numChannels, frameCount];
    for channel := 0 to numChannels
      invariant forall c, i :: 0 <= c < channel && 0 <= i < frameCount ==>
        b[c, i] == ChannelSample(dataInt16, numChannels, c, i)
    {
      for i := 0 to frameCount
        invariant forall c, j :: 0 <= c < channel && 0 <= j < frameCount ==>
          b[c, j] == ChannelSample(dataInt16, numChannels, c, j)
        invariant forall j :: 0 <= j < i ==> b[channel, j] == ChannelSample(dataInt16, numChannels, channel, j)
      {
        b[channel, i] := ChannelSample(dataInt16, numChannels, channel, i);
      }
    }
    buffer := b;
  }

  /** Frame `i` of channel `c` reads an existing sample. */
  lemma FrameIndexInRange(i: nat, c: nat, frames: nat, channels: nat, samples: nat)
    requires i < frames && c < channels && frames == samples / channels
    ensures i * channels + c < samples
  {
    assert (i + 1) * channels <= frames * channels <= samples;
  }

  /** Channel `c`, frame `i` of a decoded buffer is the little-endian Int16
      at bytes `2(i*n+c)` and `2(i*n+c)+1`, scaled by 1/32768. */
  lemma {:induction false} DecodedSampleBytes(data: seq<byte>, numChannels: nat, c: nat, i: nat)
    requires numChannels >= 1 && |data| % 2 == 0
    requires c < numChannels && i < FrameCount(|data|, numChannels)
    ensures i * numChannels + c < |data| / 2
    ensures Int16View(data)[i * numChannels + c]
      == Int16Of(data[2 * (i * numChannels + c)], data[2 * (i * numChannels + c) + 1])
  {
    FrameIndexInRange(i, c, FrameCount(|data|, numChannels), numChannels, |data| / 2);
    Int16ViewAt(data, i * numChannels + c);
  }

  /** A mono frame produced by `createPcmBlob`, decoded as one channel,
      gives back each quantised sample scaled by 1/32768. */
  lemma MonoRoundTrip(samples: seq<real>, i: nat)
    requires i < |samples|
    ensures ChannelSample(Int16View(LEBytes(Quantized(samples))), 1, 0, i) == Quantize(samples[i]) as real / 32768.0
  {
    ViewOfPacked(Quantized(samples));
  }
}
