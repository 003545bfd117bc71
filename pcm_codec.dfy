/**
 * The byte and sample layer of the live voice widget
 * (components/LiveVoiceAssistant.tsx): binary strings and byte arrays
 * (`decode`, `encode`), little-endian Int16 views of a byte buffer,
 * de-interleaving into channels (`decodeAudioData`) and packing captured
 * samples (`createBlob`).
 *
 * Samples are integers: the float scaling by 32768 on capture and the
 * division by 32768 on playback are not part of this model. What an
 * Int16Array or a Uint8Array does to a stored number (wrap it modulo 2^16
 * or 2^8) is written out.
 */
module PcmCodec {
  import opened Wrappers

  /** An element of a Uint8Array. */
  type Byte = b: int | 0 <= b < 0x100

  /** An element of an Int16Array. */
  type Int16 = x: int | -0x8000 <= x < 0x8000

  /** The errors the typed-array and AudioBuffer constructors throw. */
  datatype AudioError =
    | RangeError          // an Int16Array view of an odd number of bytes
    | NotSupportedError   // createBuffer: bad channel count, zero frames or bad sample rate

  const OutputSampleRate: nat := 24000
  const PcmMimeType: string := "audio/pcm;rate=16000"

  // ---------------------------------------------------------------------
  // Typed-array stores

  /** Storing an integer into a Uint8Array element keeps it modulo 2^8. */
  function ToUint8(x: int): (b: Byte)
    ensures 0 <= x < 0x100 ==> b == x
    ensures (x - b) % 0x100 == 0
  {
    x % 0x100
  }

  /** Storing an integer into an Int16Array element wraps it modulo 2^16 into [-2^15, 2^15). */
  function ToInt16(x: int): (r: Int16)
    ensures -0x8000 <= x < 0x8000 ==> r == x
    ensures (x - r) % 0x1_0000 == 0
  {
    var m := x % 0x1_0000;
    if m < 0x8000 then m else m - 0x1_0000
  }

  /** Full-scale positive input is not clamped: it wraps to the most negative sample. */
  lemma FullScaleWraps()
    ensures ToInt16(0x8000) == -0x8000
    ensures ToInt16(0x8000 - 1) == 0x7FFF
  {
  }

  // ---------------------------------------------------------------------
  // Binary strings

  /** A string whose every character has a code below 256, as `atob` returns. */
  predicate IsBinaryString(s: string) {
    forall i :: 0 <= i < |s| ==> s[i] as int < 0x100
  }

  /** The bytes `decode` stores: byte i is the code of character i, modulo 2^8. */
  function BinaryToBytes(s: string): seq<Byte> {
    seq(|s|, i requires 0 <= i < |s| => ToUint8(s[i] as int))
  }

  /** The string `encode` builds: character i has code byte i. */
  function BytesToBinary(bytes: seq<Byte>): string {
    seq(|bytes|, i requires 0 <= i < |bytes| => bytes[i] as char)
  }

  lemma {:induction false} BytesToBinaryIsBinary(bytes: seq<Byte>)
    ensures IsBinaryString(BytesToBinary(bytes))
    ensures |BytesToBinary(bytes)| == |bytes|
  {
  }

  /** Encoding bytes and decoding the string gives the bytes back. */
  lemma {:induction false} BytesRoundTrip(bytes: seq<Byte>)
    ensures BinaryToBytes(BytesToBinary(bytes)) == bytes
  {
    var s := BytesToBinary(bytes);
    forall i | 0 <= i < |bytes| ensures BinaryToBytes(s)[i] == bytes[i] {
      assert s[i] as int == bytes[i];
    }
  }

  /** On a binary string, decoding and encoding again gives the string back. */
  lemma {:induction false} BinaryRoundTrip(s: string)
    requires IsBinaryString(s)
    ensures BytesToBinary(BinaryToBytes(s)) == s
  {
    var bytes := BinaryToBytes(s);
    forall i | 0 <= i < |s| ensures BytesToBinary(bytes)[i] == s[i] {
      assert bytes[i] == s[i] as int;
    }
  }

  /** `decode` after `atob`: fills a fresh Uint8Array with the character codes. */
  method Decode(binary: string) returns (bytes: array<Byte>)
    ensures bytes.Length == |binary|
    ensures bytes[..] == BinaryToBytes(binary)
  {
    var len := |binary|;
    bytes := new Byte[len];
    for i := 0 to len
      invariant forall k :: 0 <= k < i ==> bytes[k] == ToUint8(binary[k] as int)
    {
      bytes[i] := ToUint8(binary[i] as int);
    }
  }

  /** `encode` before `btoa`: appends one character per byte. */
  method Encode(bytes: array<Byte>) returns (binary: string)
    ensures binary == BytesToBinary(bytes[..])
  {
    binary := "";
    var len := bytes.Length;
    for i := 0 to len
      invariant |binary| == i
      invariant forall k :: 0 <= k < i ==> binary[k] == bytes[k] as char
    {
      binary := binary + [bytes[i] as char];
    }
  }

  // ---------------------------------------------------------------------
  // Int16 views of a byte buffer (little-endian, the byte order of the platforms the site runs on)

  function Low(x: Int16): Byte {
    (x as int % 0x1_0000) % 0x100
  }

  function High(x: Int16): Byte {
    (x as int % 0x1_0000) / 0x100
  }

  /** The sample stored in two consecutive bytes, low byte first. */
  function FromBytes(lo: Byte, hi: Byte): Int16 {
    ToInt16(lo + 0x100 * hi)
  }

  /** The bytes of the buffer behind an Int16Array holding `samples`. */
  function LittleEndian(samples: seq<Int16>): seq<Byte> {
    seq(2 * |samples|, j requires 0 <= j < 2 * |samples| =>
      if j % 2 == 0 then Low(samples[j / 2]) else High(samples[j / 2]))
  }

  /** The bytes viewed as little-endian 16-bit samples; an odd byte count makes the view throw a RangeError. */
  function Int16View(bytes: seq<Byte>): Result<seq<Int16>, AudioError> {
    if |bytes| % 2 != 0 then Failure(RangeError)
    else Success(seq(|bytes| / 2, i requires 0 <= i < |bytes| / 2 => FromBytes(bytes[2 * i], bytes[2 * i + 1])))
  }

  lemma SampleRoundTrip(x: Int16)
    ensures FromBytes(Low(x), High(x)) == x
  {
    var u := x as int % 0x1_0000;
    assert Low(x) + 0x100 * High(x) == u;
    if x >= 0 {
      assert u == x;
    } else {
      assert u == x + 0x1_0000;
    }
  }

  lemma BytesOfSample(lo: Byte, hi: Byte)
    ensures Low(FromBytes(lo, hi)) == lo && High(FromBytes(lo, hi)) == hi
  {
    var u := lo + 0x100 * hi;
    var x := FromBytes(lo, hi);
    assert 0 <= u < 0x1_0000;
    assert x as int % 0x1_0000 == u by {
      if u < 0x8000 {
        assert x == u;
      } else {
        assert x == u - 0x1_0000;
      }
    }
  }

  /** Packing samples into bytes and viewing the bytes as Int16 gives the samples back. */
  lemma {:induction false} PackRoundTrip(samples: seq<Int16>)
    ensures |LittleEndian(samples)| == 2 * |samples|
    ensures Int16View(LittleEndian(samples)) == Success(samples)
  {
    var bytes := LittleEndian(samples);
    var view := Int16View(bytes);
    assert |bytes| % 2 == 0;
    forall i | 0 <= i < |samples| ensures view.value[i] == samples[i] {
      assert bytes[2 * i] == Low(samples[i]);
      assert bytes[2 * i + 1] == High(samples[i]);
      SampleRoundTrip(samples[i]);
    }
    assert |view.value| == |samples|;
    assert view.value == samples;
  }

  /** Every even-length byte buffer is exactly the packing of its Int16 view. */
  lemma {:induction false} ViewRoundTrip(bytes: seq<Byte>)
    requires |bytes| % 2 == 0
    ensures Int16View(bytes).Success?
    ensures LittleEndian(Int16View(bytes).value) == bytes
  {
    var samples := Int16View(bytes).value;
    var packed := LittleEndian(samples);
    forall j | 0 <= j < |bytes| ensures packed[j] == bytes[j] {
      var i := j / 2;
      BytesOfSample(bytes[2 * i], bytes[2 * i + 1]);
      if j % 2 == 0 {
        assert j == 2 * i;
      } else {
        assert j == 2 * i + 1;
      }
    }
  }

  // ---------------------------------------------------------------------
  // Capture: createBlob

  /** A transport envelope: the packed bytes as a binary string and the media descriptor. */
  datatype Blob = Blob(data: string, mimeType: string)

  /** The Int16Array `createBlob` fills from integer samples. */
  function Quantize(data: seq<int>): seq<Int16> {
    seq(|data|, i requires 0 <= i < |data| => ToInt16(data[i]))
  }

  /** What `createBlob` returns for integer samples `data` (btoa not applied). */
  function BlobOf(data: seq<int>): Blob {
    Blob(BytesToBinary(LittleEndian(Quantize(data))), PcmMimeType)
  }

  /** A receiver that decodes a blob's data gets back every sample, wrapped into the Int16 range. */
  lemma {:induction false} BlobRoundTrip(data: seq<int>)
    ensures |BlobOf(data).data| == 2 * |data|
    ensures IsBinaryString(BlobOf(data).data)
    ensures Int16View(BinaryToBytes(BlobOf(data).data)) == Success(Quantize(data))
  {
    var packed := LittleEndian(Quantize(data));
    BytesToBinaryIsBinary(packed);
    BytesRoundTrip(packed);
    PackRoundTrip(Quantize(data));
  }

  /** Samples already in the Int16 range come back unchanged. */
  lemma {:induction false} BlobRoundTripInRange(data: seq<int>)
    requires forall i :: 0 <= i < |data| ==> -0x8000 <= data[i] < 0x8000
    ensures Int16View(BinaryToBytes(BlobOf(data).data)) == Success(data)
  {
    BlobRoundTrip(data);
    assert Quantize(data) == data;
  }

  /** `createBlob`: fills an Int16Array, views its buffer as bytes and encodes them. */
  method CreateBlob(data: seq<int>) returns (blob: Blob)
    ensures blob == BlobOf(data)
    ensures blob.mimeType == PcmMimeType
    ensures |blob.data| == 2 * |data|
    ensures Int16View(BinaryToBytes(blob.data)) == Success(Quantize(data))
  {
    var l := |data|;
    var int16 := new Int16[l];
    for i := 0 to l
      invariant forall k :: 0 <= k < i ==> int16[k] == ToInt16(data[k])
    {
      int16[i] := ToInt16(data[i]);
    }
    assert int16[..] == Quantize(data);
    var view := LittleEndian(int16[..]);
    var bytes := new Byte[|view|](j requires 0 <= j < |view| => view[j]);
    assert bytes[..] == view;
    var binary := Encode(bytes);
    blob := Blob(binary, PcmMimeType);
    BlobRoundTrip(data);
  }

  // ---------------------------------------------------------------------
  // Playback: decodeAudioData

  /**
   * createBuffer's checks as Chromium implements them: 1 to 32 channels, at
   * least one frame, a rate from 3000 to 768000 Hz. The Web Audio API itself
   * only requires every browser to accept at least 32 channels and rates from
   * 8000 to 96000 Hz; other browsers draw the outer limits differently.
   */
  predicate BufferShapeOk(numChannels: nat, frameCount: nat, sampleRate: int) {
    1 <= numChannels <= 32 && frameCount >= 1 && 3000 <= sampleRate <= 768000
  }

  /** The length of each channel: the number of whole frames, as createBuffer truncates a fractional length. */
  function FrameCount(sampleCount: nat, numChannels: nat): nat {
    if numChannels == 0 then 0 else sampleCount / numChannels
  }

  /** Channel `c` of an interleaved stream: frame i takes sample `i * numChannels + c`. */
  function Channel(samples: seq<Int16>, numChannels: nat, c: nat): (ch: seq<Int16>)
    requires c < numChannels
    ensures |ch| == |samples| / numChannels
  {
    seq(|samples| / numChannels, i requires 0 <= i < |samples| / numChannels =>
      InterleavedIndexInRange(i, c, numChannels, |samples|);
      samples[i * numChannels + c])
  }

  lemma InterleavedIndexInRange(i: nat, c: nat, numChannels: nat, n: nat)
    requires c < numChannels && i < n / numChannels
    ensures i * numChannels + c < n
  {
    var f := n / numChannels;
    assert f * numChannels <= n;
    assert i * numChannels <= (f - 1) * numChannels;
  }

  /** The channel data `decodeAudioData` produces, or the error it throws. */
  function DecodedChannels(bytes: seq<Byte>, sampleRate: int, numChannels: nat): (r: Result<seq<seq<Int16>>, AudioError>) {
    match Int16View(bytes)
    case Failure(e) => Failure(e)
    case Success(samples) =>
      if !BufferShapeOk(numChannels, FrameCount(|samples|, numChannels), sampleRate) then Failure(NotSupportedError)
      else Success(seq(numChannels, c requires 0 <= c < numChannels => Channel(samples, numChannels, c)))
  }

  /** With one channel, de-interleaving is the identity. */
  lemma {:induction false} MonoIsIdentity(samples: seq<Int16>)
    ensures |Channel(samples, 1, 0)| == |samples|
    ensures Channel(samples, 1, 0) == samples
  {
    var ch := Channel(samples, 1, 0);
    forall i | 0 <= i < |samples| ensures ch[i] == samples[i] {
      assert i * 1 + 0 == i;
    }
  }

  /** Mono audio that passes createBuffer's checks decodes to exactly its samples. */
  lemma {:induction false} MonoDecode(samples: seq<Int16>, sampleRate: int)
    requires |samples| >= 1 && 3000 <= sampleRate <= 768000
    ensures DecodedChannels(LittleEndian(samples), sampleRate, 1) == Success([samples])
  {
    PackRoundTrip(samples);
    MonoIsIdentity(samples);
    assert FrameCount(|samples|, 1) == |samples|;
    var channels := seq(1, c requires 0 <= c < 1 => Channel(samples, 1, c));
    assert channels[0] == samples;
    assert channels == [samples];
  }

  /** Two different (channel, frame) positions read two different interleaved samples. */
  lemma InterleavedIndexInjective(i: nat, c: nat, j: nat, d: nat, numChannels: nat)
    requires c < numChannels && d < numChannels
    requires i * numChannels + c == j * numChannels + d
    ensures i == j && c == d
  {
    if i < j {
      assert (i + 1) * numChannels == i * numChannels + numChannels;
      MulMonotone(i + 1, j, numChannels);
    } else if j < i {
      assert (j + 1) * numChannels == j * numChannels + numChannels;
      MulMonotone(j + 1, i, numChannels);
    }
  }

  lemma MulMonotone(a: nat, b: nat, n: nat)
    requires a <= b
    ensures a * n <= b * n
  {
    var d := b - a;
    assert b * n == a * n + d * n;
  }

  /**
   * Every sample of a whole frame appears in the de-interleaved output:
   * sample k is frame `k / numChannels` of channel `k % numChannels`.
   */
  lemma InterleavedIndexCovers(samples: seq<Int16>, numChannels: nat, k: nat)
    requires numChannels >= 1 && k < (|samples| / numChannels) * numChannels
    ensures k / numChannels < |Channel(samples, numChannels, k % numChannels)|
    ensures Channel(samples, numChannels, k % numChannels)[k / numChannels] == samples[k]
  {
    var f := |samples| / numChannels;
    if k / numChannels >= f {
      MulMonotone(f, k / numChannels, numChannels);
      assert false;
    }
    assert (k / numChannels) * numChannels + k % numChannels == k;
  }

  /** A decoded AudioBuffer: `channelData[c, i]` is sample i of channel c. */
  datatype AudioBuffer = AudioBuffer(channelData: array2<Int16>, sampleRate: int)

  /** `AudioBuffer.duration`: frames divided by the sample rate, in seconds. */
  function Duration(frames: nat, sampleRate: int): real
    requires sampleRate > 0
  {
    frames as real / sampleRate as real
  }

  /** `decodeAudioData`: views the bytes as Int16, creates the buffer and de-interleaves into it. */
  method DecodeAudioData(data: array<Byte>, sampleRate: int, numChannels: nat)
    returns (r: Result<AudioBuffer, AudioError>)
    ensures r.Failure? <==> DecodedChannels(data[..], sampleRate, numChannels).Failure?
    ensures r.Failure? ==> r.error == DecodedChannels(data[..], sampleRate, numChannels).error
    ensures r.Success? ==>
      var channels := DecodedChannels(data[..], sampleRate, numChannels).value;
      && r.value.sampleRate == sampleRate
      && r.value.channelData.Length0 == numChannels
      && r.value.channelData.Length1 == |channels[0]|
      && forall c, i :: 0 <= c < numChannels && 0 <= i < |channels[c]| ==> r.value.channelData[c, i] == channels[c][i]
  {
    var view := Int16View(data[..]);
    if view.Failure? {
      return Failure(view.error);
    }
    var dataInt16 := view.value;
    var frameCount := FrameCount(|dataInt16|, numChannels);
    if !BufferShapeOk(numChannels, frameCount, sampleRate) {
      return Failure(NotSupportedError);
    }
    ghost var channels := DecodedChannels(data[..], sampleRate, numChannels).value;
    var buffer := new Int16[numChannels, frameCount];
    for channel := 0 to numChannels
      invariant forall c, k :: 0 <= c < channel && 0 <= k < frameCount ==> buffer[c, k] == channels[c][k]
    {
      for i := 0 to frameCount
        invariant forall c, k :: 0 <= c < channel && 0 <= k < frameCount ==> buffer[c, k] == channels[c][k]
        invariant forall k :: 0 <= k < i ==> buffer[channel, k] == channels[channel][k]
      {
        InterleavedIndexInRange(i, channel, numChannels, |dataInt16|);
        assert channels[channel][i] == dataInt16[i * numChannels + channel];
        buffer[channel, i] := dataInt16[i * numChannels + channel];
      }
    }
    r := Success(AudioBuffer(buffer, sampleRate));
  }
}
