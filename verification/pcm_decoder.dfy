/** `decodeBase64Audio`: base64 text of raw 16-bit little-endian mono PCM
    to a one-channel `AudioBuffer` of samples in [-1, 1). */
module PcmDecoder {
  import opened Bytes
  import opened Results
  import opened Pcm16
  import opened AudioBuffers
  import Base64

  /** The two ways the decoder throws: `atob` rejects the text
      ("InvalidCharacterError"), or the `Int16Array` constructor rejects a
      buffer whose byte length is odd ("RangeError"). */
  datatype DecodeError = InvalidCharacter | OddByteLength

  /** The rate assumed when the caller does not give one. */
  const DEFAULT_SAMPLE_RATE: nat := 24000

  /** `atob`: the decoded bytes as a binary string of one character per
      byte, or `None` where it throws. */
  function Atob(data: string): (r: Option<string>)
    ensures r.Some? <==> Base64.ForgivingDecode(data).Some?
    ensures r.Some? ==> |r.value| == |Base64.ForgivingDecode(data).value|
    ensures r.Some? ==> forall i | 0 <= i < |r.value| :: r.value[i] as int < 0x100
  {
    match Base64.ForgivingDecode(data)
    case None => None
    case Some(bs) => Some(seq(|bs|, i requires 0 <= i < |bs| => bs[i] as char))
  }

  /** The bytes of an `atob` result are exactly the bytes base64 encodes:
      the binary string round-trips through its character codes. */
  lemma CharCodesOfAtob(data: string)
    requires Atob(data).Some?
    ensures CharCodes(Atob(data).value) == Base64.ForgivingDecode(data).value
  {
  }

  /** `new Int16Array(bytes.buffer)` on a little-endian platform: one
      signed value per byte pair, low byte first; an odd length throws. */
  function Int16View(bytes: seq<byte>): (r: Result<seq<int>, DecodeError>)
    ensures r.Ok? <==> |bytes| % 2 == 0
    ensures r.Err? ==> r.error == OddByteLength
    ensures r.Ok? ==> |r.value| == |bytes| / 2
    ensures r.Ok? ==> forall k | 0 <= k < |r.value| ::
      && MIN_SAMPLE <= r.value[k] <= MAX_SAMPLE
      && Int16Bytes(r.value[k]) == bytes[2 * k..2 * k + 2]
  {
    if |bytes| % 2 != 0 then Err(OddByteLength)
    else
      var values := seq(|bytes| / 2, k requires 0 <= k < |bytes| / 2 => ReadInt16(bytes, 2 * k));
      EncodesEveryPair(bytes, values);
      Ok(values)
  }

  lemma EncodesEveryPair(bytes: seq<byte>, values: seq<int>)
    requires |values| == |bytes| / 2
    requires forall k | 0 <= k < |values| :: values[k] == ReadInt16(bytes, 2 * k)
    ensures forall k | 0 <= k < |values| :: Int16Bytes(values[k]) == bytes[2 * k..2 * k + 2]
  {
    forall k | 0 <= k < |values|
      ensures Int16Bytes(values[k]) == bytes[2 * k..2 * k + 2]
    {
      Int16BytesOfRead(bytes, 2 * k);
    }
  }

  /** `decodeBase64Audio(base64String, audioContext, sampleRate = 24000)`:
      it fails exactly when the text is not base64 or decodes to an odd
      number of bytes, and otherwise yields a mono buffer at the given rate
      with one sample per byte pair: a value in [-1, 1) that, times 32768,
      is the 16-bit integer whose little-endian bytes the pair holds. */
  function DecodeBase64Audio(base64String: string, sampleRate: nat := DEFAULT_SAMPLE_RATE)
    : (r: Result<AudioBuffer, DecodeError>)
    ensures Base64.ForgivingDecode(base64String).None? ==> r == Err(InvalidCharacter)
    ensures Base64.ForgivingDecode(base64String).Some? ==>
      var bytes := Base64.ForgivingDecode(base64String).value;
      && (r.Ok? <==> |bytes| % 2 == 0)
      && (r.Err? ==> r.error == OddByteLength)
      && (r.Ok? ==>
            && r.value.Valid()
            && r.value.NumberOfChannels() == 1
            && r.value.sampleRate == sampleRate
            && r.value.Length() == |bytes| / 2
            && forall k | 0 <= k < |bytes| / 2 ::
                 var x := r.value.channels[0][k];
                 var v := (x * DECODE_DIVISOR).Floor;
                 && -1.0 <= x < 1.0
                 && x * DECODE_DIVISOR == v as real
                 && Int16Bytes(v) == bytes[2 * k..2 * k + 2])
  {
    match Atob(base64String)
    case None => Err(InvalidCharacter)
    case Some(binaryString) =>
      var bytes := CharCodes(binaryString);
      CharCodesOfAtob(base64String);
      match Int16View(bytes)
      case Err(e) => Err(e)
      case Ok(int16Data) =>
        var float32Data := seq(|int16Data|, i requires 0 <= i < |int16Data| => Dequantize(int16Data[i]));
        Ok(AudioBuffer(sampleRate, [float32Data]))
  }

  /** Whole base64 of an even number of bytes always decodes. */
  lemma DecodeSucceeds(base64String: string, sampleRate: nat)
    requires Base64.ForgivingDecode(base64String).Some?
    requires |Base64.ForgivingDecode(base64String).value| % 2 == 0
    ensures DecodeBase64Audio(base64String, sampleRate).Ok?
    ensures DecodeBase64Audio(base64String, sampleRate).value.Length()
         == |Base64.ForgivingDecode(base64String).value| / 2
  {
  }

  /** Without a rate, the buffer is at 24000 Hz. */
  lemma DefaultRate(base64String: string)
    requires DecodeBase64Audio(base64String).Ok?
    ensures DecodeBase64Audio(base64String).value.sampleRate == 24000
  {
  }
}
