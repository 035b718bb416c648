/** The encoder and the decoder composed. The application decodes a speech
    payload and immediately re-encodes the buffer as a WAV file; and the
    data section of any WAV file, read back by the decoder, reproduces the
    clamped samples within the quantization error. */
module RoundTrip {
  import opened Bytes
  import opened Results
  import opened Pcm16
  import opened AudioBuffers
  import opened WavEncoder
  import opened WavLayout
  import opened PcmDecoder
  import Base64

  /** The 16-bit value a payload value becomes after decoding and
      re-encoding: unchanged when not positive, one less when positive. */
  function Requantized(v: int): int
  {
    if v <= 0 then v else v - 1
  }

  /** Both 16-bit codecs agree: equal byte pairs mean equal values. */
  lemma Int16BytesInjective(v: int, w: int)
    requires MIN_SAMPLE <= v <= MAX_SAMPLE && MIN_SAMPLE <= w <= MAX_SAMPLE
    requires Int16Bytes(v) == Int16Bytes(w)
    ensures v == w
  {
    ReadInt16OfBytes(v);
    ReadInt16OfBytes(w);
  }

  /** Sample `k` of a decoded buffer is the payload's 16-bit value `k`
      divided by 32768. */
  lemma DecodedSample(base64String: string, sampleRate: nat, k: nat)
    requires DecodeBase64Audio(base64String, sampleRate).Ok?
    requires k < DecodeBase64Audio(base64String, sampleRate).value.Length()
    ensures var bytes := Base64.ForgivingDecode(base64String).value;
      2 * k + 2 <= |bytes|
      && DecodeBase64Audio(base64String, sampleRate).value.channels[0][k] == Dequantize(ReadInt16(bytes, 2 * k))
  {
    var bytes := Base64.ForgivingDecode(base64String).value;
    var x := DecodeBase64Audio(base64String, sampleRate).value.channels[0][k];
    var v := (x * DECODE_DIVISOR).Floor;
    Int16BytesOfRead(bytes, 2 * k);
    Int16BytesInjective(v, ReadInt16(bytes, 2 * k));
  }

  /** What the application stores for download: decoding a payload of `m`
      bytes and encoding the buffer gives a mono file at the caller's rate
      with `44 + m` bytes, whose sample `k` is the payload's value `k`
      unchanged when not positive and one less when positive. */
  lemma {:induction false} DecodeThenEncode(base64String: string, sampleRate: nat)
    requires DecodeBase64Audio(base64String, sampleRate).Ok?
    ensures var bytes := Base64.ForgivingDecode(base64String).value;
      var w := WavFile(DecodeBase64Audio(base64String, sampleRate).value);
      && |w| == HEADER_SIZE + |bytes|
      && ReadUint16(w, 22) == 1
      && ReadUint32(w, 24) == ToUint32(sampleRate)
      && forall k | 0 <= k < |bytes| / 2 ::
           ReadInt16(w, 44 + 2 * k) == Requantized(ReadInt16(bytes, 2 * k))
  {
    var bytes := Base64.ForgivingDecode(base64String).value;
    var b := DecodeBase64Audio(base64String, sampleRate).value;
    var w := WavFile(b);
    WavSizes(b);
    WavFormatFields(b);
    assert |w| == HEADER_SIZE + |bytes|;
    forall k | 0 <= k < |bytes| / 2
      ensures ReadInt16(w, 44 + 2 * k) == Requantized(ReadInt16(bytes, 2 * k))
    {
      DecodeThenEncodeSample(base64String, sampleRate, k);
    }
  }

  lemma DecodeThenEncodeSample(base64String: string, sampleRate: nat, k: nat)
    requires DecodeBase64Audio(base64String, sampleRate).Ok?
    requires k < |Base64.ForgivingDecode(base64String).value| / 2
    ensures var bytes := Base64.ForgivingDecode(base64String).value;
      var w := WavFile(DecodeBase64Audio(base64String, sampleRate).value);
      && 44 + 2 * k + 2 <= |w|
      && ReadInt16(w, 44 + 2 * k) == Requantized(ReadInt16(bytes, 2 * k))
  {
    var bytes := Base64.ForgivingDecode(base64String).value;
    var b := DecodeBase64Audio(base64String, sampleRate).value;
    var w := WavFile(b);
    var v := ReadInt16(bytes, 2 * k);
    assert b.channels[0][k] == Dequantize(v) by {
      DecodedSample(base64String, sampleRate, k);
    }
    assert ReadInt16(w, 44 + 2 * k) == Quantize(b.channels[0][k]) by {
      DataSampleAt(w, WavSamples(b), k, 44 + 2 * k);
    }
    RequantizeDecoded(v);
  }

  /** The data section of an encoded buffer, sent as base64 and decoded,
      gives one sample per encoded sample: its quantized value over 32768,
      which lies less than two quantization steps below and less than one
      step above the clamped sample. */
  lemma {:induction false} EncodeThenDecode(b: AudioBuffer, sampleRate: nat)
    requires b.Valid()
    ensures var samples := WavSamples(b);
      var r := DecodeBase64Audio(Base64.Encode(WavFile(b)[HEADER_SIZE..]), sampleRate);
      && r.Ok?
      && r.value.NumberOfChannels() == 1
      && r.value.Length() == |samples|
      && forall k | 0 <= k < |samples| ::
           && r.value.channels[0][k] == Dequantize(Quantize(samples[k]))
           && Clamp(samples[k]) - 2.0 / DECODE_DIVISOR < r.value.channels[0][k]
           && r.value.channels[0][k] < Clamp(samples[k]) + 1.0 / DECODE_DIVISOR
  {
    var samples := WavSamples(b);
    var data := WavFile(b)[HEADER_SIZE..];
    var payload := Base64.Encode(data);
    Base64.DecodeOfEncode(data);
    var r := DecodeBase64Audio(payload, sampleRate);
    DivModUnique(|data|, |samples|, 0, 2);
    DecodeSucceeds(payload, sampleRate);
    forall k | 0 <= k < |samples|
      ensures r.value.channels[0][k] == Dequantize(Quantize(samples[k]))
      ensures Clamp(samples[k]) - 2.0 / DECODE_DIVISOR < r.value.channels[0][k]
      ensures r.value.channels[0][k] < Clamp(samples[k]) + 1.0 / DECODE_DIVISOR
    {
      EncodeThenDecodeSample(b, sampleRate, k);
    }
  }

  lemma EncodeThenDecodeSample(b: AudioBuffer, sampleRate: nat, k: nat)
    requires b.Valid() && k < |WavSamples(b)|
    requires Base64.ForgivingDecode(Base64.Encode(WavFile(b)[HEADER_SIZE..])) == Results.Some(WavFile(b)[HEADER_SIZE..])
    ensures var x := WavSamples(b)[k];
      var r := DecodeBase64Audio(Base64.Encode(WavFile(b)[HEADER_SIZE..]), sampleRate);
      && r.Ok? && k < r.value.Length()
      && r.value.channels[0][k] == Dequantize(Quantize(x))
      && Clamp(x) - 2.0 / DECODE_DIVISOR < r.value.channels[0][k] < Clamp(x) + 1.0 / DECODE_DIVISOR
  {
    var samples := WavSamples(b);
    var data := WavFile(b)[HEADER_SIZE..];
    var payload := Base64.Encode(data);
    var q := Quantize(samples[k]);
    var r := DecodeBase64Audio(payload, sampleRate);
    DivModUnique(|data|, |samples|, 0, 2);
    DecodeSucceeds(payload, sampleRate);
    DecodedSample(payload, sampleRate, k);
    ReadPcmData(samples, k);
    assert r.value.channels[0][k] == Dequantize(q);
    QuantizeSaturates(samples[k]);
    DecodedQuantizeError(Clamp(samples[k]));
  }

  /** Sample `k` of the data reads back as its quantized value. */
  lemma ReadPcmData(samples: seq<real>, k: nat)
    requires k < |samples|
    ensures ReadInt16(PcmData(samples), 2 * k) == Quantize(samples[k])
  {
    PcmDataSample(samples, k);
    ReadInt16OfBytes(Quantize(samples[k]));
    assert PcmData(samples)[2 * k + 1] == PcmData(samples)[2 * k..2 * k + 2][1];
  }
}
