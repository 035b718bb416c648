/** What a file produced by `audioBufferToWav` says about itself: its size
    fields, its fixed chunk identifiers and format fields, and where each
    sample sits, read back from the bytes with little-endian reads. */
module WavLayout {
  import opened Bytes
  import opened Pcm16
  import opened AudioBuffers
  import opened WavEncoder

  /** A 32-bit field reads back as ToUint32 of the value written there. */
  lemma Field32(w: seq<byte>, offset: nat, x: int)
    requires offset + 4 <= |w| && w[offset..offset + 4] == Uint32Bytes(x)
    ensures ReadUint32(w, offset) == ToUint32(x)
  {
    ReadUint32OfBytes(x);
    assert w[offset + 3] == w[offset..offset + 4][3];
  }

  /** A 16-bit field reads back as ToUint16 of the value written there. */
  lemma Field16(w: seq<byte>, offset: nat, x: int)
    requires offset + 2 <= |w| && w[offset..offset + 2] == Uint16Bytes(x)
    ensures ReadUint16(w, offset) == ToUint16(x)
  {
    ReadUint16OfBytes(x);
    assert w[offset + 1] == w[offset..offset + 2][1];
  }

  /** Length fields: the file is 44 bytes plus two per sample; the data
      chunk size at offset 40 counts the data bytes and the RIFF chunk size
      at offset 4 counts everything after the first 8 bytes, both reduced
      modulo 2^32 as `setUint32` stores them. */
  lemma WavSizes(b: AudioBuffer)
    requires b.Valid()
    ensures var w := WavFile(b); var n := |WavSamples(b)|;
      && |w| == 44 + 2 * n
      && ReadUint32(w, 40) == ToUint32(2 * n)
      && ReadUint32(w, 4) == ToUint32(36 + 2 * n)
      && ReadUint32(w, 4) == ToUint32(|w| - 8)
      && (|w| - 8 < TWO_32 ==> ReadUint32(w, 4) == |w| - 8 && ReadUint32(w, 40) == |w| - 44)
  {
    var w := WavFile(b);
    var n := |WavSamples(b)|;
    HeaderSlices(b.NumberOfChannels(), b.sampleRate, 2 * n);
    assert w[4..8] == w[..HEADER_SIZE][4..8];
    assert w[40..44] == w[..HEADER_SIZE][40..44];
    Field32(w, 4, 36 + 2 * n);
    Field32(w, 40, 2 * n);
  }

  /** Fixed header bytes: "RIFF" at 0, "WAVE" at 8, "fmt " at 12 and
      "data" at 36, one byte per character; the format chunk size 16 at 16,
      format 1 (PCM) at 20 and 16 bits per sample at 34. */
  lemma WavFixedFields(b: AudioBuffer)
    requires b.Valid()
    ensures var w := WavFile(b);
      && w[0..4] == [0x52, 0x49, 0x46, 0x46]
      && w[8..12] == [0x57, 0x41, 0x56, 0x45]
      && w[12..16] == [0x66, 0x6D, 0x74, 0x20]
      && w[36..40] == [0x64, 0x61, 0x74, 0x61]
      && ReadUint32(w, 16) == 16
      && ReadUint16(w, 20) == 1
      && ReadUint16(w, 34) == 16
  {
    var w := WavFile(b);
    var n := |WavSamples(b)|;
    HeaderSlices(b.NumberOfChannels(), b.sampleRate, 2 * n);
    var h := w[..HEADER_SIZE];
    assert w[0..4] == h[0..4] && w[8..12] == h[8..12] && w[12..16] == h[12..16] && w[36..40] == h[36..40];
    assert w[16..20] == h[16..20] && w[20..22] == h[20..22] && w[34..36] == h[34..36];
    Field32(w, 16, FMT_CHUNK_SIZE);
    Field16(w, 20, PCM_FORMAT);
    Field16(w, 34, BIT_DEPTH);
  }

  /** Format fields: the buffer's channel count at 22 and sample rate at 24;
      block align at 32 is two bytes per channel and the byte rate at 28 is
      the sample rate times the block align, each reduced to its field
      width; when nothing wraps, the fields agree with one another. */
  lemma WavFormatFields(b: AudioBuffer)
    requires b.Valid()
    ensures var w := WavFile(b); var channels := b.NumberOfChannels(); var rate := b.sampleRate;
      && ReadUint16(w, 22) == ToUint16(channels)
      && ReadUint32(w, 24) == ToUint32(rate)
      && ReadUint16(w, 32) == ToUint16(channels * 2)
      && ReadUint32(w, 28) == ToUint32(rate * (channels * 2))
      && (channels * 2 < TWO_16 && rate * (channels * 2) < TWO_32 ==>
            && ReadUint16(w, 32) == 2 * ReadUint16(w, 22)
            && ReadUint32(w, 28) == ReadUint32(w, 24) * ReadUint16(w, 32))
  {
    var w := WavFile(b);
    var n := |WavSamples(b)|;
    var channels := b.NumberOfChannels();
    var rate := b.sampleRate;
    HeaderSlices(channels, rate, 2 * n);
    var h := w[..HEADER_SIZE];
    assert w[22..24] == h[22..24] && w[24..28] == h[24..28] && w[28..32] == h[28..32] && w[32..34] == h[32..34];
    Field16(w, 22, channels);
    Field32(w, 24, rate);
    Field32(w, 28, rate * (channels * 2));
    Field16(w, 32, channels * 2);
    if channels * 2 < TWO_16 && rate * (channels * 2) < TWO_32 {
      FormatConsistency(channels, rate);
    }
  }

  /** When neither field wraps, block align is twice the channel count and
      the byte rate is the sample rate times the block align. */
  lemma FormatConsistency(channels: nat, rate: nat)
    requires 1 <= channels && channels * 2 < TWO_16 && rate * (channels * 2) < TWO_32
    ensures ToUint16(channels * 2) == 2 * ToUint16(channels)
    ensures ToUint32(rate * (channels * 2)) == ToUint32(rate) * ToUint16(channels * 2)
  {
    if rate > 0 {
      MulMonotone(channels * 2, rate);
    }
  }

  /** Placement: sample `i` of the data occupies bytes `44 + 2i` (low byte)
      and `45 + 2i` (high byte) and reads back as its quantized value. */
  lemma WavSamplePlacement(b: AudioBuffer, i: nat)
    requires b.Valid() && i < |WavSamples(b)|
    ensures var w := WavFile(b); var q := Quantize(WavSamples(b)[i]);
      && 45 + 2 * i < |w|
      && w[44 + 2 * i] == ToUint16(q) % 256
      && w[45 + 2 * i] == ToUint16(q) / 256
      && ReadInt16(w, 44 + 2 * i) == q
  {
    DataSampleAt(WavFile(b), WavSamples(b), i, 44 + 2 * i);
  }

  /** The same, for any bytes whose data section holds `samples`, with the
      sample's offset `at` named by the caller. */
  lemma DataSampleAt(w: seq<byte>, samples: seq<real>, i: nat, at: nat)
    requires HEADER_SIZE <= |w| && w[HEADER_SIZE..] == PcmData(samples)
    requires i < |samples| && at == HEADER_SIZE + 2 * i
    ensures var q := Quantize(samples[i]);
      && at + 1 < |w|
      && w[at] == ToUint16(q) % 256
      && w[at + 1] == ToUint16(q) / 256
      && ReadInt16(w, at) == q
  {
    var q := Quantize(samples[i]);
    PcmDataSample(samples, i);
    assert w[at..at + 2] == w[HEADER_SIZE..][2 * i..2 * i + 2];
    ReadInt16OfBytes(q);
  }

  /** The header depends on the channel count, the rate and the number of
      samples only: the sample writes never reach below offset 44. */
  lemma HeaderIgnoresSampleValues(b1: AudioBuffer, b2: AudioBuffer)
    requires b1.Valid() && b2.Valid()
    requires b1.NumberOfChannels() == b2.NumberOfChannels() && b1.sampleRate == b2.sampleRate
    requires b1.Length() == b2.Length()
    ensures WavFile(b1)[..HEADER_SIZE] == WavFile(b2)[..HEADER_SIZE]
  {
  }

  /** Stereo: frame `i` is stored as the left sample at `44 + 4i` followed by
      the right sample at `46 + 4i`. */
  lemma WavStereoFrames(b: AudioBuffer, i: nat)
    requires b.Valid() && b.NumberOfChannels() == 2 && i < b.Length()
    ensures var w := WavFile(b);
      && |w| == 44 + 4 * b.Length()
      && ReadInt16(w, 44 + 4 * i) == Quantize(b.channels[0][i])
      && ReadInt16(w, 46 + 4 * i) == Quantize(b.channels[1][i])
  {
    var samples := WavSamples(b);
    assert samples[2 * i] == b.channels[0][i] && samples[2 * i + 1] == b.channels[1][i];
    DataSampleAt(WavFile(b), samples, 2 * i, 44 + 4 * i);
    DataSampleAt(WavFile(b), samples, 2 * i + 1, 46 + 4 * i);
  }

  /** Any channel count other than 2: only channel 0 is written, while the
      header still records the full channel count. */
  lemma WavOtherChannelCounts(b: AudioBuffer, i: nat)
    requires b.Valid() && b.NumberOfChannels() != 2 && i < b.Length()
    ensures var w := WavFile(b);
      && |w| == 44 + 2 * b.Length()
      && ReadUint16(w, 22) == ToUint16(b.NumberOfChannels())
      && ReadInt16(w, 44 + 2 * i) == Quantize(b.channels[0][i])
  {
    WavFormatFields(b);
    WavSamplePlacement(b, i);
  }

  /** Hence, with other than two channels, channels 1 and up never reach the
      file: buffers that agree on the rate, the channel count and channel 0
      encode identically. */
  lemma ExtraChannelsDropped(b1: AudioBuffer, b2: AudioBuffer)
    requires b1.Valid() && b2.Valid() && b1.NumberOfChannels() != 2
    requires b1.NumberOfChannels() == b2.NumberOfChannels() && b1.sampleRate == b2.sampleRate
    requires b1.channels[0] == b2.channels[0]
    ensures WavFile(b1) == WavFile(b2)
  {
  }

  /** Five mono samples at 24000 Hz make a 54-byte file whose samples are
      32767, -32768, 16383, -16384 and 0. */
  lemma MonoExample()
    ensures var b := AudioBuffer(24000, [[1.0, -1.0, 0.5, -0.5, 0.0]]);
      && b.Valid()
      && |WavFile(b)| == 54
      && ReadInt16(WavFile(b), 44) == 32767
      && ReadInt16(WavFile(b), 46) == -32768
      && ReadInt16(WavFile(b), 48) == 16383
      && ReadInt16(WavFile(b), 50) == -16384
      && ReadInt16(WavFile(b), 52) == 0
  {
    var b := AudioBuffer(24000, [[1.0, -1.0, 0.5, -0.5, 0.0]]);
    var w, samples := WavFile(b), WavSamples(b);
    QuantizeExamples();
    DataSampleAt(w, samples, 0, 44);
    DataSampleAt(w, samples, 1, 46);
    DataSampleAt(w, samples, 2, 48);
    DataSampleAt(w, samples, 3, 50);
    DataSampleAt(w, samples, 4, 52);
  }
}
