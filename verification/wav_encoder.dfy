/** `audioBufferToWav`: serializes an `AudioBuffer` as a 16-bit PCM RIFF/WAVE
    file, a 44-byte header followed by the samples. `WavFile` states the
    file's layout; `AudioBufferToWav` performs the `DataView` writes of the
    source in their order and is proved to produce exactly that layout. */
module WavEncoder {
  import opened Bytes
  import opened Pcm16
  import opened AudioBuffers

  const HEADER_SIZE: nat := 44
  /** Audio format code of uncompressed PCM. */
  const PCM_FORMAT: nat := 1
  /** Bits per sample; each sample takes BIT_DEPTH / 8 = 2 bytes. */
  const BIT_DEPTH: nat := 16
  /** Size of the "fmt " chunk body. */
  const FMT_CHUNK_SIZE: nat := 16
  /** Bytes of the RIFF chunk that precede the data: everything in the
      header after the chunk-size field. */
  const RIFF_OVERHEAD: nat := 36

  /** Two equally long channels interleaved frame by frame, left first. */
  function Interleave<T>(left: seq<T>, right: seq<T>): (r: seq<T>)
    requires |left| == |right|
    ensures |r| == |left| + |right|
    ensures forall i | 0 <= i < |left| :: r[2 * i] == left[i] && r[2 * i + 1] == right[i]
    decreases |left|
  {
    if |left| == 0 then []
    else [left[0], right[0]] + Interleave(left[1..], right[1..])
  }

  /** The samples the file carries (`result` in the source): both channels
      interleaved for a stereo buffer, and for every other channel count
      channel 0 alone. */
  function WavSamples(b: AudioBuffer): (result: seq<real>)
    requires b.Valid()
    ensures b.NumberOfChannels() == 2 ==> |result| == 2 * b.Length()
    ensures b.NumberOfChannels() != 2 ==> |result| == b.Length()
  {
    if b.NumberOfChannels() == 2 then Interleave(b.channels[0], b.channels[1])
    else b.channels[0]
  }

  /** The 44-byte RIFF/WAVE header for PCM data of `dataLength` bytes. */
  function Header(numChannels: nat, sampleRate: nat, dataLength: nat): (h: seq<byte>)
    ensures |h| == HEADER_SIZE
  {
    var blockAlign := numChannels * 2;
    CharCodes("RIFF") + Uint32Bytes(RIFF_OVERHEAD + dataLength) + CharCodes("WAVE")
    + CharCodes("fmt ") + Uint32Bytes(FMT_CHUNK_SIZE) + Uint16Bytes(PCM_FORMAT)
    + Uint16Bytes(numChannels) + Uint32Bytes(sampleRate) + Uint32Bytes(sampleRate * blockAlign)
    + Uint16Bytes(blockAlign) + Uint16Bytes(BIT_DEPTH)
    + CharCodes("data") + Uint32Bytes(dataLength)
  }

  /** The data chunk body: every sample quantized, two bytes each, low byte
      first. */
  function PcmData(samples: seq<real>): (bs: seq<byte>)
    ensures |bs| == 2 * |samples|
  {
    seq(2 * |samples|, j requires 0 <= j < 2 * |samples| =>
      Int16Bytes(Quantize(samples[j / 2]))[j % 2])
  }

  /** The file `audioBufferToWav` produces: the header for the written
      samples, then their data. */
  function WavFile(b: AudioBuffer): (w: seq<byte>)
    requires b.Valid()
    ensures |w| == HEADER_SIZE + 2 * |WavSamples(b)|
    ensures w[..HEADER_SIZE] == Header(b.NumberOfChannels(), b.sampleRate, 2 * |WavSamples(b)|)
    ensures w[HEADER_SIZE..] == PcmData(WavSamples(b))
  {
    var samples := WavSamples(b);
    Header(b.NumberOfChannels(), b.sampleRate, 2 * |samples|) + PcmData(samples)
  }

  /** Where each header field sits: the header is its thirteen fields at
      their fixed offsets. */
  lemma HeaderSlices(numChannels: nat, sampleRate: nat, dataLength: nat)
    ensures var h := Header(numChannels, sampleRate, dataLength);
      && h[0..4] == CharCodes("RIFF")
      && h[4..8] == Uint32Bytes(RIFF_OVERHEAD + dataLength)
      && h[8..12] == CharCodes("WAVE")
      && h[12..16] == CharCodes("fmt ")
      && h[16..20] == Uint32Bytes(FMT_CHUNK_SIZE)
      && h[20..22] == Uint16Bytes(PCM_FORMAT)
      && h[22..24] == Uint16Bytes(numChannels)
      && h[24..28] == Uint32Bytes(sampleRate)
      && h[28..32] == Uint32Bytes(sampleRate * (numChannels * 2))
      && h[32..34] == Uint16Bytes(numChannels * 2)
      && h[34..36] == Uint16Bytes(BIT_DEPTH)
      && h[36..40] == CharCodes("data")
      && h[40..44] == Uint32Bytes(dataLength)
  {
    var blockAlign := numChannels * 2;
    var p0 := CharCodes("RIFF");
    var p1 := p0 + Uint32Bytes(RIFF_OVERHEAD + dataLength);
    var p2 := p1 + CharCodes("WAVE");
    var p3 := p2 + CharCodes("fmt ");
    var p4 := p3 + Uint32Bytes(FMT_CHUNK_SIZE);
    var p5 := p4 + Uint16Bytes(PCM_FORMAT);
    var p6 := p5 + Uint16Bytes(numChannels);
    var p7 := p6 + Uint32Bytes(sampleRate);
    var p8 := p7 + Uint32Bytes(sampleRate * blockAlign);
    var p9 := p8 + Uint16Bytes(blockAlign);
    var p10 := p9 + Uint16Bytes(BIT_DEPTH);
    var p11 := p10 + CharCodes("data");
    var h := p11 + Uint32Bytes(dataLength);
    assert h == Header(numChannels, sampleRate, dataLength);
    assert h[..40] == p10 + CharCodes("data");
    assert h[..36] == p10;
    assert h[..34] == p9;
    assert h[..32] == p8;
    assert h[..28] == p7;
    assert h[..24] == p6;
    assert h[..22] == p5;
    assert h[..20] == p4;
    assert h[..16] == p3;
    assert h[..12] == p2;
    assert h[..8] == p1;
    assert h[..4] == p0;
  }

  /** Writing the next field of an expected layout extends the prefix of the
      buffer that already matches it, and leaves the rest alone. */
  lemma WriteNext(expected: seq<byte>, k: nat, piece: seq<byte>, view: seq<byte>)
    requires k + |piece| <= |expected| <= |view|
    requires view[..k] == expected[..k]
    requires expected[k..k + |piece|] == piece
    ensures Write(view, k, piece)[..k + |piece|] == expected[..k + |piece|]
    ensures Write(view, k, piece)[|expected|..] == view[|expected|..]
  {
    var r := Write(view, k, piece);
    assert r[..k + |piece|] == view[..k] + piece;
    assert expected[..k + |piece|] == expected[..k] + expected[k..k + |piece|];
  }

  /** Writing `data` at the end of a buffer that has exactly room for it
      keeps the bytes before it. */
  lemma WriteTail(prefix: seq<byte>, view: seq<byte>, data: seq<byte>)
    requires |view| == |prefix| + |data| && view[..|prefix|] == prefix
    ensures Write(view, |prefix|, data) == prefix + data
  {
  }

  /** Appending a sample to the input appends its two bytes to the data. */
  lemma PcmDataAppend(input: seq<real>, i: nat)
    requires i < |input|
    ensures PcmData(input[..i + 1]) == PcmData(input[..i]) + Int16Bytes(Quantize(input[i]))
  {
    var a, b := PcmData(input[..i + 1]), PcmData(input[..i]) + Int16Bytes(Quantize(input[i]));
    forall j | 0 <= j < |a|
      ensures a[j] == b[j]
    {
      if j < 2 * i {
        assert input[..i + 1][j / 2] == input[..i][j / 2];
      }
    }
  }

  /** Sample `i` of the data occupies bytes `2i` and `2i + 1`, low byte
      first. */
  lemma PcmDataSample(samples: seq<real>, i: nat)
    requires i < |samples|
    ensures PcmData(samples)[2 * i..2 * i + 2] == Int16Bytes(Quantize(samples[i]))
    ensures PcmData(samples)[2 * i] == ToUint16(Quantize(samples[i])) % TWO_8
    ensures PcmData(samples)[2 * i + 1] == ToUint16(Quantize(samples[i])) / TWO_8
  {
    var d := PcmData(samples);
    assert d[2 * i] == Int16Bytes(Quantize(samples[i]))[0];
    assert d[2 * i + 1] == Int16Bytes(Quantize(samples[i]))[1];
  }

  /** One step of `floatTo16BitPCM`: writing sample `i` after the first `i`
      extends the written data by that sample's two bytes. */
  lemma PcmStep(output: seq<byte>, offset: nat, input: seq<real>, i: nat, before: seq<byte>)
    requires i < |input| && offset + 2 * |input| <= |output|
    requires before == output[..offset] + PcmData(input[..i]) + output[offset + 2 * i..]
    ensures SetInt16(before, offset + 2 * i, Scale(Clamp(input[i])))
         == output[..offset] + PcmData(input[..i + 1]) + output[offset + 2 * i + 2..]
  {
    PcmDataAppend(input, i);
    var expected := output[..offset] + PcmData(input[..i + 1]);
    WriteNext(expected, offset + 2 * i, Int16Bytes(Quantize(input[i])), before);
  }

  /** After the data is written at `offset`, sample `i` reads back as its
      quantized value. */
  lemma ReadWrittenSample(output: seq<byte>, offset: nat, input: seq<real>, i: nat)
    requires i < |input| && offset + 2 * |input| <= |output|
    ensures ReadInt16(Write(output, offset, PcmData(input)), offset + 2 * i) == Quantize(input[i])
  {
    var r := Write(output, offset, PcmData(input));
    PcmDataSample(input, i);
    assert r[offset + 2 * i..offset + 2 * i + 2] == Int16Bytes(Quantize(input[i]));
    ReadInt16OfBytes(Quantize(input[i]));
  }

  /** `writeString`: one `setUint8` per character, at consecutive offsets. */
  method WriteString(view: seq<byte>, offset: nat, s: string) returns (r: seq<byte>)
    requires offset + |s| <= |view|
    ensures |r| == |view|
    ensures forall i | 0 <= i < |s| :: r[offset + i] == ToUint8(s[i] as int)
    ensures forall j | 0 <= j < |view| && !(offset <= j < offset + |s|) :: r[j] == view[j]
    ensures r == Write(view, offset, CharCodes(s))
  {
    r := view;
    for i := 0 to |s|
      invariant r == view[..offset] + CharCodes(s[..i]) + view[offset + i..]
    {
      r := SetUint8(r, offset + i, s[i] as int);
      assert CharCodes(s[..i + 1]) == CharCodes(s[..i]) + [ToUint8(s[i] as int)];
    }
    assert s[..|s|] == s;
  }

  /** `floatTo16BitPCM`: one `setInt16` per sample, two bytes apart, of the
      clamped and asymmetrically scaled sample. */
  method FloatTo16BitPCM(output: seq<byte>, offset: nat, input: seq<real>) returns (r: seq<byte>)
    requires offset + 2 * |input| <= |output|
    ensures |r| == |output|
    ensures forall i | 0 <= i < |input| :: ReadInt16(r, offset + 2 * i) == Quantize(input[i])
    ensures forall j | 0 <= j < |output| && !(offset <= j < offset + 2 * |input|) :: r[j] == output[j]
    ensures r == Write(output, offset, PcmData(input))
  {
    r := output;
    var position := offset;
    for i := 0 to |input|
      invariant position == offset + 2 * i
      invariant r == output[..offset] + PcmData(input[..i]) + output[position..]
    {
      PcmStep(output, offset, input, i, r);
      r := SetInt16(r, position, Scale(Clamp(input[i])));
      position := position + 2;
    }
    assert input[..|input|] == input;
    WrittenData(output, offset, input);
  }

  /** What the data written at `offset` means: each sample reads back from
      its own two bytes, and no other byte changes. */
  lemma WrittenData(output: seq<byte>, offset: nat, input: seq<real>)
    requires offset + 2 * |input| <= |output|
    ensures var r := Write(output, offset, PcmData(input));
      && (forall i | 0 <= i < |input| :: ReadInt16(r, offset + 2 * i) == Quantize(input[i]))
      && (forall j | 0 <= j < |output| && !(offset <= j < offset + 2 * |input|) :: r[j] == output[j])
  {
    forall i | 0 <= i < |input|
      ensures ReadInt16(Write(output, offset, PcmData(input)), offset + 2 * i) == Quantize(input[i])
    {
      ReadWrittenSample(output, offset, input, i);
    }
  }

  /** The header writes of `audioBufferToWav`, in the source's order:
      together they store exactly `Header` and touch nothing past it. */
  method WriteHeader(view: seq<byte>, numChannels: nat, sampleRate: nat, dataLength: nat)
    returns (r: seq<byte>)
    requires HEADER_SIZE <= |view|
    ensures |r| == |view|
    ensures r[..HEADER_SIZE] == Header(numChannels, sampleRate, dataLength)
    ensures r[HEADER_SIZE..] == view[HEADER_SIZE..]
  {
    var h := Header(numChannels, sampleRate, dataLength);
    var blockAlign := numChannels * 2;
    HeaderSlices(numChannels, sampleRate, dataLength);
    r := WriteString(view, 0, "RIFF");
    WriteNext(h, 0, CharCodes("RIFF"), view);
    ghost var before := r;
    r := SetUint32(r, 4, RIFF_OVERHEAD + dataLength);
    WriteNext(h, 4, Uint32Bytes(RIFF_OVERHEAD + dataLength), before);
    before := r;
    r := WriteString(r, 8, "WAVE");
    WriteNext(h, 8, CharCodes("WAVE"), before);
    before := r;
    r := WriteString(r, 12, "fmt ");
    WriteNext(h, 12, CharCodes("fmt "), before);
    before := r;
    r := SetUint32(r, 16, FMT_CHUNK_SIZE);
    WriteNext(h, 16, Uint32Bytes(FMT_CHUNK_SIZE), before);
    before := r;
    r := SetUint16(r, 20, PCM_FORMAT);
    WriteNext(h, 20, Uint16Bytes(PCM_FORMAT), before);
    before := r;
    r := SetUint16(r, 22, numChannels);
    WriteNext(h, 22, Uint16Bytes(numChannels), before);
    before := r;
    r := SetUint32(r, 24, sampleRate);
    WriteNext(h, 24, Uint32Bytes(sampleRate), before);
    before := r;
    r := SetUint32(r, 28, sampleRate * blockAlign);
    WriteNext(h, 28, Uint32Bytes(sampleRate * blockAlign), before);
    before := r;
    r := SetUint16(r, 32, blockAlign);
    WriteNext(h, 32, Uint16Bytes(blockAlign), before);
    before := r;
    r := SetUint16(r, 34, BIT_DEPTH);
    WriteNext(h, 34, Uint16Bytes(BIT_DEPTH), before);
    before := r;
    r := WriteString(r, 36, "data");
    WriteNext(h, 36, CharCodes("data"), before);
    before := r;
    r := SetUint32(r, 40, dataLength);
    WriteNext(h, 40, Uint32Bytes(dataLength), before);
  }

  /** The stereo branch of `audioBufferToWav`: a zero-filled array of
      `|left| + |right|` samples, then left sample `i` stored at `2i` and
      right sample `i` at `2i + 1`. */
  method InterleaveChannels(left: seq<real>, right: seq<real>) returns (result: seq<real>)
    requires |left| == |right|
    ensures result == Interleave(left, right)
  {
    result := seq(|left| + |right|, _ => 0.0);
    for i := 0 to |left|
      invariant |result| == |left| + |right|
      invariant forall j | 0 <= j < i :: result[2 * j] == left[j] && result[2 * j + 1] == right[j]
    {
      result := result[2 * i := left[i]][2 * i + 1 := right[i]];
    }
    forall k | 0 <= k < |result|
      ensures result[k] == Interleave(left, right)[k]
    {
      var i := k / 2;
      var interleaved := Interleave(left, right);
      if k % 2 == 0 {
        assert k == 2 * i && interleaved[2 * i] == left[i];
      } else {
        assert k == 2 * i + 1 && interleaved[2 * i + 1] == right[i];
      }
    }
  }

  /** `audioBufferToWav`, write by write: the result has exactly the layout
      `WavFile` describes. */
  method AudioBufferToWav(buffer: AudioBuffer) returns (view: seq<byte>)
    requires buffer.Valid()
    ensures view == WavFile(buffer)
  {
    var numChannels := buffer.NumberOfChannels();
    var sampleRate := buffer.sampleRate;
    var result: seq<real>;
    if numChannels == 2 {
      result := InterleaveChannels(buffer.GetChannelData(0), buffer.GetChannelData(1));
    } else {
      result := buffer.GetChannelData(0);
    }
    assert result == WavSamples(buffer);

    var dataLength := |result| * 2;
    view := seq(HEADER_SIZE + dataLength, _ => 0);
    view := WriteHeader(view, numChannels, sampleRate, dataLength);
    ghost var withHeader := view;
    view := FloatTo16BitPCM(view, HEADER_SIZE, result);
    WriteTail(withHeader[..HEADER_SIZE], withHeader, PcmData(result));
  }
}
