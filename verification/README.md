# PCM/WAV codec of the audio-drama workshop, in Dafny

The application turns a notes document into a two-voice dialogue and has a
speech service read it aloud. The service returns raw audio as base64 text:
16-bit signed little-endian PCM, mono, 24000 samples per second. The only
logic the application itself implements lives in `services/audioUtils.ts`.

- `decodeBase64Audio` turns the payload into a one-channel `AudioBuffer`.
  It base64-decodes the text (`atob`), copies the character codes into
  bytes, reads the bytes as `Int16Array` values and divides each by 32768.
- `audioBufferToWav` turns an `AudioBuffer` into a downloadable RIFF/WAVE
  file. It interleaves a stereo buffer, writes a 44-byte header through a
  `DataView`, and stores each sample as 16-bit PCM. Each sample is clamped
  to [-1, 1], multiplied by 32768 when negative and by 32767 otherwise, and
  truncated toward zero by `setInt16`. `writeString` and `floatTo16BitPCM`
  are its helpers.

The model is a set of pure functions over integers, reals and byte
sequences, with one module per concern.

| file | module | what it holds |
|---|---|---|
| `results.dfy` | `Results` | `Option` and `Result` |
| `bytes.dfy` | `Bytes` | ECMAScript ToIntegerOrInfinity, ToUint8, ToUint16, ToUint32 and ToInt16; `DataView` writes and little-endian reads on a byte sequence |
| `pcm16.dfy` | `Pcm16` | one sample's clamp, scale and quantization, and its dequantization |
| `base64.dfy` | `Base64` | the forgiving-base64 decode that `atob` performs (as the WHATWG Infra standard defines it), and the encoder of section 4 of RFC 4648 as its partner |
| `audio_buffer.dfy` | `AudioBuffers` | the `AudioBuffer`: a sample rate and one sample sequence per channel |
| `wav_encoder.dfy` | `WavEncoder` | the file layout `WavFile`, and `AudioBufferToWav`, which performs the source's writes in order and is proved to produce that layout |
| `wav_layout.dfy` | `WavLayout` | header fields and sample positions, read back from `WavFile` |
| `pcm_decoder.dfy` | `PcmDecoder` | `DecodeBase64Audio` and its steps |
| `round_trip.dfy` | `RoundTrip` | the encoder and the decoder composed in both orders |

Fields are stated as the bytes a reader sees (`ReadUint32(w, 4)` and so on).
The 32-bit and 16-bit fields are reduced modulo 2^32 and 2^16, exactly as
`setUint32` and `setUint16` store them. Where no field wraps, the lemmas
also state the plain identities: RIFF size = file length − 8, byte rate =
sample rate × block align, and block align = 2 × channels.

Three behaviours of the code are easy to misread:
- A sample of 0.5 encodes to 16383, not to 16384: 0.5 × 32767 = 16383.5,
  and `setInt16` truncates it. `Pcm16.QuantizeExamples` states the code's
  values.
- A buffer with other than two channels is not rejected. Only channel 0 is
  written, and the header still records the full channel count
  (`WavLayout.WavOtherChannelCounts`, `WavLayout.ExtraChannelsDropped`).
- The decoder's two failures are named after what throws: `atob`
  (`InvalidCharacter`) and the `Int16Array` constructor on an odd byte
  count (`OddByteLength`). An empty payload makes `createBuffer` throw in
  the code; the model does not reproduce that (see "## Left out").

Samples are real numbers. For samples that are Float32 values, the products
`s * 0x8000` and `s * 0x7FFF` are exact in double precision (24 + 15 bits).
So are the quotients `k / 32768`, which are also exact in Float32. The
arithmetic of the model is therefore the arithmetic of the code.

## Model

| member | source | states |
|---|---|---|
| `Bytes.Truncate` | services/audioUtils.ts:72 | the integer `setInt16` takes from a Number lies within one of it, on the same side of zero and not farther from zero: truncation toward zero, not rounding |
| `Bytes.ToInt16` | services/audioUtils.ts:72 | ToInt16 keeps in-range values, always lands in [-32768, 32767] and changes a value only by a multiple of 2^16 |
| `Bytes.ReadInt16OfBytes` | services/audioUtils.ts:72 | the two bytes `setInt16` stores for `v` read back, as an `Int16Array` element, as ToInt16(v) |
| `Bytes.Int16BytesOfRead` | services/audioUtils.ts:90 | conversely, every byte pair is the 16-bit encoding of the value read from it, so the little-endian codec is a bijection |
| `Bytes.ReadUint32OfBytes` | services/audioUtils.ts:33 | a 32-bit little-endian field reads back as the written value modulo 2^32 |
| `Bytes.Uint32BytesOfRead` | services/audioUtils.ts:33 | every four bytes are the 32-bit encoding of the value read from them |
| `Pcm16.Clamp` | services/audioUtils.ts:71 | the clamp lands in [-1, 1], keeps values already there, and sends values above 1 to 1 and below -1 to -1 |
| `Pcm16.Quantize` | services/audioUtils.ts:71-72 | each output lies in [-32768, 32767]; inputs at or beyond ±1 give 32767 and -32768; otherwise the output is the input times 32767 (non-negative) or 32768 (negative), truncated toward zero |
| `Pcm16.Dequantize` | services/audioUtils.ts:93 | a decoded sample lies in [-1, 1) and times 32768 gives back the 16-bit value |
| `Pcm16.QuantizeSaturates` | services/audioUtils.ts:71 | a sample and its clamp encode identically, so 2.0 encodes as 1.0 and -2.0 as -1.0 |
| `Pcm16.QuantizeMonotone` | services/audioUtils.ts:71-72 | a larger sample never encodes to a smaller value |
| `Pcm16.RequantizeDecoded` | services/audioUtils.ts:93 | decoding a 16-bit value and quantizing again gives it back when it is ≤ 0 and one less when it is > 0: never more than one step off |
| `Pcm16.DecodedQuantizeError` | services/audioUtils.ts:72 | quantizing a sample in [-1, 1] and decoding it errs by less than one step (1/32768) below zero and by less than two steps from zero up to full scale, always toward zero |
| `Pcm16.QuantizeExamples` | services/audioUtils.ts:71-72 | 1.0, -1.0, 0.5, -0.5, 0.0, 2.0 and -2.0 encode to 32767, -32768, 16383, -16384, 0, 32767 and -32768 |
| `Base64.ForgivingDecode` | services/audioUtils.ts:82 | `atob` fails exactly when, after whitespace and padding removal, the length leaves remainder 1 mod 4 or a non-alphabet character remains, and otherwise yields three bytes per four characters |
| `Base64.DecodeOfEncode` | services/audioUtils.ts:82 | decoding the RFC 4648 encoding of any byte sequence gives that sequence back |
| `Base64.DecodeOfUnpadded` | services/audioUtils.ts:82 | padding is optional: the alphabet characters of an encoding without their `=` padding decode to the same bytes |
| `Base64.DecodeIgnoresWhitespace` | services/audioUtils.ts:82 | inserting an ASCII whitespace character anywhere never changes what `atob` returns or whether it throws |
| `WavEncoder.Interleave` | services/audioUtils.ts:11-18 | the stereo result has `|L| + |R|` samples with `L[i]` at `2i` and `R[i]` at `2i + 1` |
| `WavEncoder.InterleaveChannels` | services/audioUtils.ts:11-18 | the source's zero-filled array and index loop produce exactly the interleaving |
| `WavEncoder.WavSamples` | services/audioUtils.ts:10-21 | the written samples number twice the frame count for stereo and the frame count for any other channel count |
| `WavEncoder.WriteString` | services/audioUtils.ts:63-67 | character `i` is stored, as ToUint8 of its code, at `offset + i`, and no other byte changes |
| `WavEncoder.FloatTo16BitPCM` | services/audioUtils.ts:69-74 | sample `i` reads back from `offset + 2i` as its quantized value, and no byte outside the data range changes |
| `WavEncoder.WriteHeader` | services/audioUtils.ts:30-55 | the thirteen header writes store exactly the 44-byte header and touch nothing past offset 44 |
| `WavEncoder.Header` | services/audioUtils.ts:30-55 | the header is 44 bytes; `WavEncoder.HeaderSlices` places each of its fields |
| `WavEncoder.PcmData` | services/audioUtils.ts:57-58 | the data chunk holds two bytes per sample |
| `WavEncoder.PcmDataSample` | services/audioUtils.ts:69-73 | sample `i` occupies data bytes `2i` and `2i + 1`, low byte first, as the little-endian 16-bit encoding of its quantized value |
| `WavEncoder.WavFile` | services/audioUtils.ts:26-58 | the file is `44 + 2n` bytes for `n` written samples: the header for those samples, then their data |
| `WavEncoder.HeaderSlices` | services/audioUtils.ts:30-55 | each header field sits at its fixed offset with its fixed width |
| `WavEncoder.AudioBufferToWav` | services/audioUtils.ts:2-61 | the source's sequence of `DataView` writes produces exactly the file layout: the header followed by the quantized samples |
| `WavLayout.WavSizes` | services/audioUtils.ts:26-55 | the file is `44 + 2n` bytes for `n` samples; the data size at 40 is `2n` and the RIFF size at 4 is `36 + 2n`, which is the file length − 8, both modulo 2^32 |
| `WavLayout.WavFixedFields` | services/audioUtils.ts:31-53 | "RIFF" at 0, "WAVE" at 8, "fmt " at 12 and "data" at 36; format chunk size 16 at 16, format 1 at 20 and 16 bits per sample at 34 |
| `WavLayout.WavFormatFields` | services/audioUtils.ts:23-49 | channel count at 22, sample rate at 24, block align = 2 × channels at 32 and byte rate = rate × block align at 28, each at its field width, and equal to one another when nothing wraps |
| `WavLayout.FormatConsistency` | services/audioUtils.ts:46-49 | without wrap-around, block align is twice the channel count and byte rate is the sample rate times block align |
| `WavLayout.WavSamplePlacement` | services/audioUtils.ts:69-73 | sample `i` occupies bytes `44 + 2i` (low byte) and `45 + 2i` (high byte) and reads back as its quantized value |
| `WavLayout.HeaderIgnoresSampleValues` | services/audioUtils.ts:57-58 | the first 44 bytes depend only on channel count, rate and length: the sample writes never reach the header |
| `WavLayout.WavStereoFrames` | services/audioUtils.ts:11-18 | a stereo frame `i` is stored as the left sample at `44 + 4i` and the right sample at `46 + 4i` |
| `WavLayout.WavOtherChannelCounts` | services/audioUtils.ts:19-21 | with other than two channels, the file carries channel 0 alone while offset 22 still holds the full channel count |
| `WavLayout.ExtraChannelsDropped` | services/audioUtils.ts:19-21 | with other than two channels, channels 1 and up never affect the file |
| `WavLayout.MonoExample` | services/audioUtils.ts:69-73 | mono samples 1.0, -1.0, 0.5, -0.5, 0.0 make a 54-byte file holding 32767, -32768, 16383, -16384, 0 |
| `PcmDecoder.Atob` | services/audioUtils.ts:82 | the binary string exists exactly when base64 decoding succeeds, has one character per decoded byte, and every character code is below 256 |
| `PcmDecoder.CharCodesOfAtob` | services/audioUtils.ts:83-87 | copying the binary string's character codes into a `Uint8Array` recovers exactly the bytes the base64 text encodes |
| `PcmDecoder.Int16View` | services/audioUtils.ts:90 | an odd byte count is rejected rather than truncated; otherwise there is one 16-bit value per byte pair, and its little-endian encoding is that pair |
| `PcmDecoder.DecodeBase64Audio` | services/audioUtils.ts:77-100 | invalid base64 fails with `InvalidCharacter` and an odd byte count with `OddByteLength`; otherwise the buffer is mono at the caller's rate with `m/2` samples for `m` bytes, each in [-1, 1) and equal to the pair's 16-bit value over 32768 |
| `PcmDecoder.DecodeSucceeds` | services/audioUtils.ts:89-97 | valid base64 of an even number of bytes always decodes, to one sample per byte pair |
| `PcmDecoder.DefaultRate` | services/audioUtils.ts:80 | without a rate argument the buffer is at 24000 Hz |
| `RoundTrip.DecodeThenEncode` | App.tsx:47-48 | the downloaded file of an `m`-byte payload is a `44 + m`-byte mono file at the caller's rate whose sample `k` is the payload's value `k`, one less when that is positive |
| `RoundTrip.EncodeThenDecode` | services/audioUtils.ts:69-94 | the data section of any encoded buffer, sent through base64 and decoded, gives a mono buffer with one sample per encoded sample, equal to that sample quantized and divided by 32768, and less than two steps (2/32768) below and one step above the clamped sample |

## Left out

- `AudioContext.createBuffer`, `getChannelData` and `AudioBuffer` are the plain datatype `AudioBuffer`. Two things that `createBuffer` itself enforces are not modelled: its rejection of a zero-length buffer (so an empty payload decodes here to an empty buffer) and its range of accepted sample rates.
- `ArrayBuffer`, `DataView` and `Blob` are a sequence of bytes. Allocation and the `audio/wav` media type are not modelled.
- `atob` is modelled by its algorithm, the forgiving-base64 decode. JavaScript strings are sequences of `char`, and the UTF-16 code units above U+FFFF are not distinguished.
- `Int16Array` is assumed to use little-endian byte order, the order of every mainstream platform. A big-endian host would read the bytes swapped.
- Samples are real numbers. NaN and infinite samples are out of scope, as is the Float32 rounding of values that are not already Float32 (the code clamps then, and NaN would quantize to 0). The sample rate is a natural number, not a Number.
- The promise (`async`) wrapper of `decodeBase64Audio` is left out. The function is modelled as the value it resolves to or the error it rejects with.
- `App.tsx`, the components, `geminiService.ts`, `fileService.ts`, `constants.ts` and `types.ts` are UI, a network client, document-library wrappers and declarations. They are not part of this model. Only the decode-then-encode order of `App.tsx` appears, in `RoundTrip.DecodeThenEncode`.
