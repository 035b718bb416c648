/** Conversion between normalized samples and signed 16-bit PCM values, as
    `floatTo16BitPCM` (one sample) and the decoder's division do it. The
    two directions are deliberately asymmetric: quantizing scales negative
    samples by 2^15 and non-negative ones by 2^15 - 1, while dequantizing
    always divides by 2^15. */
module Pcm16 {
  import opened Bytes

  /** Scale of a negative sample (0x8000). */
  const NEGATIVE_SCALE: real := 32768.0
  /** Scale of a non-negative sample (0x7FFF). */
  const POSITIVE_SCALE: real := 32767.0
  /** Divisor of the decoder. */
  const DECODE_DIVISOR: real := 32768.0

  const MIN_SAMPLE: int := -0x8000
  const MAX_SAMPLE: int := 0x7FFF

  /** `Math.max(-1, Math.min(1, x))`. */
  function Clamp(x: real): (s: real)
    ensures -1.0 <= s <= 1.0
    ensures -1.0 <= x <= 1.0 ==> s == x
    ensures 1.0 < x ==> s == 1.0
    ensures x < -1.0 ==> s == -1.0
  {
    var upper := if x < 1.0 then x else 1.0;
    if upper < -1.0 then -1.0 else upper
  }

  /** The Number handed to `setInt16` for a clamped sample `s`. */
  function Scale(s: real): real
  {
    if s < 0.0 then s * NEGATIVE_SCALE else s * POSITIVE_SCALE
  }

  /** One sample of `floatTo16BitPCM`: clamp, scale asymmetrically, then
      ToInt16, which truncates toward zero. The scaled value never leaves
      the 16-bit range, so ToInt16's wrap-around never fires. */
  function Quantize(x: real): (q: int)
    ensures MIN_SAMPLE <= q <= MAX_SAMPLE
    ensures 1.0 <= x ==> q == MAX_SAMPLE
    ensures x <= -1.0 ==> q == MIN_SAMPLE
    ensures 0.0 <= x <= 1.0 ==> 0 <= q && q as real <= x * POSITIVE_SCALE < q as real + 1.0
    ensures -1.0 <= x < 0.0 ==> q <= 0 && q as real - 1.0 < x * NEGATIVE_SCALE <= q as real
  {
    NumberToInt16(Scale(Clamp(x)))
  }

  /** One sample of the decoder: the 16-bit value divided by 32768. */
  function Dequantize(k: int): (x: real)
    requires MIN_SAMPLE <= k <= MAX_SAMPLE
    ensures -1.0 <= x < 1.0
    ensures x * DECODE_DIVISOR == k as real
  {
    k as real / DECODE_DIVISOR
  }

  /** Samples beyond full scale encode exactly as full scale does. */
  lemma QuantizeSaturates(x: real)
    ensures Quantize(x) == Quantize(Clamp(x))
    ensures 1.0 <= x ==> Quantize(x) == Quantize(1.0)
    ensures x <= -1.0 ==> Quantize(x) == Quantize(-1.0)
  {
  }

  /** Quantizing is monotone: a larger sample never encodes to a smaller
      16-bit value. */
  lemma {:induction false} QuantizeMonotone(x: real, y: real)
    requires x <= y
    ensures Quantize(x) <= Quantize(y)
  {
    var cx, cy := Clamp(x), Clamp(y);
    if cx < 0.0 && 0.0 <= cy {
    } else if cx < 0.0 {
      assert cx * NEGATIVE_SCALE <= cy * NEGATIVE_SCALE;
    } else {
      assert cx * POSITIVE_SCALE <= cy * POSITIVE_SCALE;
    }
  }

  /** Decoding a 16-bit value and quantizing the result again gives the
      value back when it is not positive, and one less when it is: the
      positive scale 32767 is one step short of the divisor 32768. */
  lemma {:induction false} RequantizeDecoded(k: int)
    requires MIN_SAMPLE <= k <= MAX_SAMPLE
    ensures Quantize(Dequantize(k)) == if k <= 0 then k else k - 1
    ensures k - 1 <= Quantize(Dequantize(k)) <= k
  {
    var x := Dequantize(k);
    var q := Quantize(x);
    if k > 0 {
      assert x * POSITIVE_SCALE == k as real - x;
      assert 0.0 < x < 1.0;
    } else {
      assert x * NEGATIVE_SCALE == k as real;
    }
  }

  /** Quantizing a sample in [-1, 1] and decoding it again loses less than
      one quantization step (1/32768) below zero and less than two at and
      above zero, where the error grows towards full scale. The decoded value
      never lies farther from zero than the sample. */
  lemma {:induction false} DecodedQuantizeError(x: real)
    requires -1.0 <= x <= 1.0
    ensures x < 0.0 ==> x <= Dequantize(Quantize(x)) < x + 1.0 / DECODE_DIVISOR
    ensures 0.0 <= x ==> x - (1.0 + x) / DECODE_DIVISOR < Dequantize(Quantize(x)) <= x
    ensures x - 2.0 / DECODE_DIVISOR < Dequantize(Quantize(x)) < x + 1.0 / DECODE_DIVISOR
  {
    var q := Quantize(x);
    var d := Dequantize(q);
    assert d * DECODE_DIVISOR == q as real;
    if x < 0.0 {
      assert q as real - 1.0 < x * NEGATIVE_SCALE <= q as real;
    } else {
      assert q as real <= x * POSITIVE_SCALE < q as real + 1.0;
      assert x * POSITIVE_SCALE == x * DECODE_DIVISOR - x;
    }
  }

  /** The values `floatTo16BitPCM` writes for full scale, half scale and
      zero: 0.5 * 32767 = 16383.5 truncates to 16383, not 16384, while
      -0.5 * 32768 is exactly -16384; values beyond full scale are clamped. */
  lemma QuantizeExamples()
    ensures Quantize(1.0) == 32767 && Quantize(-1.0) == -32768
    ensures Quantize(0.5) == 16383 && Quantize(-0.5) == -16384
    ensures Quantize(0.0) == 0
    ensures Quantize(2.0) == 32767 && Quantize(-2.0) == -32768
  {
  }
}
