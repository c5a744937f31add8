/** The sample codec of the voice client: conversion between normalised
    audio samples and signed 16-bit PCM (`float32ToInt16`, `int16ToFloat32`).
    Samples are modelled as exact reals; the `Int16Array` store is modelled
    as ECMAScript's ToInt16 conversion (truncate toward zero, then reduce
    modulo 2^16). */
module SampleCodec {

  /** A value an `Int16Array` element can hold. */
  type int16 = x: int | -0x8000 <= x < 0x8000

  const NegativeScale: real := 32768.0   // 0x8000
  const PositiveScale: real := 32767.0   // 0x7FFF

  /** `Math.max(-1, Math.min(1, s))` */
  function Clamp(s: real): (c: real)
    ensures -1.0 <= c <= 1.0
    ensures -1.0 <= s <= 1.0 ==> c == s
    ensures s < -1.0 ==> c == -1.0
    ensures s > 1.0 ==> c == 1.0
  {
    if 1.0 < s then 1.0 else if s < -1.0 then -1.0 else s
  }

  /** Truncation toward zero of a real, the first step of ToInt16. */
  function TruncateTowardZero(x: real): (t: int)
    ensures 0.0 <= x ==> t as real <= x < t as real + 1.0
    ensures x < 0.0 ==> x <= t as real < x + 1.0
  {
    if x < 0.0 then -((-x).Floor) else x.Floor
  }

  /** ECMAScript ToInt16 of an integral value: reduce modulo 2^16 into the
      signed range. */
  function WrapToInt16(t: int): (v: int16)
    ensures (v - t) % 0x1_0000 == 0
    ensures -0x8000 <= t < 0x8000 ==> v == t
  {
    var m := t % 0x1_0000;
    if m < 0x8000 then m else m - 0x1_0000
  }

  /** What `int16Array[i] = x` stores for a finite number `x`. */
  function StoreInt16(x: real): int16
  {
    WrapToInt16(TruncateTowardZero(x))
  }

  /** The value `float32ToInt16` computes before the store (line 203). */
  function Scaled(s: real): (x: real)
    ensures -NegativeScale <= x <= PositiveScale
  {
    var c := Clamp(s);
    if c < 0.0 then c * NegativeScale else c * PositiveScale
  }

  /** One element of `float32ToInt16`: clamp, scale asymmetrically, store. */
  function Quantize(s: real): (v: int16)
    ensures s <= -1.0 ==> v == -0x8000
    ensures 1.0 <= s ==> v == 0x7FFF
    ensures -1.0 <= s < 0.0 ==> v as real - 1.0 < s * NegativeScale <= v as real
    ensures 0.0 <= s <= 1.0 ==> v as real <= s * PositiveScale < v as real + 1.0
    ensures s < 0.0 ==> v <= 0
    ensures 0.0 < s ==> 0 <= v
    ensures s == 0.0 ==> v == 0
  {
    StoreInt16(Scaled(s))
  }

  /** One element of `int16ToFloat32`. */
  function Dequantize(v: int16): (x: real)
    ensures -1.0 <= x <= 1.0
    ensures v == -0x8000 ==> x == -1.0
    ensures v == 0x7FFF ==> x == 1.0
    ensures x < 0.0 <==> v < 0
    ensures x == 0.0 <==> v == 0
  {
    if v < 0 then v as real / NegativeScale else v as real / PositiveScale
  }

  /** The clamp keeps the scaled value inside the int16 range, so the
      modular reduction of the store never changes the truncated value. */
  lemma QuantizeNeverWraps(s: real)
    ensures Quantize(s) == TruncateTowardZero(Scaled(s))
  {
  }

  /** Decoding a PCM sample and encoding it again gives the sample back:
      the scalings are exact inverses on the int16 range. */
  lemma QuantizeDequantize(v: int16)
    ensures Quantize(Dequantize(v)) == v
  {
  }

  /** Quantisation error bound: for a sample in [-1, 1], encoding then
      decoding moves it by at most one positive step, 1/32767. */
  lemma QuantizationError(x: real)
    requires -1.0 <= x <= 1.0
    ensures -1.0 / PositiveScale <= Dequantize(Quantize(x)) - x <= 1.0 / PositiveScale
  {
  }

  /** `float32ToInt16` (lines 199-206): a new array of the same length whose
      element i is the quantised input sample i. */
  method Float32ToInt16(samples: array<real>) returns (pcm: array<int16>)
    ensures pcm.Length == samples.Length
    ensures forall i :: 0 <= i < pcm.Length ==> pcm[i] == Quantize(samples[i])
  {
    pcm := new int16[samples.Length];
    var i := 0;
    while i < samples.Length
      invariant 0 <= i <= samples.Length
      invariant forall k :: 0 <= k < i ==> pcm[k] == Quantize(samples[k])
    {
      var s := Clamp(samples[i]);
      pcm[i] := StoreInt16(if s < 0.0 then s * NegativeScale else s * PositiveScale);
      i := i + 1;
    }
  }

  /** `int16ToFloat32` (lines 217-226): a new array of the same length whose
      element i is the dequantised PCM sample i. */
  method Int16ToFloat32(pcm: array<int16>) returns (samples: array<real>)
    ensures samples.Length == pcm.Length
    ensures forall i :: 0 <= i < samples.Length ==> samples[i] == Dequantize(pcm[i])
  {
    samples := new real[pcm.Length];
    var i := 0;
    while i < pcm.Length
      invariant 0 <= i <= pcm.Length
      invariant forall k :: 0 <= k < i ==> samples[k] == Dequantize(pcm[k])
    {
      var v := pcm[i];
      samples[i] := if v < 0 then v as real / NegativeScale else v as real / PositiveScale;
      i := i + 1;
    }
  }
}
