/** The waveshaper applied before and after the filter (`distortion`):
    a gain of `1 + amount/51` followed by a hard clip (mode 0) or a single
    fold-back (mode 1). */
module Distortion {
  import opened Fixed

  const ClipLimit: int := 24500
  const FoldLimit: int := 32768

  /** `1 + amount / 51` with C's division: one step of gain per 51 units. */
  function Gain(amount: int): int {
    1 + CDiv(amount, 51)
  }

  /** The arguments for which `distortion` has no signed 32-bit overflow. */
  predicate Defined(signal: int, amount: int, enabled: bool, mode: int) {
    && IsInt32(signal) && IsInt32(amount)
    && (enabled && (mode == 0 || mode == 1) ==> IsInt32(signal * Gain(amount)))
  }

  /** `signal * Gain(amount)`: the value the two modes shape. */
  function Raw(signal: int, amount: int): int {
    signal * Gain(amount)
  }

  function Distort(signal: int, amount: int, enabled: bool, mode: int): (r: int)
    requires Defined(signal, amount, enabled, mode)
    ensures IsInt32(r)
    ensures enabled && mode == 0 ==> -ClipLimit <= r <= ClipLimit
  {
    if enabled && mode == 0 then
      var output := Raw(signal, amount);
      if output > ClipLimit then ClipLimit
      else if output < -ClipLimit then -ClipLimit
      else output
    else if enabled && mode == 1 then
      var output := Raw(signal, amount);
      if output > FoldLimit then FoldLimit - (output - FoldLimit)
      else if output < -FoldLimit then -FoldLimit - (output + FoldLimit)
      else output
    else
      signal
  }

  /** Disabled, or in a mode other than 0 and 1, the stage passes the signal through. */
  lemma Bypass(signal: int, amount: int, enabled: bool, mode: int)
    requires Defined(signal, amount, enabled, mode)
    requires !enabled || (mode != 0 && mode != 1)
    ensures Distort(signal, amount, enabled, mode) == signal
  {
  }

  /** Mode 0 is a saturation: inside the limits the amplified value is kept,
      outside it is replaced by the nearer limit. */
  lemma ClipSaturates(signal: int, amount: int)
    requires Defined(signal, amount, true, 0)
    ensures var raw, r := Raw(signal, amount), Distort(signal, amount, true, 0);
      && (-ClipLimit <= raw <= ClipLimit ==> r == raw)
      && (raw > ClipLimit ==> r == ClipLimit)
      && (raw < -ClipLimit ==> r == -ClipLimit)
  {
  }

  /** Mode 1 mirrors the excess past the ceiling (or floor) back below it:
      the output is as far inside the limit as the raw value was outside. */
  lemma FoldReflects(signal: int, amount: int)
    requires Defined(signal, amount, true, 1)
    ensures var raw, r := Raw(signal, amount), Distort(signal, amount, true, 1);
      && (-FoldLimit <= raw <= FoldLimit ==> r == raw)
      && (raw > FoldLimit ==> r < FoldLimit && FoldLimit - r == raw - FoldLimit)
      && (raw < -FoldLimit ==> r > -FoldLimit && r - -FoldLimit == -FoldLimit - raw)
  {
  }

  /** The fold happens once: the output stays within the fold limits exactly
      when the raw value is within three times the limit. */
  lemma FoldRange(signal: int, amount: int)
    requires Defined(signal, amount, true, 1)
    ensures var raw, r := Raw(signal, amount), Distort(signal, amount, true, 1);
      -FoldLimit <= r <= FoldLimit <==> -3 * FoldLimit <= raw <= 3 * FoldLimit
  {
  }

  /** Both shapes are odd functions: negating the input negates the output. */
  lemma DistortionIsOdd(signal: int, amount: int, enabled: bool, mode: int)
    requires Defined(signal, amount, enabled, mode)
    requires Defined(-signal, amount, enabled, mode)
    ensures Distort(-signal, amount, enabled, mode) == -Distort(signal, amount, enabled, mode)
  {
    var g := Gain(amount);
    assert Raw(-signal, amount) == (-signal) * g == -(signal * g) == -Raw(signal, amount);
  }

  /** For the GUI's amounts 0..255 the gain runs through 1..6 in steps of 51;
      small negative amounts keep gain 1 because C's division truncates,
      and amounts from -101 to -51 give gain 0, which silences the signal. */
  lemma GainSteps(amount: int)
    ensures 0 <= amount <= 255 ==> 1 <= Gain(amount) <= 6 && Gain(amount) == 1 + amount / 51
    ensures -51 < amount < 51 ==> Gain(amount) == 1
    ensures -101 <= amount <= -51 ==> Gain(amount) == 0
  {
  }
}
