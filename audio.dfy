/** One audio tick (`updateAudio`): the two oscillators mixed under the
    first envelope, the pre-filter waveshaper, the selected filter output,
    the post-filter waveshaper and the gated noise, sent to both channels.
    The oscillators, the envelope and the filter are library objects; what
    they return this tick comes in as parameters. */
module Audio {
  import opened Fixed
  import opened Params
  import Distortion
  import M = Matrix

  /** The samples the library objects return this tick: `env1.next()`
      (an unsigned byte) and the 8-bit wavetable samples of the two
      oscillators and the noise oscillator. */
  datatype Voice = Voice(env: int, osc1: int, osc2: int, noise: int) {
    predicate InRange() {
      IsByte(env) && IsInt8(osc1) && IsInt8(osc2) && IsInt8(noise)
    }
  }

  /** The four outputs of the resonant filter after `filter.next(x)`. */
  datatype FilterOut = FilterOut(low: int, band: int, high: int, notch: int) {
    predicate InRange() {
      IsInt32(low) && IsInt32(band) && IsInt32(high) && IsInt32(notch)
    }
  }

  /** The filter types, in the order of the firmware's `enum types`. */
  const Lowpass: int := 0
  const Bandpass: int := 1
  const Highpass: int := 2
  const Notch: int := 3

  /** `modulatedValuesOutput`: nine clamped values. */
  predicate LevelsInRange(levels: seq<int>) {
    |levels| == M.NumModValues && forall k :: 0 <= k < |levels| ==> -255 <= levels[k] <= 255
  }

  /** The largest magnitude of the mixed signal. */
  const MixLimit: int := 24385

  /** `(env * ((s1 * level1 + s2 * level2) >> 8) * 3) >> 3`. */
  function Mix(v: Voice, level1: int, level2: int): int {
    Asr(v.env * Asr(v.osc1 * level1 + v.osc2 * level2, 8) * 3, 3)
  }

  /** The noise added when it is switched on: `(env * noise * level >> 8) >> 2`. */
  function NoiseTerm(v: Voice, level: int): int {
    Asr(Asr(v.env * v.noise * level, 8), 2)
  }

  /** The largest magnitude of the noise term. */
  const NoiseLimit: int := 8129

  /** The output of the filter stage: the input unchanged while the filter is
      off or its type is none of the four, otherwise the selected output. */
  function Filtered(s: Settings, x: int, f: FilterOut): int {
    if s.filterState == 0 then x
    else if s.filterType == Lowpass then f.low
    else if s.filterType == Highpass then f.high
    else if s.filterType == Bandpass then f.band
    else if s.filterType == Notch then f.notch
    else x
  }

  predicate PreDefined(s: Settings, x: int) {
    Distortion.Defined(x, s.preDistAmount, s.preDistState, s.preDistMode)
  }

  predicate PostDefined(s: Settings, x: int) {
    Distortion.Defined(x, s.postDistAmount, s.postDistState, s.postDistMode)
  }

  /** The inputs for which the tick has no signed 32-bit overflow. */
  predicate SampleDefined(s: Settings, levels: seq<int>, v: Voice, f: FilterOut) {
    && v.InRange() && f.InRange() && LevelsInRange(levels)
    && PreDefined(s, Mix(v, levels[0], levels[2]))
    && var pre := Distortion.Distort(Mix(v, levels[0], levels[2]), s.preDistAmount, s.preDistState, s.preDistMode);
       && PostDefined(s, Filtered(s, pre, f))
       && var post := Distortion.Distort(Filtered(s, pre, f), s.postDistAmount, s.postDistState, s.postDistMode);
          (s.noiseLevel != 0 ==> IsInt32(post + NoiseTerm(v, levels[4])))
  }

  /** `outputSignal` at the end of `updateAudio`. The distortion stages take
      the base amounts `PREDISTAMOUNT` and `POSTDISTAMOUNT`, and the noise is
      gated by the base `NOISE_LEVEL` but scaled by its modulated value. */
  function Sample(s: Settings, levels: seq<int>, v: Voice, f: FilterOut): (r: int)
    requires SampleDefined(s, levels, v, f)
    ensures IsInt32(r)
  {
    var pre := Distortion.Distort(Mix(v, levels[0], levels[2]), s.preDistAmount, s.preDistState, s.preDistMode);
    var post := Distortion.Distort(Filtered(s, pre, f), s.postDistAmount, s.postDistState, s.postDistMode);
    if s.noiseLevel != 0 then post + NoiseTerm(v, levels[4]) else post
  }

  /** A stereo frame. */
  datatype Frame = Frame(left: int, right: int)

  /** `StereoOutput::from16Bit(asig, asig)`, before the library's conversion
      to the output width. */
  function Output(s: Settings, levels: seq<int>, v: Voice, f: FilterOut): (r: Frame)
    requires SampleDefined(s, levels, v, f)
    ensures r.left == r.right == Sample(s, levels, v, f)
  {
    var asig := Sample(s, levels, v, f);
    Frame(asig, asig)
  }

  // ---------------------------------------------------------------------
  // Properties.

  /** The mix stays within about three quarters of the 16-bit range, so it
      never reaches the clipping limit of the waveshaper at unit gain. */
  lemma MixBound(v: Voice, level1: int, level2: int)
    requires v.InRange() && -255 <= level1 <= 255 && -255 <= level2 <= 255
    ensures -MixLimit <= Mix(v, level1, level2) <= MixLimit
    ensures Abs(Mix(v, level1, level2)) < Distortion.ClipLimit
  {
    MulBound(v.osc1, 128, level1, 255);
    MulBound(v.osc2, 128, level2, 255);
    var sum := v.osc1 * level1 + v.osc2 * level2;
    assert Pow2(8) == 256;
    var q := Asr(sum, 8);
    assert -255 <= q <= 255;
    MulBound(v.env, 255, q, 255);
    assert Pow2(3) == 8;
  }

  /** The noise term is small, whatever the modulated noise level. */
  lemma NoiseBound(v: Voice, level: int)
    requires v.InRange() && -255 <= level <= 255
    ensures -NoiseLimit <= NoiseTerm(v, level) <= NoiseLimit
  {
    MulBound(v.env, 255, v.noise, 128);
    MulBound(v.env * v.noise, 255 * 128, level, 255);
    assert Pow2(8) == 256 && Pow2(2) == 4;
  }

  /** A mixed signal that any amount up to the 8-bit range can amplify
      without overflow: with such amounts the pre-filter stage is defined. */
  lemma PreStageDefined(s: Settings, v: Voice, level1: int, level2: int)
    requires v.InRange() && -255 <= level1 <= 255 && -255 <= level2 <= 255
    requires 0 <= s.preDistAmount <= 255
    ensures PreDefined(s, Mix(v, level1, level2))
  {
    MixBound(v, level1, level2);
    var x := Mix(v, level1, level2);
    var g := Distortion.Gain(s.preDistAmount);
    assert 1 <= g <= 6;
    MulBound(x, MixLimit, g, 6);
  }

  /** With every effect at its initial setting the output is the dry mix. */
  lemma DefaultsAreDry(levels: seq<int>, v: Voice, f: FilterOut)
    requires SampleDefined(Defaults, levels, v, f)
    ensures Sample(Defaults, levels, v, f) == Mix(v, levels[0], levels[2])
  {
  }

  /** The noise is heard only while the base `NOISE_LEVEL` is non-zero: a
      modulation route onto the noise slot cannot open the gate. */
  lemma NoiseGate(s: Settings, levels: seq<int>, v: Voice, v': Voice, f: FilterOut)
    requires SampleDefined(s, levels, v, f) && SampleDefined(s, levels, v', f)
    requires v'.env == v.env && v'.osc1 == v.osc1 && v'.osc2 == v.osc2
    ensures s.noiseLevel == 0 ==> Sample(s, levels, v, f) == Sample(s, levels, v', f)
    ensures s.noiseLevel != 0 ==>
      Sample(s, levels, v, f) - NoiseTerm(v, levels[4]) == Sample(s, levels, v', f) - NoiseTerm(v', levels[4])
  {
  }

  /** Only the modulated levels of the two oscillators and of the noise
      reach the sample: slots 5 and 6 (the waveshaper amounts) are computed
      by the modulation matrix but never read here. */
  lemma OnlyLevelSlotsMatter(s: Settings, levels: seq<int>, levels': seq<int>, v: Voice, f: FilterOut)
    requires SampleDefined(s, levels, v, f) && LevelsInRange(levels')
    requires levels'[0] == levels[0] && levels'[2] == levels[2] && levels'[4] == levels[4]
    ensures SampleDefined(s, levels', v, f)
    ensures Sample(s, levels', v, f) == Sample(s, levels, v, f)
  {
  }

  /** A closed envelope silences the tick while the filter is off: the
      waveshapers map 0 to 0 in every mode. */
  lemma ClosedEnvelopeIsSilent(s: Settings, levels: seq<int>, v: Voice, f: FilterOut)
    requires SampleDefined(s, levels, v, f)
    requires v.env == 0 && s.filterState == 0
    ensures Sample(s, levels, v, f) == 0
  {
    assert Mix(v, levels[0], levels[2]) == 0;
    assert NoiseTerm(v, levels[4]) == 0;
  }

  /** With the post-filter clipper on and the noise off, the output never
      leaves the clipping limits, whatever the filter returns. */
  lemma ClippedOutput(s: Settings, levels: seq<int>, v: Voice, f: FilterOut)
    requires SampleDefined(s, levels, v, f)
    requires s.postDistState && s.postDistMode == 0 && s.noiseLevel == 0
    ensures -Distortion.ClipLimit <= Sample(s, levels, v, f) <= Distortion.ClipLimit
  {
  }
}
