/** The scalar parameters the host GUI can change: the firmware's global
    variables, gathered in one value. */
module Params {

  /** One scalar global of the firmware. */
  datatype Global =
    | Octave | Osc1Oct | Osc1Semi | Osc1Level | Osc1Fine
    | Osc2Oct | Osc2Semi | Osc2Level | Osc2Fine | NoiseLevel
    | Env2State | Lfo1State | Lfo2State
    | PreDistState | PreDistAmount | PreDistMode
    | PostDistState | PostDistAmount | PostDistMode
    | FilterState | FilterType | FilterCutoff | FilterResonance

  /** The globals declared `bool`; assigning an `int` to them stores `val != 0`. */
  predicate IsFlag(g: Global) {
    g in {Env2State, Lfo1State, Lfo2State, PreDistState, PostDistState}
  }

  /** The value a global holds after `GLOBAL = v`, read back as an int. */
  function Stored(g: Global, v: int): int {
    if IsFlag(g) then (if v != 0 then 1 else 0) else v
  }

  datatype Settings = Settings(
    octave: int, osc1Oct: int, osc1Semi: int, osc1Level: int, osc1Fine: int,
    osc2Oct: int, osc2Semi: int, osc2Level: int, osc2Fine: int, noiseLevel: int,
    env2State: bool, lfo1State: bool, lfo2State: bool,
    preDistState: bool, preDistAmount: int, preDistMode: int,
    postDistState: bool, postDistAmount: int, postDistMode: int,
    filterState: int, filterType: int, filterCutoff: int, filterResonance: int)
  {
    /** The value of global `g`, flags read as 0 or 1. */
    function Get(g: Global): int {
      match g
      case Octave => octave
      case Osc1Oct => osc1Oct
      case Osc1Semi => osc1Semi
      case Osc1Level => osc1Level
      case Osc1Fine => osc1Fine
      case Osc2Oct => osc2Oct
      case Osc2Semi => osc2Semi
      case Osc2Level => osc2Level
      case Osc2Fine => osc2Fine
      case NoiseLevel => noiseLevel
      case Env2State => if env2State then 1 else 0
      case Lfo1State => if lfo1State then 1 else 0
      case Lfo2State => if lfo2State then 1 else 0
      case PreDistState => if preDistState then 1 else 0
      case PreDistAmount => preDistAmount
      case PreDistMode => preDistMode
      case PostDistState => if postDistState then 1 else 0
      case PostDistAmount => postDistAmount
      case PostDistMode => postDistMode
      case FilterState => filterState
      case FilterType => filterType
      case FilterCutoff => filterCutoff
      case FilterResonance => filterResonance
    }

    /** The assignment `g = v`: global `g` reads `Stored(g, v)` afterwards and
        every other global keeps its value. */
    function Set(g: Global, v: int): (s: Settings)
      ensures s.Get(g) == Stored(g, v)
      ensures forall h :: h != g ==> s.Get(h) == Get(h)
    {
      match g
      case Octave => this.(octave := v)
      case Osc1Oct => this.(osc1Oct := v)
      case Osc1Semi => this.(osc1Semi := v)
      case Osc1Level => this.(osc1Level := v)
      case Osc1Fine => this.(osc1Fine := v)
      case Osc2Oct => this.(osc2Oct := v)
      case Osc2Semi => this.(osc2Semi := v)
      case Osc2Level => this.(osc2Level := v)
      case Osc2Fine => this.(osc2Fine := v)
      case NoiseLevel => this.(noiseLevel := v)
      case Env2State => this.(env2State := v != 0)
      case Lfo1State => this.(lfo1State := v != 0)
      case Lfo2State => this.(lfo2State := v != 0)
      case PreDistState => this.(preDistState := v != 0)
      case PreDistAmount => this.(preDistAmount := v)
      case PreDistMode => this.(preDistMode := v)
      case PostDistState => this.(postDistState := v != 0)
      case PostDistAmount => this.(postDistAmount := v)
      case PostDistMode => this.(postDistMode := v)
      case FilterState => this.(filterState := v)
      case FilterType => this.(filterType := v)
      case FilterCutoff => this.(filterCutoff := v)
      case FilterResonance => this.(filterResonance := v)
    }
  }

  /** The values the globals are initialised with. */
  const Defaults: Settings := Settings(
    octave := 4, osc1Oct := 0, osc1Semi := 0, osc1Level := 255, osc1Fine := 0,
    osc2Oct := 0, osc2Semi := 0, osc2Level := 0, osc2Fine := 0, noiseLevel := 0,
    env2State := false, lfo1State := false, lfo2State := false,
    preDistState := false, preDistAmount := 0, preDistMode := 0,
    postDistState := false, postDistAmount := 0, postDistMode := 0,
    filterState := 0, filterType := 0, filterCutoff := 255, filterResonance := 5)

  /** `ptrModValues`: the global each modulation slot 0..8 takes its base value from. */
  const PtrModValues: seq<Global> :=
    [Osc1Level, Osc1Fine, Osc2Level, Osc2Fine, NoiseLevel,
     PreDistAmount, PostDistAmount, FilterCutoff, FilterResonance]

  /** The base values `*ptrModValues[k]` the modulation matrix starts from. */
  function ModBases(s: Settings): (b: seq<int>)
    ensures |b| == |PtrModValues|
    ensures forall k :: 0 <= k < |b| ==> b[k] == s.Get(PtrModValues[k])
  {
    seq(|PtrModValues|, k requires 0 <= k < |PtrModValues| => s.Get(PtrModValues[k]))
  }

  /** The slots alias the globals they point to: assigning a global changes
      exactly the modulation bases of the slots that point to it. */
  lemma ModBasesAfterSet(s: Settings, g: Global, v: int, k: int)
    requires 0 <= k < |PtrModValues|
    ensures ModBases(s.Set(g, v))[k] == if PtrModValues[k] == g then Stored(g, v) else ModBases(s)[k]
  {
  }

  /** At power-up the bases are the initial levels of oscillator 1, the
      filter cutoff and the filter resonance; every other base is 0. */
  lemma DefaultBases()
    ensures ModBases(Defaults) == [255, 0, 0, 0, 0, 0, 0, 255, 5]
  {
  }
}
