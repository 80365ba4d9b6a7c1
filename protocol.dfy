/** The message decoder (`checkData`): a stored message `NAME:VALUE` is split
    at its first colon, the value is read as Arduino's `String::toInt` reads
    it, and the name selects a global to assign, a library call to make, or a
    modulation-route entry to set. Unknown names change nothing. */
module Protocol {
  import opened Fixed
  import opened Wrappers
  import opened Calls
  import opened Params
  import M = Matrix

  // ---------------------------------------------------------------------
  // `String::toInt`: `atol` on the characters, i.e. `strtol(s, NULL, 10)`
  // with a 32-bit `long`.

  /** The characters C's `isspace` accepts. */
  predicate IsSpace(c: char) {
    c == ' ' || c == '\t' || c == '\n' || c == '\U{B}' || c == '\U{C}' || c == '\r'
  }

  predicate IsDigit(c: char) {
    '0' <= c <= '9'
  }

  predicate AllDigits(d: seq<char>) {
    forall i :: 0 <= i < |d| ==> IsDigit(d[i])
  }

  /** `s` with its leading white space removed. */
  function SkipSpace(s: seq<char>): (r: seq<char>)
    ensures |r| <= |s|
    ensures r == [] || !IsSpace(r[0])
  {
    if s != [] && IsSpace(s[0]) then SkipSpace(s[1..]) else s
  }

  /** The longest prefix of `s` made of decimal digits. */
  function DigitRun(s: seq<char>): (r: seq<char>)
    ensures r <= s && AllDigits(r)
    ensures |r| < |s| ==> !IsDigit(s[|r|])
  {
    if s == [] || !IsDigit(s[0]) then [] else [s[0]] + DigitRun(s[1..])
  }

  function DigitValue(c: char): int {
    c as int - '0' as int
  }

  /** The number a string of decimal digits denotes (0 for none). */
  function DecimalValue(d: seq<char>): (n: nat)
    requires AllDigits(d)
  {
    if d == [] then 0 else DecimalValue(d[..|d| - 1]) * 10 + DigitValue(d[|d| - 1])
  }

  /** The number the digits at the start of `t` denote. */
  function Magnitude(t: seq<char>): nat {
    DecimalValue(DigitRun(t))
  }

  /** An optional sign followed by digits. */
  function ReadSigned(t: seq<char>): int {
    if t != [] && t[0] == '-' then -(Magnitude(t[1..]) as int)
    else if t != [] && t[0] == '+' then Magnitude(t[1..])
    else Magnitude(t)
  }

  /** `String::toInt`: skip white space, read an optional sign and then as
      many digits as follow; anything after them is ignored, no digits read
      as 0, and a value outside the 32-bit range saturates as `strtol` does. */
  function ToInt(s: seq<char>): (r: int)
    ensures IsInt32(r)
  {
    SaturateInt32(ReadSigned(SkipSpace(s)))
  }

  /** The decimal digits of `n`, most significant first, as the host writes them. */
  function ShowNat(n: nat): (d: seq<char>)
    ensures |d| >= 1 && AllDigits(d)
  {
    if n < 10 then [('0' as int + n) as char]
    else ShowNat(n / 10) + [('0' as int + n % 10) as char]
  }

  /** The decimal text of `v`, with a `-` when it is negative. */
  function Show(v: int): seq<char> {
    if v < 0 then ['-'] + ShowNat(-v) else ShowNat(v)
  }

  // ---------------------------------------------------------------------
  // Names.

  /** What an exact message name selects. */
  datatype Target =
    | Param(g: Global)                        // GLOBAL = val
    | OscTableOf(osc: Osc)                    // OSCn_TABLE
    | LfoTableOf(lfo: Lfo)                    // LFOn_TABLE
    | SlideTime                               // SLIDETIME
    | EnvLevelOf(env: Env, stage: Stage)      // ENVn_AL, _DL, _SL, _RL
    | EnvTimeOf(env: Env, stage: Stage)       // ENVn_A, _D, _S, _R
    | LfoFreqOf(lfo: Lfo)                     // LFOn_FREQ

  /** The name the host sends for each target. */
  function NameOf(t: Target): (r: string)
    ensures |r| > 4
    ensures ':' !in r
  {
    match t
    case Param(g) => ParamName(g)
    case OscTableOf(o) => if o == Osc1 then "OSC1_TABLE" else "OSC2_TABLE"
    case LfoTableOf(l) => if l == Lfo1 then "LFO1_TABLE" else "LFO2_TABLE"
    case SlideTime => "SLIDETIME"
    case EnvLevelOf(e, st) => (
      if e == Env1 then
        match st case Attack => "ENV1_AL" case Decay => "ENV1_DL" case Sustain => "ENV1_SL" case Release => "ENV1_RL"
      else
        match st case Attack => "ENV2_AL" case Decay => "ENV2_DL" case Sustain => "ENV2_SL" case Release => "ENV2_RL")
    case EnvTimeOf(e, st) => (
      if e == Env1 then
        match st case Attack => "ENV1_A" case Decay => "ENV1_D" case Sustain => "ENV1_S" case Release => "ENV1_R"
      else
        match st case Attack => "ENV2_A" case Decay => "ENV2_D" case Sustain => "ENV2_S" case Release => "ENV2_R")
    case LfoFreqOf(l) => if l == Lfo1 then "LFO1_FREQ" else "LFO2_FREQ"
  }

  /** The names of the scalar globals. */
  function ParamName(g: Global): (r: string)
    ensures |r| > 4 && ':' !in r
  {
    match g
    case Octave => "OCTAVE"
    case Osc1Oct => "OSC1_OCT"
    case Osc1Semi => "OSC1_SEMI"
    case Osc1Level => "OSC1_LEVEL"
    case Osc1Fine => "OSC1_FINE"
    case Osc2Oct => "OSC2_OCT"
    case Osc2Semi => "OSC2_SEMI"
    case Osc2Level => "OSC2_LEVEL"
    case Osc2Fine => "OSC2_FINE"
    case NoiseLevel => "NOISE_LEVEL"
    case Env2State => "ENV2_STATE"
    case Lfo1State => "LFO1_STATE"
    case Lfo2State => "LFO2_STATE"
    case PreDistState => "PREDISTSTATE"
    case PreDistAmount => "PREDISTAMOUNT"
    case PreDistMode => "PREDISTMODE"
    case PostDistState => "POSTDISTSTATE"
    case PostDistAmount => "POSTDISTAMOUNT"
    case PostDistMode => "POSTDISTMODE"
    case FilterState => "FILTERSTATE"
    case FilterType => "FILTERTYPE"
    case FilterCutoff => "FILTERCUTOFF"
    case FilterResonance => "FILTERRESONANCE"
  }

  /** The chain of exact-name tests, in the firmware's order, in the groups
      the firmware's comments mark. The test meant for `OSC2_SEMI` compares
      against `OSC1_SEMI` a second time, so no name selects `Param(Osc2Semi)`. */
  function Lookup(name: string): (r: Option<Target>)
    ensures r.Some? ==> NameOf(r.value) == name
    ensures r != Some(Param(Osc2Semi))
  {
    if LookupSelectors(name).Some? then LookupSelectors(name)
    else if LookupOscParams(name).Some? then LookupOscParams(name)
    else if LookupEnv1Params(name).Some? then LookupEnv1Params(name)
    else if LookupEnv2Params(name).Some? then LookupEnv2Params(name)
    else if LookupLfoParams(name).Some? then LookupLfoParams(name)
    else if LookupDistParams(name).Some? then LookupDistParams(name)
    else LookupFilterParams(name)
  }

  /** Table selectors and the portamento time. */
  function LookupSelectors(name: string): (r: Option<Target>)
    ensures r.Some? ==> |name| > 4 && (name[0] == 'O' || name[0] == 'L' || name[0] == 'S')
    ensures r.Some? ==> name[0] == 'S' || name[4] == '_'
    ensures r.Some? ==> NameOf(r.value) == name
    ensures r != Some(Param(Osc2Semi))
  {
    if name == "OSC1_TABLE" then Some(OscTableOf(Osc1))
    else if name == "OSC2_TABLE" then Some(OscTableOf(Osc2))
    else if name == "LFO1_TABLE" then Some(LfoTableOf(Lfo1))
    else if name == "LFO2_TABLE" then Some(LfoTableOf(Lfo2))
    else if name == "SLIDETIME" then Some(SlideTime)
    else None
  }

  /** Oscillator and noise levels, octaves, semitones and fine tuning. */
  function LookupOscParams(name: string): (r: Option<Target>)
    ensures r.Some? ==> |name| > 4 && (name[0] == 'O' || name[0] == 'N')
    ensures r != Some(Param(Osc2Semi))
    ensures r.Some? ==> NameOf(r.value) == name
  {
    if name == "OCTAVE" then Some(Param(Octave))
    else if name == "OSC1_OCT" then Some(Param(Osc1Oct))
    else if name == "OSC1_SEMI" then Some(Param(Osc1Semi))
    else if name == "OSC1_LEVEL" then Some(Param(Osc1Level))
    else if name == "OSC1_FINE" then Some(Param(Osc1Fine))
    else if name == "OSC2_OCT" then Some(Param(Osc2Oct))
    else if name == "OSC2_LEVEL" then Some(Param(Osc2Level))
    else if name == "OSC2_FINE" then Some(Param(Osc2Fine))
    else if name == "NOISE_LEVEL" then Some(Param(NoiseLevel))
    else None
  }

  /** Amplitude envelope levels and times. */
  function LookupEnv1Params(name: string): (r: Option<Target>)
    ensures r.Some? ==> |name| > 3 && (name[0] == 'E' && name[3] == '1')
    ensures r.Some? ==> NameOf(r.value) == name
    ensures r != Some(Param(Osc2Semi))
  {
    if name == "ENV1_AL" then Some(EnvLevelOf(Env1, Attack))
    else if name == "ENV1_DL" then Some(EnvLevelOf(Env1, Decay))
    else if name == "ENV1_SL" then Some(EnvLevelOf(Env1, Sustain))
    else if name == "ENV1_RL" then Some(EnvLevelOf(Env1, Release))
    else if name == "ENV1_A" then Some(EnvTimeOf(Env1, Attack))
    else if name == "ENV1_D" then Some(EnvTimeOf(Env1, Decay))
    else if name == "ENV1_S" then Some(EnvTimeOf(Env1, Sustain))
    else if name == "ENV1_R" then Some(EnvTimeOf(Env1, Release))
    else None
  }

  /** Modulation envelope switch, levels and times. */
  function LookupEnv2Params(name: string): (r: Option<Target>)
    ensures r.Some? ==> |name| > 3 && (name[0] == 'E' && name[3] == '2')
    ensures r.Some? ==> NameOf(r.value) == name
    ensures r != Some(Param(Osc2Semi))
  {
    if name == "ENV2_STATE" then Some(Param(Env2State))
    else if name == "ENV2_AL" then Some(EnvLevelOf(Env2, Attack))
    else if name == "ENV2_DL" then Some(EnvLevelOf(Env2, Decay))
    else if name == "ENV2_SL" then Some(EnvLevelOf(Env2, Sustain))
    else if name == "ENV2_RL" then Some(EnvLevelOf(Env2, Release))
    else if name == "ENV2_A" then Some(EnvTimeOf(Env2, Attack))
    else if name == "ENV2_D" then Some(EnvTimeOf(Env2, Decay))
    else if name == "ENV2_S" then Some(EnvTimeOf(Env2, Sustain))
    else if name == "ENV2_R" then Some(EnvTimeOf(Env2, Release))
    else None
  }

  /** LFO switches and frequencies. */
  function LookupLfoParams(name: string): (r: Option<Target>)
    ensures r.Some? ==> |name| > 4 && name[0] == 'L' && name[4] == '_'
    ensures r.Some? ==> NameOf(r.value) == name
    ensures r != Some(Param(Osc2Semi))
  {
    if name == "LFO1_STATE" then Some(Param(Lfo1State))
    else if name == "LFO1_FREQ" then Some(LfoFreqOf(Lfo1))
    else if name == "LFO2_STATE" then Some(Param(Lfo2State))
    else if name == "LFO2_FREQ" then Some(LfoFreqOf(Lfo2))
    else None
  }

  /** Pre- and post-filter distortion. */
  function LookupDistParams(name: string): (r: Option<Target>)
    ensures r.Some? ==> |name| > 3 && (name[0] == 'P')
    ensures r.Some? ==> NameOf(r.value) == name
    ensures r != Some(Param(Osc2Semi))
  {
    if name == "PREDISTAMOUNT" then Some(Param(PreDistAmount))
    else if name == "PREDISTMODE" then Some(Param(PreDistMode))
    else if name == "PREDISTSTATE" then Some(Param(PreDistState))
    else if name == "POSTDISTAMOUNT" then Some(Param(PostDistAmount))
    else if name == "POSTDISTMODE" then Some(Param(PostDistMode))
    else if name == "POSTDISTSTATE" then Some(Param(PostDistState))
    else None
  }

  /** Filter. */
  function LookupFilterParams(name: string): (r: Option<Target>)
    ensures r.Some? ==> |name| > 3 && (name[0] == 'F')
    ensures r.Some? ==> NameOf(r.value) == name
    ensures r != Some(Param(Osc2Semi))
  {
    if name == "FILTERSTATE" then Some(Param(FilterState))
    else if name == "FILTERTYPE" then Some(Param(FilterType))
    else if name == "FILTERCUTOFF" then Some(Param(FilterCutoff))
    else if name == "FILTERRESONANCE" then Some(Param(FilterResonance))
    else None
  }

  /** Every exact name starts with one of the letters its group allows;
      this rules the earlier groups out of a name without comparing it
      with each of their names. */
  lemma Skip(name: string)
    requires |name| > 4
    ensures (name[0] != 'S' && name[4] != '_') || (name[0] != 'O' && name[0] != 'L' && name[0] != 'S') ==>
      LookupSelectors(name) == None
    ensures name[0] != 'O' && name[0] != 'N' ==> LookupOscParams(name) == None
    ensures name[0] != 'E' || name[3] != '1' ==> LookupEnv1Params(name) == None
    ensures name[0] != 'E' || name[3] != '2' ==> LookupEnv2Params(name) == None
    ensures name[0] != 'L' || name[4] != '_' ==> LookupLfoParams(name) == None
    ensures name[0] != 'P' ==> LookupDistParams(name) == None
    ensures name[0] != 'F' ==> LookupFilterParams(name) == None
  {
  }

  // ---------------------------------------------------------------------
  // Commands.

  /** `oscN.setTable`: the `switch` on the value, cases 0 to 4. */
  function OscTableAt(i: int): OscTable
    requires 0 <= i < 5
  {
    if i == 0 then Saw8192
    else if i == 1 then Sin8192
    else if i == 2 then SmoothSquare8192
    else if i == 3 then TriangleWarm8192
    else WhiteNoise8192
  }

  /** `LFOn.setTable`: the `switch` on the value, cases 0 to 3. */
  function LfoTableAt(i: int): LfoTable
    requires 0 <= i < 4
  {
    if i == 0 then Sin2048
    else if i == 1 then Saw2048
    else if i == 2 then SquareNoAlias2048
    else Triangle2048
  }

  /** What one message does to the firmware's state. */
  datatype Command =
    | Assign(g: Global, v: int)                                    // a global takes a new value
    | Call(e: Event)                                               // a library call is made
    | SetRoute(src: M.Source, field: M.RouteField, index: int, v: int) // one route-table entry changes
    | Ignore                                                       // nothing happens

  /** The effect of an exact name selecting `t` with value `val`; a table
      number outside its `switch` does nothing. */
  function Select(t: Target, val: int): (c: Command)
    ensures c.Assign? <==> t.Param?
    ensures c.Assign? ==> c.g == t.g && c.v == val
    ensures !c.SetRoute?
  {
    match t
    case Param(g) => Assign(g, val)
    case OscTableOf(o) => if 0 <= val < 5 then Call(SetOscTable(o, OscTableAt(val))) else Ignore
    case LfoTableOf(l) => if 0 <= val < 4 then Call(SetLfoTable(l, LfoTableAt(val))) else Ignore
    case SlideTime => Call(SetSlideTime(val))
    case EnvLevelOf(e, st) => Call(SetEnvLevel(e, st, val))
    case EnvTimeOf(e, st) => Call(SetEnvTime(e, st, val))
    case LfoFreqOf(l) => Call(SetLfoFreq(l, val))
  }

  /** The prefix that names one column of one route table. */
  function RoutePrefix(src: M.Source, field: M.RouteField): (r: string)
    ensures |r| >= 9 && ':' !in r
    ensures r[0] == 'E' || r[0] == 'L'
    ensures r[0] == 'E' ==> r[3] != '1' && r[3] != '2'
    ensures r[4] != '_'
  {
    match (src, field)
    case (Env2, VarNdx) => "ENVVARNDX"
    case (Env2, Amount) => "ENVAMOUNT_"
    case (Env2, ModType) => "ENVMODTYPE"
    case (Lfo1, VarNdx) => "LFO1VARNDX"
    case (Lfo1, Amount) => "LFO1AMOUNT_"
    case (Lfo1, ModType) => "LFO1MODTYPE"
    case (Lfo2, VarNdx) => "LFO2VARNDX"
    case (Lfo2, Amount) => "LFO2AMOUNT_"
    case (Lfo2, ModType) => "LFO2MODTYPE"
  }

  /** The chain of `startsWith` tests on the whole message, in the firmware's
      order. Every route prefix starts `ENV` or `LFO` and has a letter, not
      `_` or a digit, at position 3 or 4. */
  function Family(message: string): (r: Option<(M.Source, M.RouteField)>)
    ensures r.Some? ==> RoutePrefix(r.value.0, r.value.1) <= message
    ensures r.Some? ==> |message| > 8 && ':' !in message[..9]
    ensures r.Some? ==> message[0] == 'E' || message[0] == 'L'
  {
    if "ENVVARNDX" <= message then Some((M.Env2, M.VarNdx))
    else if "ENVAMOUNT_" <= message then Some((M.Env2, M.Amount))
    else if "ENVMODTYPE" <= message then Some((M.Env2, M.ModType))
    else if "LFO1VARNDX" <= message then Some((M.Lfo1, M.VarNdx))
    else if "LFO1AMOUNT_" <= message then Some((M.Lfo1, M.Amount))
    else if "LFO1MODTYPE" <= message then Some((M.Lfo1, M.ModType))
    else if "LFO2VARNDX" <= message then Some((M.Lfo2, M.VarNdx))
    else if "LFO2AMOUNT_" <= message then Some((M.Lfo2, M.Amount))
    else if "LFO2MODTYPE" <= message then Some((M.Lfo2, M.ModType))
    else None
  }

  /** `indexOf`: the position of the first `c` in `s`, or -1. */
  function IndexOf(s: seq<char>, c: char): (r: int)
    ensures -1 <= r < |s|
    ensures r >= 0 ==> s[r] == c && c !in s[..r]
    ensures r < 0 ==> c !in s
  {
    if s == [] then -1
    else if s[0] == c then 0
    else
      var k := IndexOf(s[1..], c);
      assert s[1..][..k + 1] == s[..k + 2][1..];
      if k < 0 then -1 else k + 1
  }

  /** `checkData`: split the message at its first colon (no colon: nothing
      happens) and read the value after it. An exact name selects its
      target; otherwise a route prefix at the start of the message selects a
      route column, and the one character before the colon selects the slot. */
  function Decode(message: string): (c: Command)
    ensures c.Assign? ==> IsInt32(c.v) && c.g != Osc2Semi
    ensures c.SetRoute? ==> 0 <= c.index < M.NumModValues && IsInt32(c.v)
    ensures ':' !in message ==> c == Ignore
    ensures (&& IndexOf(message, ':') >= 0
             && Lookup(message[..IndexOf(message, ':')]).None?
             && Family(message).None?) ==> c == Ignore
  {
    var colon := IndexOf(message, ':');
    if colon < 0 then Ignore
    else
      var val := ToInt(message[colon + 1..]);
      var t := Lookup(message[..colon]);
      var f := Family(message);
      if t.Some? then Select(t.value, val)
      else if f.None? then Ignore
      else
        assert colon >= 9;
        RouteEntry(f.value.0, f.value.1, message[colon - 1..colon], val)
  }

  /** A route message: the slot text is read by `toInt` and must give a
      slot in 0..8, or nothing happens. */
  function RouteEntry(src: M.Source, field: M.RouteField, slot: string, val: int): (c: Command)
    ensures c.SetRoute? ==> 0 <= c.index < M.NumModValues && c.v == val
    ensures c.SetRoute? || c == Ignore
  {
    var index := ToInt(slot);
    if 0 <= index < M.NumModValues then SetRoute(src, field, index, val) else Ignore
  }

  // ---------------------------------------------------------------------
  // Properties.

  lemma {:induction false} DigitRunOfDigits(d: seq<char>, rest: seq<char>)
    requires AllDigits(d)
    requires rest == [] || !IsDigit(rest[0])
    ensures DigitRun(d + rest) == d
  {
    if d != [] {
      assert (d + rest)[1..] == d[1..] + rest;
      DigitRunOfDigits(d[1..], rest);
    }
  }

  lemma {:induction false} DecimalValueOfShow(n: nat)
    ensures DecimalValue(ShowNat(n)) == n
  {
    if n >= 10 {
      var d := ShowNat(n);
      assert d[..|d| - 1] == ShowNat(n / 10);
      DecimalValueOfShow(n / 10);
    }
  }

  lemma MagnitudeOfShow(n: nat, rest: seq<char>)
    requires rest == [] || !IsDigit(rest[0])
    ensures Magnitude(ShowNat(n) + rest) == n
  {
    DigitRunOfDigits(ShowNat(n), rest);
    DecimalValueOfShow(n);
  }

  /** `toInt` reads back the decimal text of any number, whatever non-digit
      text follows it; a number outside the 32-bit range comes back
      saturated. */
  lemma ToIntReadsDecimal(v: int, rest: seq<char>)
    requires rest == [] || !IsDigit(rest[0])
    ensures ToInt(Show(v) + rest) == SaturateInt32(v)
  {
    if v < 0 {
      ToIntNegative(-v, rest);
      assert Show(v) == ['-'] + ShowNat(-v);
    } else {
      ToIntNonNegative(v, rest);
      assert Show(v) == ShowNat(v);
    }
  }

  lemma ToIntNegative(n: nat, rest: seq<char>)
    requires rest == [] || !IsDigit(rest[0])
    ensures ToInt(['-'] + ShowNat(n) + rest) == SaturateInt32(-(n as int))
  {
    AppendAssoc(['-'], ShowNat(n), rest);
    ReadsNegative(n, rest);
  }

  lemma ToIntNonNegative(n: nat, rest: seq<char>)
    requires rest == [] || !IsDigit(rest[0])
    ensures ToInt(ShowNat(n) + rest) == SaturateInt32(n)
  {
    ReadsNonNegative(n, rest);
  }

  lemma ReadsNonNegative(n: nat, rest: seq<char>)
    requires rest == [] || !IsDigit(rest[0])
    ensures ReadSigned(SkipSpace(ShowNat(n) + rest)) == n
  {
    StartsWithDigit(n, rest);
    MagnitudeOfShow(n, rest);
  }

  lemma StartsWithDigit(n: nat, rest: seq<char>)
    ensures SkipSpace(ShowNat(n) + rest) == ShowNat(n) + rest
    ensures ReadSigned(ShowNat(n) + rest) == Magnitude(ShowNat(n) + rest)
  {
    assert IsDigit((ShowNat(n) + rest)[0]);
  }

  lemma ReadsNegative(n: nat, rest: seq<char>)
    requires rest == [] || !IsDigit(rest[0])
    ensures ReadSigned(SkipSpace(['-'] + (ShowNat(n) + rest))) == -(n as int)
  {
    StartsWithMinus(ShowNat(n) + rest);
    MagnitudeOfShow(n, rest);
  }

  lemma StartsWithMinus(s: seq<char>)
    ensures SkipSpace(['-'] + s) == ['-'] + s
    ensures ReadSigned(['-'] + s) == -(Magnitude(s) as int)
  {
    assert (['-'] + s)[1..] == s;
  }

  lemma {:induction false} SkipSpaceOfSpaces(ws: seq<char>, s: seq<char>)
    requires forall i :: 0 <= i < |ws| ==> IsSpace(ws[i])
    ensures SkipSpace(ws + s) == SkipSpace(s)
  {
    if ws != [] {
      assert (ws + s)[1..] == ws[1..] + s;
      SkipSpaceOfSpaces(ws[1..], s);
    } else {
      assert ws + s == s;
    }
  }

  /** Leading white space does not change what `toInt` reads. */
  lemma ToIntSkipsSpace(ws: seq<char>, s: seq<char>)
    requires forall i :: 0 <= i < |ws| ==> IsSpace(ws[i])
    ensures ToInt(ws + s) == ToInt(s)
  {
    SkipSpaceOfSpaces(ws, s);
  }

  /** The one-character slot index: a digit reads as its value and any other
      character as 0. */
  lemma ToIntOneChar(c: char)
    ensures ToInt([c]) == if IsDigit(c) then DigitValue(c) else 0
  {
    assert [c][1..] == [];
    if IsSpace(c) {
      assert SkipSpace([c]) == [];
    } else {
      assert SkipSpace([c]) == [c];
      if IsDigit(c) {
        assert DigitRun([c]) == [c];
        assert [c][..0] == [];
        assert DecimalValue([c]) == DecimalValue([]) * 10 + DigitValue(c);
      }
    }
  }

  /** The first colon of `name + ":" + rest` is the one after `name`. */
  lemma ColonAfterName(name: string, rest: string)
    requires ':' !in name
    ensures IndexOf(name + ":" + rest, ':') == |name|
  {
    var m := name + ":" + rest;
    assert m[|name|] == ':' && m[..|name|] == name;
  }

  /** An exact name, followed by a colon and a number, is decoded into its
      target's command (the `OSC2_SEMI` name excepted). */
  lemma DecodeName(t: Target, v: int)
    requires t != Param(Osc2Semi) && IsInt32(v)
    ensures Decode(NameOf(t) + ":" + Show(v)) == Select(t, v)
  {
    var name := NameOf(t);
    var m := name + ":" + Show(v);
    LookupNameOf(t);
    ColonAfterName(name, Show(v));
    assert m[..|name|] == name;
    assert m[|name| + 1..] == Show(v) + [];
    ToIntReadsDecimal(v, []);
  }

  /** Every name but `OSC2_SEMI` selects the target it names. */
  lemma LookupNameOf(t: Target)
    requires t != Param(Osc2Semi)
    ensures Lookup(NameOf(t)) == Some(t)
  {
    match t
    case Param(g) =>
      match g {
      case Octave | Osc1Oct | Osc1Semi => NamesOsc1(g);
      case Osc1Level | Osc1Fine => NamesOsc1Mix(g);
      case Osc2Oct | Osc2Level | Osc2Fine | NoiseLevel => NamesOsc2(g);
      case Env2State | Lfo1State | Lfo2State => NamesSwitches(g);
      case PreDistState | PreDistAmount | PreDistMode => NamesPreDist(g);
      case PostDistState | PostDistAmount | PostDistMode => NamesPostDist(g);
      case FilterState | FilterType => NamesFilterMode(g);
      case FilterCutoff | FilterResonance => NamesFilterTone(g);
      }
    case OscTableOf(_) => NamesSelectors(t);
    case LfoTableOf(_) => NamesSelectors(t);
    case SlideTime => NamesSelectors(t);
    case EnvLevelOf(e, st) => if e == Env1 { NamesEnv1Levels(st); } else { NamesEnv2Levels(st); }
    case EnvTimeOf(e, st) => if e == Env1 { NamesEnv1Times(st); } else { NamesEnv2Times(st); }
    case LfoFreqOf(l) => NamesLfoFreq(l);
  }

  lemma NamesSelectors(t: Target)
    requires t.OscTableOf? || t.LfoTableOf? || t.SlideTime?
    ensures Lookup(NameOf(t)) == Some(t)
  {
    Skip(NameOf(t));
  }

  lemma NamesOsc1(g: Global)
    requires g in {Octave, Osc1Oct, Osc1Semi}
    ensures Lookup(NameOf(Param(g))) == Some(Param(g))
  {
    Skip(NameOf(Param(g)));
  }

  lemma NamesOsc1Mix(g: Global)
    requires g in {Osc1Level, Osc1Fine}
    ensures Lookup(NameOf(Param(g))) == Some(Param(g))
  {
    Skip(NameOf(Param(g)));
  }

  lemma NamesOsc2(g: Global)
    requires g in {Osc2Oct, Osc2Level, Osc2Fine, NoiseLevel}
    ensures Lookup(NameOf(Param(g))) == Some(Param(g))
  {
    Skip(NameOf(Param(g)));
  }

  lemma NamesSwitches(g: Global)
    requires g in {Env2State, Lfo1State, Lfo2State}
    ensures Lookup(NameOf(Param(g))) == Some(Param(g))
  {
    Skip(NameOf(Param(g)));
  }

  lemma NamesPreDist(g: Global)
    requires g in {PreDistState, PreDistAmount, PreDistMode}
    ensures Lookup(NameOf(Param(g))) == Some(Param(g))
  {
    Skip(NameOf(Param(g)));
  }

  lemma NamesPostDist(g: Global)
    requires g in {PostDistState, PostDistAmount, PostDistMode}
    ensures Lookup(NameOf(Param(g))) == Some(Param(g))
  {
    Skip(NameOf(Param(g)));
  }

  lemma NamesFilterMode(g: Global)
    requires g in {FilterState, FilterType}
    ensures Lookup(NameOf(Param(g))) == Some(Param(g))
  {
    Skip(NameOf(Param(g)));
  }

  lemma NamesFilterTone(g: Global)
    requires g in {FilterCutoff, FilterResonance}
    ensures Lookup(NameOf(Param(g))) == Some(Param(g))
  {
    Skip(NameOf(Param(g)));
  }

  lemma NamesEnv1Levels(st: Stage)
    ensures Lookup(NameOf(EnvLevelOf(Env1, st))) == Some(EnvLevelOf(Env1, st))
  {
    Skip(NameOf(EnvLevelOf(Env1, st)));
  }

  lemma NamesEnv2Levels(st: Stage)
    ensures Lookup(NameOf(EnvLevelOf(Env2, st))) == Some(EnvLevelOf(Env2, st))
  {
    Skip(NameOf(EnvLevelOf(Env2, st)));
  }

  lemma NamesEnv1Times(st: Stage)
    ensures Lookup(NameOf(EnvTimeOf(Env1, st))) == Some(EnvTimeOf(Env1, st))
  {
    Skip(NameOf(EnvTimeOf(Env1, st)));
  }

  lemma NamesEnv2Times(st: Stage)
    ensures Lookup(NameOf(EnvTimeOf(Env2, st))) == Some(EnvTimeOf(Env2, st))
  {
    Skip(NameOf(EnvTimeOf(Env2, st)));
  }

  lemma NamesLfoFreq(l: Lfo)
    ensures Lookup(NameOf(LfoFreqOf(l))) == Some(LfoFreqOf(l))
  {
    Skip(NameOf(LfoFreqOf(l)));
  }

  /** No route name is an exact name, so the route branches see it. */
  lemma RouteNameUnknown(src: M.Source, field: M.RouteField, d: char)
    ensures Lookup(RoutePrefix(src, field) + [d]) == None
  {
    var p := RoutePrefix(src, field);
    var name := p + [d];
    assert name[0] == p[0] && name[3] == p[3] && name[4] == p[4];
    Skip(name);
  }

  /** The firmware runs every test of `checkData` one after another, so a
      message could in principle both match an exact name and start with a
      route prefix. No message does: a name the exact tests accept never
      starts with a route prefix, so the two kinds of branches are disjoint. */
  lemma ExactNamesAreNotRoutes(message: string)
    requires IndexOf(message, ':') >= 0
    requires Lookup(message[..IndexOf(message, ':')]).Some?
    ensures Family(message) == None
  {
    var colon := IndexOf(message, ':');
    var name := message[..colon];
    if Family(message).Some? {
      var p := RoutePrefix(Family(message).value.0, Family(message).value.1);
      assert colon >= 9;
      assert name[0] == p[0] && name[3] == p[3] && name[4] == p[4];
      Skip(name);
      assert false;
    }
  }

  /** The route prefix a message starts with selects its route column. */
  lemma FamilyOfPrefix(src: M.Source, field: M.RouteField, rest: string)
    ensures Family(RoutePrefix(src, field) + rest) == Some((src, field))
  {
    var p := RoutePrefix(src, field);
    var m := p + rest;
    assert p <= m by {
      assert m[..|p|] == p;
    }
    match src
    case Env2 => FamilyOfEnv2(field, m);
    case Lfo1 => FamilyOfLfo1(field, m);
    case Lfo2 => FamilyOfLfo2(field, m);
  }

  lemma FamilyOfEnv2(field: M.RouteField, m: string)
    requires RoutePrefix(M.Env2, field) <= m
    ensures Family(m) == Some((M.Env2, field))
  {
    match field
    case VarNdx =>
    case Amount => assert m[3] == 'A';
    case ModType => assert m[3] == 'M';
  }

  lemma FamilyOfLfo1(field: M.RouteField, m: string)
    requires RoutePrefix(M.Lfo1, field) <= m
    ensures Family(m) == Some((M.Lfo1, field))
  {
    assert m[0] == 'L';
    match field
    case VarNdx =>
    case Amount => assert m[4] == 'A';
    case ModType => assert m[4] == 'M';
  }

  lemma FamilyOfLfo2(field: M.RouteField, m: string)
    requires RoutePrefix(M.Lfo2, field) <= m
    ensures Family(m) == Some((M.Lfo2, field))
  {
    assert !("ENVVARNDX" <= m) && !("ENVAMOUNT_" <= m) && !("ENVMODTYPE" <= m) by {
      assert m[0] == 'L';
    }
    assert !("LFO1VARNDX" <= m) && !("LFO1AMOUNT_" <= m) && !("LFO1MODTYPE" <= m) by {
      assert m[3] == '2';
    }
    match field
    case VarNdx =>
    case Amount => assert m[4] == 'A';
    case ModType => assert m[4] == 'M';
  }

  lemma RouteHasNoColon(src: M.Source, field: M.RouteField, d: char)
    requires d != ':'
    ensures ':' !in RoutePrefix(src, field) + [d]
  {
  }

  /** A message whose name is not an exact name goes to the route branches. */
  lemma DecodeUnknownName(m: string, colon: int, src: M.Source, field: M.RouteField)
    requires 0 <= colon && IndexOf(m, ':') == colon && Lookup(m[..colon]) == None
    requires Family(m) == Some((src, field))
    ensures Decode(m) == RouteEntry(src, field, m[colon - 1..colon], ToInt(m[colon + 1..]))
  {
  }

  /** A route message `PREFIXd:v` sets entry `d` of that column when the
      character `d` is a digit 0..8, sets entry 0 when it is not a digit
      at all, and is dropped when it is the digit 9. */
  lemma DecodeRouteMessage(src: M.Source, field: M.RouteField, d: char, v: int)
    requires d != ':' && IsInt32(v)
    ensures Decode(RoutePrefix(src, field) + [d] + ":" + Show(v)) ==
      if !IsDigit(d) then SetRoute(src, field, 0, v)
      else if d == '9' then Ignore
      else SetRoute(src, field, DigitValue(d), v)
  {
    var name := RoutePrefix(src, field) + [d];
    var m := name + ":" + Show(v);
    RouteMessageName(src, field, d, v);
    RouteMessageValue(src, field, d, v);
    DecodeUnknownName(m, |name|, src, field);
    RouteEntryOfChar(src, field, d, v);
  }

  lemma RouteMessageName(src: M.Source, field: M.RouteField, d: char, v: int)
    requires d != ':'
    ensures var name := RoutePrefix(src, field) + [d];
      var m := name + ":" + Show(v);
      && IndexOf(m, ':') == |name|
      && Lookup(m[..|name|]) == None
      && m[|name| - 1..|name|] == [d]
  {
    var name := RoutePrefix(src, field) + [d];
    var m := name + ":" + Show(v);
    RouteHasNoColon(src, field, d);
    ColonAfterName(name, Show(v));
    assert m[..|name|] == name;
    RouteNameUnknown(src, field, d);
    assert m[|name| - 1..|name|] == [d];
  }

  lemma RouteMessageValue(src: M.Source, field: M.RouteField, d: char, v: int)
    requires IsInt32(v)
    ensures var name := RoutePrefix(src, field) + [d];
      var m := name + ":" + Show(v);
      && Family(m) == Some((src, field))
      && ToInt(m[|name| + 1..]) == v
  {
    var p := RoutePrefix(src, field);
    var name := p + [d];
    var m := name + ":" + Show(v);
    assert Family(m) == Some((src, field)) by {
      AppendAssoc(p, [d], ":");
      AppendAssoc(p, [d] + ":", Show(v));
      FamilyOfPrefix(src, field, [d] + ":" + Show(v));
    }
    assert ToInt(m[|name| + 1..]) == v by {
      assert m[|name| + 1..] == Show(v) + [];
      ToIntReadsDecimal(v, []);
    }
  }

  lemma RouteEntryOfChar(src: M.Source, field: M.RouteField, d: char, v: int)
    ensures RouteEntry(src, field, [d], v) ==
      if !IsDigit(d) then SetRoute(src, field, 0, v)
      else if d == '9' then Ignore
      else SetRoute(src, field, DigitValue(d), v)
  {
    ToIntOneChar(d);
  }

  lemma Osc2SemiUnknown()
    ensures Lookup("OSC2_SEMI") == None
  {
    Skip("OSC2_SEMI");
  }

  /** `OSC2_SEMI` is not among the names tested: the second oscillator's
      semitone offset cannot be set over the serial link. */
  lemma Osc2SemiIgnored(v: int)
    ensures Decode("OSC2_SEMI" + ":" + Show(v)) == Ignore
  {
    var m := "OSC2_SEMI" + ":" + Show(v);
    ColonAfterName("OSC2_SEMI", Show(v));
    assert m[..9] == "OSC2_SEMI";
    Osc2SemiUnknown();
    assert m[0] == 'O';
  }

  /** A table number outside the firmware's `switch` changes nothing. */
  lemma TableOutOfRange(o: Osc, l: Lfo, v: int)
    ensures Select(OscTableOf(o), v) != Ignore <==> 0 <= v < 5
    ensures Select(LfoTableOf(l), v) != Ignore <==> 0 <= v < 4
  {
  }

  /** Different table numbers select different tables. */
  lemma DistinctTableNumbers(i: int, j: int)
    ensures 0 <= i < 5 && 0 <= j < 5 && OscTableAt(i) == OscTableAt(j) ==> i == j
    ensures 0 <= i < 4 && 0 <= j < 4 && LfoTableAt(i) == LfoTableAt(j) ==> i == j
  {
  }

  /** Every table has a number that selects it. */
  lemma EveryTableSelectable(w: OscTable, lw: LfoTable)
    ensures exists i :: 0 <= i < 5 && OscTableAt(i) == w
    ensures exists i :: 0 <= i < 4 && LfoTableAt(i) == lw
  {
    match w {
    case Saw8192 => assert OscTableAt(0) == w;
    case Sin8192 => assert OscTableAt(1) == w;
    case SmoothSquare8192 => assert OscTableAt(2) == w;
    case TriangleWarm8192 => assert OscTableAt(3) == w;
    case WhiteNoise8192 => assert OscTableAt(4) == w;
    }
    match lw {
    case Sin2048 => assert LfoTableAt(0) == lw;
    case Saw2048 => assert LfoTableAt(1) == lw;
    case SquareNoAlias2048 => assert LfoTableAt(2) == lw;
    case Triangle2048 => assert LfoTableAt(3) == lw;
    }
  }
}
