/** The calls the firmware makes into the synthesis library (oscillators,
    envelopes, portamento, LFOs). Their effect lives in library code that is
    not part of this model, so each call is recorded as an event, oldest first. */
module Calls {

  datatype Osc = Osc1 | Osc2
  datatype Env = Env1 | Env2
  datatype Lfo = Lfo1 | Lfo2
  datatype Stage = Attack | Decay | Sustain | Release

  /** The 8192-cell tables an audio oscillator can be switched to. */
  datatype OscTable = Saw8192 | Sin8192 | SmoothSquare8192 | TriangleWarm8192 | WhiteNoise8192

  /** The 2048-cell tables an LFO can be switched to. */
  datatype LfoTable = Sin2048 | Saw2048 | SquareNoAlias2048 | Triangle2048

  datatype Event =
    | SetOscTable(osc: Osc, table: OscTable)         // oscN.setTable
    | SetLfoTable(lfo: Lfo, ltable: LfoTable)        // LFOn.setTable
    | SetSlideTime(ms: int)                          // slide1.setTime and slide2.setTime
    | SetEnvLevel(env: Env, stage: Stage, level: int) // envN.setAttackLevel, ...
    | SetEnvTime(env: Env, stage: Stage, time: int)   // envN.setAttackTime, ...
    | SetLfoFreq(lfo: Lfo, tenthsHz: int)            // LFOn.setFreq(val / 10.0f)
    | NoteOn(osc1Note: int, osc2Note: int)           // slide1/2.start, env1/2.noteOn
    | NoteOff                                        // env1/2.noteOff
}
