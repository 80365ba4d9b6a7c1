# Monosynth control core in Dafny

This project models the integer logic of a Mozzi-based monophonic
synthesizer on an ESP32, where `int` is 32 bits wide. It covers:

- the modulation matrix (`modulator`), which routes the secondary envelope
  and the two LFOs onto nine synthesis parameters through three route
  tables;
- the two waveshapers (`distortion`): hard clip and fold-back;
- the key matrix scan (`readKeys`, `writeKeys`) with its byte voice
  counter and its note-on and note-off calls (`handleNoteOn`,
  `handleNoteOff`);
- the serial receiver (`checkSerial`): `<...>` frames into a 32-character
  buffer;
- the message decoder (`checkData`): `NAME:VALUE`, exact parameter names
  and route-table prefixes;
- the arithmetic of one audio sample (`updateAudio`).

Modules:

- `Fixed`: C integer semantics. `Asr` is `>>` on a signed int (floor).
  `CDiv` is `/` (truncation). `ToByte` is a conversion to `byte`.
  `SaturateInt32` is the clamping of `strtol`. Signed overflow is undefined
  behaviour in C, so every operation that could overflow carries a
  precondition excluding it.
- `Calls`: the calls into the synthesis library, recorded as `Event`
  values. The oscillators, envelopes, portamentos and LFOs are library
  objects whose code is not part of this model.
- `Params`: the scalar globals the host can set (`Settings`), their initial
  values, and the `ptrModValues` pointer table (`PtrModValues`).
- `Distortion`: `distortion` as a pure function.
- `Matrix`: what `modulator` computes, stated per target as a sum over
  route slots (`Offset`), plus the clamped outputs (`Modulated`).
- `Keys`: what one `writeKeys` pass computes (`Scan`, built from the
  per-key `Step`) and the voice-counting and gating properties.
- `Framing`: the characters of the serial line, split into frames
  (`Frames`, `OpenFrame`), and the C string the buffer holds (`Buffered`).
- `Protocol`: `String::toInt` (`ToInt`, an `atol`-style parse) and the
  decoding of one message into a `Command`.
- `Audio`: `updateAudio` as a pure function of the library outputs.
- `Engine`: the class `Synth` holds the globals and the static locals. Its
  methods update them in place, with the source's loops. Each method is
  proved against the pure definition in the module above.

Behaviours of the code a reader might not expect:

- Every key press calls `handleNoteOn`, not only the first press while no
  key is held. Pressing A, then B, then releasing B, then releasing A
  gives two note-ons and one note-off (`Keys.TwoKeyGating`).
- The test meant for `OSC2_SEMI` compares against `"OSC1_SEMI"` a second
  time, so `OSC2_SEMI:v` changes nothing (`Protocol.Osc2SemiIgnored`).
- The fold mode reflects once. A raw value beyond three times 32768 comes
  out of range (`Distortion.FoldRange`).
- `updateAudio` passes the base `PREDISTAMOUNT` and `POSTDISTAMOUNT` to
  `distortion`, not the modulated slots 5 and 6. A route onto either slot
  changes `modulatedValuesOutput` but not the sound
  (`Audio.OnlyLevelSlotsMatter`).

## Model

| member | source | states |
|---|---|---|
| Params.Settings.Set | src/main.cpp:744-924 | after `g = v` the global `g` reads `v` (a `bool` global reads 1 for non-zero, else 0); every other global keeps its value |
| Params.ModBasesAfterSet | src/main.cpp:167-177 | the slots alias their globals: assigning a global changes exactly the bases of the slots that point to it, to the stored value, and no other base |
| Params.DefaultBases | src/main.cpp:167-177 | at power-up the bases are 255 for the oscillator 1 level, 255 for the cutoff, 5 for the resonance, and 0 for the rest |
| Distortion.Distort | src/main.cpp:360-399 | the result is a 32-bit int; with the clipper on it lies in [-24500, 24500] |
| Distortion.Bypass | src/main.cpp:360-399 | disabled, or with a mode other than 0 and 1, the signal passes unchanged |
| Distortion.ClipSaturates | src/main.cpp:364-380 | mode 0: a raw value `signal * (1 + amount/51)` inside ±24500 is kept, above it gives 24500, below it gives -24500 |
| Distortion.FoldReflects | src/main.cpp:381-396 | mode 1: a raw value inside ±32768 is kept; beyond ±32768 it is mirrored, at the same distance from the limit, back inside |
| Distortion.FoldRange | src/main.cpp:381-396 | the folded output lies within ±32768 exactly when the raw value lies within ±3·32768 |
| Distortion.DistortionIsOdd | src/main.cpp:360-399 | negating the signal negates the output, in every mode |
| Distortion.GainSteps | src/main.cpp:364 | amounts 0..255 give a gain of 1..6 in steps of 51; truncating division gives gain 1 for -50..50 and 0 for -101..-51 |
| Matrix.Tables.Assign | src/main.cpp:927-1054 | one entry of one column of one table takes the value; every other entry and table is unchanged |
| Matrix.Tables.UnbindAll | src/main.cpp:179-189 | every slot of one table routes nowhere; the other tables are unchanged |
| Matrix.SourceValues.Switch | src/main.cpp:403 | only the enable flag of one source changes |
| Matrix.Clamp255 | src/main.cpp:474-480 | the result lies in [-255, 255]: an input in range is kept, above 255 gives 255, below -255 gives -255 |
| Matrix.Modulated | src/main.cpp:471-481 | every modulated output lies in [-255, 255] |
| Matrix.ContributionBound | src/main.cpp:413-466 | `reading * amount` does not overflow, and one route contributes at most its amount in magnitude |
| Matrix.OffsetBound | src/main.cpp:409-469 | after `n` route slots an offset is at most 3·n times the amount bound |
| Matrix.NoOverflow | src/main.cpp:409-481 | under the route and base bounds, none of the sums of `modulator` overflows |
| Matrix.SilentSourcesAddNothing | src/main.cpp:411-468 | with all three sources switched off every offset is 0 |
| Matrix.Unmodulated | src/main.cpp:471-481 | with all sources off each output is its base global, clamped |
| Matrix.SwitchedOffIsUnbound | src/main.cpp:411-468 | a switched-off source adds exactly what it would add with every slot unbound |
| Matrix.SingleRoute | src/main.cpp:413-466 | a single bound slot `i` adds its contribution to parameter `VarNdx[i]` and to no other parameter |
| Matrix.EnvelopeExample | src/main.cpp:411-481 | envelope 200, amount 128, mode 0, base 100 gives 200 |
| Matrix.LfoExample | src/main.cpp:431-481 | LFO1 at -100, amount 64, bipolar mode, base 50 gives 25 |
| Matrix.ShiftRoundsDown | src/main.cpp:443-447 | `>> 8` rounds toward minus infinity: LFO -1 with amount 1 gives -1 |
| Matrix.RedirectedSlot | src/main.cpp:411-481 | slot 3 with `VarNdx` 7 moves the filter cutoff, and parameter 3 keeps its base |
| Engine.Synth.constructor | src/main.cpp:81-189 | power-up state: initial globals, every route unbound, offsets and modulated outputs all 0, envelope and LFO readings 0, no key held, counter 0, receiver idle |
| Engine.Synth.Modulate | src/main.cpp:403-482 | `modValues[k]` is the sum of the routed contributions to `k`, and `modulatedValuesOutput[k]` is the clamped base plus that offset |
| Engine.Synth.ClearOffsets | src/main.cpp:405-408 | every offset is 0 |
| Engine.Synth.SumRoutes | src/main.cpp:409-469 | starting from zero offsets, each offset is the sum over all nine slots of what the enabled sources route to it |
| Engine.Synth.AddRoute | src/main.cpp:411-468 | one source's block for slot `i` adds the slot's contribution to its target only, and changes it by at most the amount bound |
| Engine.Synth.StoreOutputs | src/main.cpp:471-481 | each output is its `ptrModValues` base plus offset, clamped to [-255, 255] |
| Engine.Synth.ReadKeys | src/main.cpp:523-566 | key `row * 8 + column` is requested exactly when its column reads low in its row's pass |
| Engine.Synth.HandleNoteOn | src/main.cpp:507-515 | exactly one note-on is recorded, with both oscillator notes |
| Engine.Synth.HandleNoteOff | src/main.cpp:517-521 | exactly one note-off is recorded |
| Engine.Synth.WriteKeys | src/main.cpp:568-589 | keys, counter and events afterwards are those of `Keys.Scan` from key 3; the state stays valid |
| Engine.Synth.WriteKey | src/main.cpp:572-587 | one loop iteration performs `Keys.Step` for its key |
| Engine.Synth.Feed | src/main.cpp:602-628 | the receiver stays consistent with the characters read; a `>` inside a frame hands on the stored payload and adds exactly that frame |
| Engine.Synth.BufferedMessage | src/main.cpp:617-622 | a buffer holding the payload prefix and a NUL at the write index reads as the stored payload |
| Engine.Synth.CheckData | src/main.cpp:638-1054 | the decoded command takes effect: a global is set, a library call is recorded, one route entry changes, or nothing changes |
| Engine.Synth.SetRouteEntry | src/main.cpp:927-1054 | one entry of one route column takes the value |
| Engine.Synth.CheckSerial | src/main.cpp:593-636 | a character is read if one is available; when it closes a frame, the stored payload is decoded and applied; otherwise globals, events and tables are unchanged |
| Keys.KeyNotes | src/main.cpp:576 | keys 3..27 play notes 24..0, and keys 28..31 wrap in the byte to 255..252 |
| Keys.KeyWrapIsHarmless | src/main.cpp:507-510 | truncating the key note to a byte first gives the same oscillator note as using `27 - i` |
| Keys.Step | src/main.cpp:572-587 | the key takes its requested state and no other key changes |
| Keys.StepCounts | src/main.cpp:572-587 | one step keeps the counter equal to the number of keys held |
| Keys.ScanSyncs | src/main.cpp:570-588 | after the pass every key from 3 on equals its request and the keys below are untouched |
| Keys.ScanCountsVoices | src/main.cpp:570-588 | a pass keeps the counter equal to the number of keys held among 3..31 |
| Keys.NoteOnPerPress | src/main.cpp:572-579 | the number of note-ons equals the number of keys pressed, so every press gives one |
| Keys.QuietScan | src/main.cpp:570-588 | a pass with no events leaves the counter zero exactly when it was zero |
| Keys.LastCallFollowsCounter | src/main.cpp:581-587 | when a pass emits anything, the last event is a note-off exactly when the counter ends at 0 |
| Keys.GateFollowsKeys | src/main.cpp:568-589 | when a pass emits anything, the last event is a note-off exactly when no key is requested |
| Keys.SingleKeyChange | src/main.cpp:570-588 | a pass with one changed key changes that key, steps the byte counter, and emits one note-on, or one note-off if the counter reaches 0 |
| Keys.PressesInOrder | src/main.cpp:570-579 | two presses in one pass give their note-ons in ascending key order |
| Keys.NoChange | src/main.cpp:570-588 | a pass with nothing to change leaves keys and counter alone and emits nothing |
| Keys.LonePress | src/main.cpp:572-579 | pressing one key adds one voice and emits its note-on |
| Keys.LoneRelease | src/main.cpp:581-587 | releasing one key removes one voice and emits a note-off only when it was the last |
| Keys.PressTwo | src/main.cpp:572-579 | pressing A then B gives counters 1 and 2 and a note-on each time |
| Keys.ReleaseTwo | src/main.cpp:581-587 | releasing B then A gives counters 1 and 0; only the last release emits a note-off |
| Keys.TwoKeyGating | src/main.cpp:568-589 | A down, B down, B up, A up: note-on A, note-on B, nothing, note-off |
| Framing.CString | src/main.cpp:640 | `String(receivedChars)` is the longest NUL-free prefix of the buffer |
| Framing.FramesSnoc | src/main.cpp:602-628 | one more character: `>` closes the open frame and delivers it, another character extends it, and outside a frame only `<` opens one |
| Framing.FramesIgnoreNoise | src/main.cpp:626-628 | characters before `<` are dropped |
| Framing.InsideFrame | src/main.cpp:606-624 | inside a frame every character up to `>` is payload, a nested `<` included |
| Framing.FrameRoundTrip | src/main.cpp:602-628 | `<m>` with no `>` in `m` delivers `m`, leaves no frame open, and stores `m` unchanged when it is short and NUL-free |
| Framing.BufferedIsBoundedPrefix | src/main.cpp:608-615 | the stored message is a prefix of the payload shorter than 32 characters |
| Framing.CStringStopsAtNul | src/main.cpp:640 | a NUL at `n` ends the C string at or before `n` |
| Framing.NestedStartIsPayload | src/main.cpp:606-628 | `<a<b>` delivers `a<b` |
| Protocol.ToInt | src/main.cpp:651 | the value read is a 32-bit int |
| Protocol.ToIntReadsDecimal | src/main.cpp:651 | the decimal text of `v`, followed by a non-digit or nothing, reads back as `v` saturated to 32 bits |
| Protocol.ToIntSkipsSpace | src/main.cpp:651 | leading white space is skipped |
| Protocol.ToIntOneChar | src/main.cpp:931-933 | one character reads as its digit value, or as 0 when it is not a digit |
| Protocol.IndexOf | src/main.cpp:645 | the index of the first colon, or -1 when there is none |
| Protocol.Lookup | src/main.cpp:653-924 | a name found is the exact name of its target, and no name selects `OSC2_SEMI` |
| Protocol.LookupNameOf | src/main.cpp:653-924 | every exact name except `OSC2_SEMI` selects its own target |
| Protocol.Select | src/main.cpp:653-924 | an exact name sets its global to the value or makes its library call; a table number outside its `switch` does nothing |
| Protocol.Decode | src/main.cpp:638-1054 | a message without a colon does nothing, and neither does one whose name is neither an exact name nor starts with a route prefix; a set global is never `OSC2_SEMI`; a route entry index lies in 0..8 |
| Protocol.DecodeName | src/main.cpp:645-924 | `NAME:v` for an exact name selects its target with value `v` |
| Protocol.ExactNamesAreNotRoutes | src/main.cpp:653-1054 | no exact name starts with a route prefix, so at most one group of branches acts on a message |
| Protocol.RouteNameUnknown | src/main.cpp:653-924 | no route name is an exact name |
| Protocol.FamilyOfPrefix | src/main.cpp:927-1054 | a message starting with a route prefix selects that table column |
| Protocol.DecodeUnknownName | src/main.cpp:927-1054 | a name matching no exact test goes to the route branch of its prefix |
| Protocol.DecodeRouteMessage | src/main.cpp:927-1054 | `PREFIXd:v` sets entry `d` for a digit 0..8, entry 0 for a non-digit, and nothing for `9` |
| Protocol.RouteEntryOfChar | src/main.cpp:931-938 | the index is the one character before the colon, read by `toInt` and kept only in 0..8 |
| Protocol.Osc2SemiIgnored | src/main.cpp:773-776 | `OSC2_SEMI:v` changes nothing |
| Protocol.TableOutOfRange | src/main.cpp:653-738 | a waveform number selects a table exactly when it lies in 0..4 (oscillators) or 0..3 (LFOs) |
| Protocol.DistinctTableNumbers | src/main.cpp:653-738 | different table numbers select different waveforms |
| Protocol.EveryTableSelectable | src/main.cpp:653-738 | every waveform has a number that selects it, 0..4 for the oscillators and 0..3 for the LFOs |
| Audio.Sample | src/main.cpp:312-345 | the output sample is a 32-bit int |
| Audio.Output | src/main.cpp:344 | both channels carry the same sample |
| Audio.MixBound | src/main.cpp:316 | the mix stays within ±24385, below the clipping limit |
| Audio.NoiseBound | src/main.cpp:339-342 | the noise term stays within ±8129 |
| Audio.PreStageDefined | src/main.cpp:316-317 | amounts 0..255 cannot overflow the pre-filter waveshaper |
| Audio.DefaultsAreDry | src/main.cpp:312-345 | with the initial settings the output is the dry mix |
| Audio.NoiseGate | src/main.cpp:339-342 | with `NOISE_LEVEL` 0 the noise does not reach the output; otherwise it only adds the noise term |
| Audio.OnlyLevelSlotsMatter | src/main.cpp:316-341 | only modulated slots 0, 2 and 4 reach the sample; the waveshapers take the base amounts |
| Audio.ClosedEnvelopeIsSilent | src/main.cpp:316-345 | a closed envelope with the filter off gives silence |
| Audio.ClippedOutput | src/main.cpp:338-344 | with the post clipper on and the noise off, the output stays within ±24500 |

## Left out

- Library internals (`Oscil`, `ADSR`, `Portamento`, `MultiResonantFilter`) are not part of this model. Their samples this tick are parameters of `Audio.Sample`. Their setters and `noteOn`/`noteOff` are recorded as `Calls.Event` values.
- `StereoOutput::from16Bit` and `audioOutput` are not modelled. They convert the sample for the DAC and drive it over SPI, which is hardware I/O.
- `detune`, `setFreq` and the noise frequency are not modelled. They are floating-point pitch math. `LFO1_FREQ`/`LFO2_FREQ` are recorded as the integer value in tenths of a hertz instead of `val / 10.0f`.
- Engine.Synth.ReadKeys: the pin-mode changes and `digitalRead` calls are I/O, so the levels read are a parameter.
- `setup`, `loop`, `startMozzi`, `audioHook` and `updateControl` are not modelled. They are scheduling and peripheral set-up.
- `Serial.println` output is left out.
- Engine.Synth.CheckSerial: `Serial1.available`/`Serial1.read` become an optional character argument. The static `newData` is left out, because it is false at every entry.
- Engine.Synth.Modulate: its bounds on route amounts (|amount| ≤ 2^22) and on base globals (|base| ≤ 2^30) are sufficient for the absence of signed overflow, not necessary.
- Engine.Synth.Modulate: it requires every `VarNdx` entry to be -1 or 0..8. `checkData` stores any value there, and the source would then write outside `modValues`, which has no defined meaning.
- Engine.Synth.HandleNoteOn: it requires that `(OCTAVE + OSCn_OCT) * 12 + note + OSCn_SEMI` does not overflow a 32-bit int.
- Audio.Sample: it requires the absence of signed overflow (`SampleDefined`). The filter outputs are arbitrary 32-bit values.
- The parallel arrays `VarNdx`, `Amount` and `ModType` of each source are held as one array of `Route` records per source.
- The envelope globals (`ENV1_AL`, `ENV1_A` and the rest) are not in `Settings`. Only the start-up code reads them, and it is not modelled. `checkData` passes values for them straight to the library, and the model records those calls.
