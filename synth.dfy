/** The firmware's mutable state and the control-rate routines that update
    it in place: the modulation matrix (`modulator`), the key scan
    (`writeKeys`, `handleNoteOn`, `handleNoteOff`) and the serial receiver
    (`checkSerial`, `checkData`). Each routine is proved against the pure
    definition of what it computes in the module of the same concern. */
module Engine {
  import opened Fixed
  import opened Wrappers
  import opened Calls
  import opened Params
  import M = Matrix
  import Keys
  import Framing
  import P = Protocol

  /** `matrix2` and `matrix1`. */
  const Rows: int := 4
  const Columns: int := 8

  class Synth {
    /** The scalar globals the host can set. */
    var settings: Settings
    /** The calls made into the synthesis library so far, oldest first. */
    var events: seq<Event>

    /** The route tables `env2*`, `LFO1*` and `LFO2*`; entry `i` gathers the
        `VarNdx`, `Amount` and `ModType` arrays at index `i`. */
    const env2Routes: array<M.Route>
    const lfo1Routes: array<M.Route>
    const lfo2Routes: array<M.Route>

    /** `modValues` and `modulatedValuesOutput`. */
    const modValues: array<int>
    const modulatedOutput: array<int>

    /** `env2_now`, `LFO1_now` and `LFO2_now`, set from the library's
        envelope and LFOs before each call of `modulator`. */
    var env2Now: int
    var lfo1Now: int
    var lfo2Now: int

    /** The key matrix, `matrix2` rows of `matrix1` columns: the states
        acted on and the states last read. */
    const currentState: array<bool>
    const requestState: array<bool>
    /** `numVoices`, a byte. */
    var numVoices: int

    /** The receiver: `receivedChars` and the static locals `ndx` and
        `recvInProgress` of `checkSerial`. */
    const receivedChars: array<char>
    var ndx: int
    var recvInProgress: bool
    /** Every character read from the serial line so far. */
    ghost var received: seq<char>

    /** The current table of one source. */
    function Routes(src: M.Source): array<M.Route> {
      match src
      case Env2 => env2Routes
      case Lfo1 => lfo1Routes
      case Lfo2 => lfo2Routes
    }

    /** The route tables as a value. */
    function Tables(): (t: M.Tables)
      reads this, env2Routes, lfo1Routes, lfo2Routes
      ensures |t.env2| == env2Routes.Length && |t.lfo1| == lfo1Routes.Length && |t.lfo2| == lfo2Routes.Length
    {
      M.Tables(env2Routes[..], lfo1Routes[..], lfo2Routes[..])
    }

    /** The source outputs and switches `modulator` works with. */
    function Sources(env2: bool, lfo1: bool, lfo2: bool): M.SourceValues
      reads this
    {
      M.SourceValues(env2Now, lfo1Now, lfo2Now, env2, lfo1, lfo2)
    }

    /** The receiver's state follows from the characters read: it is inside
        a frame exactly when the stream leaves one open, the write index is
        the length of the open payload stopped at 31, and the buffer holds
        the payload up to that index. */
    ghost predicate Receiving()
      reads this`recvInProgress, this`ndx, this`received, receivedChars
    {
      && receivedChars.Length == Framing.NumChars
      && (recvInProgress <==> Framing.OpenFrame(received).Some?)
      && (!recvInProgress ==> ndx == 0)
      && (recvInProgress ==>
            var p := Framing.OpenFrame(received).value;
            && ndx == Min(|p|, Framing.NumChars - 1)
            && forall j :: 0 <= j < ndx ==> receivedChars[j] == p[j])
    }

    ghost predicate Valid()
      reads this`numVoices, this`recvInProgress, this`ndx, this`received, receivedChars
    {
      && env2Routes.Length == M.NumModValues && lfo1Routes.Length == M.NumModValues
      && lfo2Routes.Length == M.NumModValues
      && env2Routes != lfo1Routes && env2Routes != lfo2Routes && lfo1Routes != lfo2Routes
      && modValues.Length == M.NumModValues && modulatedOutput.Length == M.NumModValues
      && modValues != modulatedOutput
      && KeysReady()
      && Receiving()
    }

    /** The key arrays have one entry per matrix position and the counter is a byte. */
    predicate KeysReady()
      reads this`numVoices
    {
      && currentState.Length == Keys.NumKeys && requestState.Length == Keys.NumKeys
      && currentState != requestState
      && IsByte(numVoices)
    }

    /** The voice counter agrees with the keys held. */
    ghost predicate VoicesCounted()
      reads this, currentState
      requires currentState.Length == Keys.NumKeys
    {
      Keys.Counted(currentState[..], numVoices)
    }

    /** The globals at power-up: initial settings, unbound routes, no key
        held, no frame open. */
    constructor ()
      ensures Valid() && VoicesCounted()
      ensures settings == Defaults && events == []
      ensures Tables() == M.Tables(M.NoRoutes, M.NoRoutes, M.NoRoutes)
      ensures numVoices == 0 && received == []
      ensures forall k :: 0 <= k < Keys.NumKeys ==> !currentState[k] && !requestState[k]
      ensures modValues[..] == seq(M.NumModValues, _ => 0)
      ensures modulatedOutput[..] == seq(M.NumModValues, _ => 0)
      ensures env2Now == 0 && lfo1Now == 0 && lfo2Now == 0
    {
      settings := Defaults;
      events := [];
      env2Routes := new M.Route[M.NumModValues](_ => M.UnboundRoute);
      lfo1Routes := new M.Route[M.NumModValues](_ => M.UnboundRoute);
      lfo2Routes := new M.Route[M.NumModValues](_ => M.UnboundRoute);
      modValues := new int[M.NumModValues](_ => 0);
      modulatedOutput := new int[M.NumModValues](_ => 0);
      env2Now, lfo1Now, lfo2Now := 0, 0, 0;
      currentState := new bool[Keys.NumKeys](_ => false);
      requestState := new bool[Keys.NumKeys](_ => false);
      numVoices := 0;
      receivedChars := new char[Framing.NumChars](_ => '\0');
      ndx := 0;
      recvInProgress := false;
      received := [];
      new;
      assert env2Routes[..] == M.NoRoutes && lfo1Routes[..] == M.NoRoutes && lfo2Routes[..] == M.NoRoutes;
      Keys.NoneHeld(currentState[..][Keys.FirstKey..]);
    }

    // -------------------------------------------------------------------
    // The modulation matrix.

    /** `modulator(env2, lfo1, lfo2)`: clear the offsets, add what every
        enabled route slot contributes to its target, then store each base
        value plus its offset, clamped to [-255, 255]. */
    method Modulate(env2: bool, lfo1: bool, lfo2: bool)
      requires Valid()
      requires M.TablesDefined(Tables()) && M.BasesDefined(ModBases(settings))
      requires Sources(env2, lfo1, lfo2).InRange()
      modifies modValues, modulatedOutput
      ensures forall k :: 0 <= k < M.NumModValues ==>
        modValues[k] == M.Offset(Tables(), Sources(env2, lfo1, lfo2), k, M.NumModValues)
      ensures forall k :: 0 <= k < M.NumModValues ==>
        modulatedOutput[k] == M.Modulated(ModBases(settings), Tables(), Sources(env2, lfo1, lfo2), k)
    {
      ClearOffsets();
      var v := Sources(env2, lfo1, lfo2);
      SumRoutes(v);
      StoreOutputs(v);
    }

    /** The first loop of `modulator`: every offset back to 0. */
    method ClearOffsets()
      requires Valid()
      modifies modValues
      ensures forall k :: 0 <= k < M.NumModValues ==> modValues[k] == 0
    {
      for i := 0 to M.NumModValues
        invariant forall k :: 0 <= k < i ==> modValues[k] == 0
      {
        modValues[i] := 0;
      }
    }

    /** The second loop of `modulator`: slot by slot, each source's route
        adds its contribution to its target's offset. */
    method SumRoutes(v: M.SourceValues)
      requires Valid() && M.TablesDefined(Tables())
      requires v == Sources(v.env2On, v.lfo1On, v.lfo2On) && v.InRange()
      requires forall k :: 0 <= k < M.NumModValues ==> modValues[k] == 0
      modifies modValues
      ensures forall k :: 0 <= k < M.NumModValues ==> modValues[k] == M.Offset(Tables(), v, k, M.NumModValues)
    {
      ghost var t := Tables();
      for i := 0 to M.NumModValues
        invariant forall k :: 0 <= k < M.NumModValues ==> modValues[k] == M.Offset(t, v, k, i)
      {
        forall k | 0 <= k < M.NumModValues
          ensures Abs(modValues[k]) <= 3 * 8 * M.AmountLimit
        {
          M.OffsetBound(t, v, k, i);
        }
        AddRoute(M.Env2, v, i);
        AddRoute(M.Lfo1, v, i);
        AddRoute(M.Lfo2, v, i);
      }
    }

    /** The third loop of `modulator`: each output is the global that
        `ptrModValues` names plus its offset, clamped to [-255, 255]. */
    method StoreOutputs(v: M.SourceValues)
      requires Valid() && M.TablesDefined(Tables()) && M.BasesDefined(ModBases(settings)) && v.InRange()
      requires forall k :: 0 <= k < M.NumModValues ==> modValues[k] == M.Offset(Tables(), v, k, M.NumModValues)
      modifies modulatedOutput
      ensures forall k :: 0 <= k < M.NumModValues ==> modulatedOutput[k] == M.Modulated(ModBases(settings), Tables(), v, k)
    {
      for i := 0 to M.NumModValues
        invariant forall k :: 0 <= k < i ==> modulatedOutput[k] == M.Modulated(ModBases(settings), Tables(), v, k)
      {
        M.NoOverflow(ModBases(settings), Tables(), v, i, M.NumModValues);
        var finalOutput := settings.Get(PtrModValues[i]) + modValues[i];
        if finalOutput > 255 {
          finalOutput := 255;
        } else if finalOutput < -255 {
          finalOutput := -255;
        }
        modulatedOutput[i] := finalOutput;
      }
    }

    /** One `if (src)` block of `modulator` for slot `i`: when the source is
        on and the slot is bound, `(reading * amount) >> 8` is added to the
        slot's target, where the reading depends on the slot's mode. */
    method AddRoute(src: M.Source, v: M.SourceValues, i: int)
      requires Valid() && 0 <= i < M.NumModValues
      requires v == Sources(v.env2On, v.lfo1On, v.lfo2On) && v.InRange()
      requires M.RouteDefined(Routes(src)[i])
      requires forall k :: 0 <= k < M.NumModValues ==> Abs(modValues[k]) <= 26 * M.AmountLimit
      modifies modValues
      ensures forall k :: 0 <= k < M.NumModValues ==>
        modValues[k] == old(modValues[k]) + M.RouteOffset(src, v, Routes(src)[i], k)
      ensures forall k :: 0 <= k < M.NumModValues ==> Abs(modValues[k] - old(modValues[k])) <= M.AmountLimit
    {
      var r := Routes(src)[i];
      M.ContributionBound(src, v, r);
      if v.On(src) && r.varNdx != M.Unbound {
        var output: int;
        if src == M.Env2 {
          if r.modType == 0 {
            output := Asr(env2Now * r.amount, 8);
          } else {
            output := Asr((env2Now - 128) * r.amount, 8);
          }
        } else {
          var now := if src == M.Lfo1 then lfo1Now else lfo2Now;
          if r.modType == 0 {
            output := Asr((now + 128) * r.amount, 8);
          } else {
            output := Asr(now * r.amount, 8);
          }
        }
        assert IsInt32(modValues[r.varNdx] + output);
        modValues[r.varNdx] := modValues[r.varNdx] + output;
      }
    }

    // -------------------------------------------------------------------
    // The keyboard.

    /** `readKeys`: row by row, one of the four row pins is driven low and
        the eight column pins are read; a pressed key pulls its column low,
        so the requested state of key `row * 8 + column` is the inverted
        level. The levels read are `levels[row][column]`. */
    method ReadKeys(levels: seq<seq<bool>>)
      requires Valid()
      requires |levels| == Rows && forall r :: 0 <= r < Rows ==> |levels[r]| == Columns
      modifies requestState
      ensures forall k :: 0 <= k < Keys.NumKeys ==> requestState[k] == !levels[k / Columns][k % Columns]
    {
      for i := 0 to Rows
        invariant forall k :: 0 <= k < i * Columns ==> requestState[k] == !levels[k / Columns][k % Columns]
      {
        for j := 0 to Columns
          invariant forall k :: 0 <= k < i * Columns + j ==> requestState[k] == !levels[k / Columns][k % Columns]
        {
          requestState[i * Columns + j] := !levels[i][j];
        }
      }
    }

    /** `handleNoteOn(note)`. */
    method HandleNoteOn(note: int)
      requires IsByte(note) && Keys.NotesDefined(settings)
      modifies this`events
      ensures events == old(events) + [Keys.HandleNoteOn(settings, note)]
    {
      var osc1Note := Keys.OscNote(settings.octave, settings.osc1Oct, settings.osc1Semi, note);
      var osc2Note := Keys.OscNote(settings.octave, settings.osc2Oct, settings.osc2Semi, note);
      events := events + [NoteOn(osc1Note, osc2Note)];
    }

    /** `handleNoteOff()`. */
    method HandleNoteOff()
      modifies this`events
      ensures events == old(events) + [NoteOff]
    {
      events := events + [NoteOff];
    }

    /** `writeKeys`: positions 3..31 in order; a key requested but not
        current is pressed (a note on, one more voice), a key current but not
        requested is released (one voice fewer, and a note off when the byte
        counter reaches 0). The whole pass is `Keys.Scan`. */
    method WriteKeys()
      requires Valid() && Keys.NotesDefined(settings)
      modifies currentState, this`numVoices, this`events
      ensures Valid()
      ensures var r := Keys.Scan(old(currentState[..]), requestState[..], Keys.FirstKey, old(numVoices), settings);
        && currentState[..] == r.current
        && numVoices == r.voices
        && events == old(events) + r.events
    {
      ghost var cur0 := currentState[..];
      ghost var req := requestState[..];
      ghost var total := Keys.Scan(cur0, req, Keys.FirstKey, numVoices, settings);
      for i := Keys.FirstKey to Keys.NumKeys
        invariant KeysReady()
        invariant requestState[..] == req
        invariant
          var rest := Keys.Scan(currentState[..], req, i, numVoices, settings);
          && rest.current == total.current && rest.voices == total.voices
          && old(events) + total.events == events + rest.events
      {
        ghost var st := Keys.Step(currentState[..], req, i, numVoices, settings);
        ghost var r := Keys.Scan(st.current, req, i + 1, st.voices, settings);
        AppendAssoc(events, st.events, r.events);
        WriteKey(i);
      }
    }

    /** The body of `writeKeys`'s loop for key position `i`. */
    method WriteKey(i: int)
      requires KeysReady() && Keys.NotesDefined(settings) && Keys.FirstKey <= i < Keys.NumKeys
      modifies currentState, this`numVoices, this`events
      ensures KeysReady()
      ensures var st := Keys.Step(old(currentState[..]), requestState[..], i, old(numVoices), settings);
        && currentState[..] == st.current
        && numVoices == st.voices
        && events == old(events) + st.events
    {
      if requestState[i] == true && currentState[i] == false {
        currentState[i] := requestState[i];
        var note := Keys.KeyNote(i);
        HandleNoteOn(note);
        numVoices := ToByte(numVoices + 1);
      }
      if requestState[i] == false && currentState[i] == true {
        currentState[i] := requestState[i];
        numVoices := ToByte(numVoices - 1);
        if numVoices == 0 {
          HandleNoteOff();
        }
      }
    }

    // -------------------------------------------------------------------
    // The serial link.

    /** One character through `checkSerial`'s receiver: outside a frame only
        `<` counts (it opens one); inside, `>` terminates the buffer and
        hands the message on, and any other character is stored at `ndx`,
        which stops at 31. The message handed on is the stored form of the
        payload of the frame the character completes. */
    method Feed(c: char) returns (msg: Option<string>)
      requires Valid()
      modifies this`ndx, this`recvInProgress, this`received, receivedChars
      ensures Valid()
      ensures received == old(received) + [c]
      ensures var open := Framing.OpenFrame(old(received));
        msg == if open.Some? && c == '>' then Some(Framing.Buffered(open.value)) else None
      ensures Framing.Frames(received) ==
        Framing.Frames(old(received)) + if msg.Some? then [Framing.OpenFrame(old(received)).value] else []
    {
      ghost var open := Framing.OpenFrame(received);
      Framing.FramesSnoc(received, c);
      if recvInProgress {
        if c != '>' {
          receivedChars[ndx] := c;
          ndx := ndx + 1;
          if ndx >= Framing.NumChars {
            ndx := Framing.NumChars - 1;
          }
          msg := None;
        } else {
          receivedChars[ndx] := '\0';
          ghost var n := ndx;
          recvInProgress := false;
          ndx := 0;
          msg := Some(Message());
          BufferedMessage(open.value, n);
        }
      } else if c == '<' {
        recvInProgress := true;
        msg := None;
      } else {
        msg := None;
      }
      received := received + [c];
    }

    /** `String(receivedChars)`. */
    function Message(): (m: string)
      reads receivedChars
    {
      Framing.CString(receivedChars[..])
    }

    /** A buffer holding the first `n` characters of `p` and a NUL at `n`
        reads as the stored form of `p`. */
    lemma BufferedMessage(p: seq<char>, n: int)
      requires receivedChars.Length == Framing.NumChars
      requires n == Min(|p|, Framing.NumChars - 1)
      requires receivedChars[n] == '\0'
      requires forall j :: 0 <= j < n ==> receivedChars[j] == p[j]
      ensures Message() == Framing.Buffered(p)
    {
      Framing.CStringStopsAtNul(receivedChars[..], n);
      assert receivedChars[..][..n] == p[..n];
    }

    /** `checkData`: the decoded command applied to the state. A global
        takes its new value, a library call is recorded, a route entry
        changes, or nothing happens. */
    method CheckData(message: string)
      requires Valid()
      modifies this`settings, this`events, env2Routes, lfo1Routes, lfo2Routes
      ensures Valid()
      ensures var c := P.Decode(message);
        && settings == (if c.Assign? then old(settings).Set(c.g, c.v) else old(settings))
        && events == old(events) + (if c.Call? then [c.e] else [])
        && Tables() == (if c.SetRoute? then old(Tables()).Assign(c.src, c.index, c.field, c.v) else old(Tables()))
    {
      var c := P.Decode(message);
      match c
      case Assign(g, v) =>
        settings := settings.Set(g, v);
      case Call(e) =>
        events := events + [e];
      case SetRoute(src, field, index, v) =>
        SetRouteEntry(src, field, index, v);
      case Ignore =>
    }

    /** `env2VarNdx[index] = val` and its eight siblings. */
    method SetRouteEntry(src: M.Source, field: M.RouteField, index: int, v: int)
      requires Valid() && 0 <= index < M.NumModValues
      modifies env2Routes, lfo1Routes, lfo2Routes
      ensures Tables() == old(Tables()).Assign(src, index, field, v)
    {
      var a := Routes(src);
      a[index] := a[index].With(field, v);
    }

    /** `checkSerial`: when a character is available, feed it to the
        receiver, and act on the message it completes. */
    method CheckSerial(input: Option<char>)
      requires Valid()
      modifies this`ndx, this`recvInProgress, this`received, receivedChars
      modifies this`settings, this`events, env2Routes, lfo1Routes, lfo2Routes
      ensures Valid()
      ensures received == old(received) + (if input.Some? then [input.value] else [])
      ensures var open := Framing.OpenFrame(old(received));
        var c := if input.Some? && input.value == '>' && open.Some?
                 then P.Decode(Framing.Buffered(open.value)) else P.Ignore;
        && settings == (if c.Assign? then old(settings).Set(c.g, c.v) else old(settings))
        && events == old(events) + (if c.Call? then [c.e] else [])
        && Tables() == (if c.SetRoute? then old(Tables()).Assign(c.src, c.index, c.field, c.v) else old(Tables()))
    {
      if input.Some? {
        var msg := Feed(input.value);
        if msg.Some? {
          CheckData(msg.value);
        }
      }
    }
  }
}
