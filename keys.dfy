/** Key edge detection and voice counting (`writeKeys`, `handleNoteOn`,
    `handleNoteOff`). This module states what one pass over the 32 key
    positions does; the in-place loop is `Engine.Synth.WriteKeys`. */
module Keys {
  import opened Fixed
  import opened Calls
  import opened Params

  const NumKeys: int := 32

  /** Positions 0..2 of the key matrix have no key and are never scanned. */
  const FirstKey: int := 3

  /** `note = 27 - i`, stored in a `byte`. */
  function KeyNote(i: int): int {
    ToByte(27 - i)
  }

  /** The int arithmetic `(OCTAVE + OSCn_OCT) * 12 + note + OSCn_SEMI` has no
      signed overflow for any byte `note`. */
  predicate NoteDefined(octave: int, oct: int, semi: int) {
    var base := (octave + oct) * 12;
    && IsInt32(octave + oct) && IsInt32(base)
    && IsInt32(base + 255) && IsInt32(base + semi) && IsInt32(base + 255 + semi)
  }

  predicate NotesDefined(s: Settings) {
    NoteDefined(s.octave, s.osc1Oct, s.osc1Semi) && NoteDefined(s.octave, s.osc2Oct, s.osc2Semi)
  }

  /** The note an oscillator glides to, truncated to a `byte`. */
  function OscNote(octave: int, oct: int, semi: int, note: int): int {
    ToByte((octave + oct) * 12 + note + semi)
  }

  /** `handleNoteOn(note)`: both portamentos start towards their notes and
      both envelopes are triggered, recorded as one event. */
  function HandleNoteOn(s: Settings, note: int): Event {
    NoteOn(OscNote(s.octave, s.osc1Oct, s.osc1Semi, note), OscNote(s.octave, s.osc2Oct, s.osc2Semi, note))
  }

  /** Key positions 3..27 play notes 24 down to 0; positions 28..31 wrap
      around in the byte to 255..252. */
  lemma KeyNotes(i: int)
    requires FirstKey <= i < NumKeys
    ensures i <= 27 ==> KeyNote(i) == 27 - i
    ensures i > 27 ==> KeyNote(i) == 283 - i
  {
  }

  /** Storing `27 - i` in a byte does not change the note an oscillator
      plays: the result is the one the untruncated key number gives. */
  lemma KeyWrapIsHarmless(octave: int, oct: int, semi: int, i: int)
    requires FirstKey <= i < NumKeys
    ensures OscNote(octave, oct, semi, KeyNote(i)) == ToByte((octave + oct) * 12 + 27 - i + semi)
  {
    var x := (octave + oct) * 12 + semi;
    if i > 27 {
      assert KeyNote(i) == 27 - i + 256;
      assert x + KeyNote(i) == (x + 27 - i) + 256;
      ModShift(x + 27 - i);
    }
  }

  lemma ModShift(y: int)
    ensures (y + 256) % 256 == y % 256
  {
  }

  /** The number of keys held. */
  function Held(s: seq<bool>): (n: nat)
    ensures n <= |s|
  {
    if s == [] then 0 else Held(s[..|s| - 1]) + (if s[|s| - 1] then 1 else 0)
  }

  /** The state of one pass: key states, the voice counter and the calls made. */
  datatype KeyScan = KeyScan(current: seq<bool>, voices: int, events: seq<Event>)

  /** What `writeKeys` does at position `i`: a press (requested but not
      current) triggers `handleNoteOn` and counts a voice; a release uncounts
      one and, when the byte counter reaches 0, triggers `handleNoteOff`.
      Either way the key's current state becomes its requested state. */
  function Step(cur: seq<bool>, req: seq<bool>, i: int, voices: int, s: Settings): (r: KeyScan)
    requires |cur| == NumKeys && |req| == NumKeys && FirstKey <= i < NumKeys
    ensures r.current == cur[i := req[i]]
  {
    if req[i] && !cur[i] then
      KeyScan(cur[i := true], ToByte(voices + 1), [HandleNoteOn(s, KeyNote(i))])
    else if !req[i] && cur[i] then
      var v := ToByte(voices - 1);
      KeyScan(cur[i := false], v, if v == 0 then [NoteOff] else [])
    else
      assert cur[i := req[i]] == cur;
      KeyScan(cur, voices, [])
  }

  /** The rest of a `writeKeys` pass from position `i`: the step at `i`,
      then the pass from `i + 1`. */
  function Scan(cur: seq<bool>, req: seq<bool>, i: int, voices: int, s: Settings): (r: KeyScan)
    requires |cur| == NumKeys && |req| == NumKeys && FirstKey <= i <= NumKeys
    ensures |r.current| == NumKeys
    decreases NumKeys - i
  {
    if i == NumKeys then
      KeyScan(cur, voices, [])
    else
      var st := Step(cur, req, i, voices, s);
      var r := Scan(st.current, req, i + 1, st.voices, s);
      KeyScan(r.current, r.voices, st.events + r.events)
  }

  /** The voice counter agrees with the keys held in the scanned positions. */
  predicate Counted(cur: seq<bool>, voices: int)
    requires |cur| == NumKeys
  {
    voices == Held(cur[FirstKey..])
  }

  // ---------------------------------------------------------------------
  // Counting keys.

  /** No key is held in a row of released keys. */
  lemma {:induction false} NoneHeld(s: seq<bool>)
    requires forall k :: 0 <= k < |s| ==> !s[k]
    ensures Held(s) == 0
  {
    if s != [] {
      NoneHeld(s[..|s| - 1]);
    }
  }

  lemma {:induction false} HeldUpdate(s: seq<bool>, j: int, b: bool)
    requires 0 <= j < |s|
    ensures Held(s[j := b]) == Held(s) - (if s[j] then 1 else 0) + (if b then 1 else 0)
  {
    var n := |s| - 1;
    if j < n {
      assert s[j := b][..n] == s[..n][j := b];
      HeldUpdate(s[..n], j, b);
    } else {
      assert s[j := b][..n] == s[..n];
    }
  }

  /** Changing key `i` from `cur[i]` to `b` changes the count of held keys by one. */
  lemma CountAfterUpdate(cur: seq<bool>, i: int, b: bool)
    requires |cur| == NumKeys && FirstKey <= i < NumKeys
    ensures Held(cur[i := b][FirstKey..]) == Held(cur[FirstKey..]) - (if cur[i] then 1 else 0) + (if b then 1 else 0)
  {
    assert cur[i := b][FirstKey..] == cur[FirstKey..][i - FirstKey := b];
    HeldUpdate(cur[FirstKey..], i - FirstKey, b);
  }

  // ---------------------------------------------------------------------
  // Properties of one pass.

  /** One step keeps the counter equal to the number of keys held. */
  lemma StepCounts(cur: seq<bool>, req: seq<bool>, i: int, voices: int, s: Settings)
    requires |cur| == NumKeys && |req| == NumKeys && FirstKey <= i < NumKeys
    requires Counted(cur, voices)
    ensures Counted(Step(cur, req, i, voices, s).current, Step(cur, req, i, voices, s).voices)
  {
    CountAfterUpdate(cur, i, req[i]);
    if req[i] && !cur[i] {
      ByteIdentity(voices + 1);
    } else if !req[i] && cur[i] {
      ByteIdentity(voices - 1);
    }
  }

  /** After the pass every scanned position holds its requested state and
      the positions before `i` are untouched. */
  lemma {:induction false} ScanSyncs(cur: seq<bool>, req: seq<bool>, i: int, voices: int, s: Settings)
    requires |cur| == NumKeys && |req| == NumKeys && FirstKey <= i <= NumKeys
    ensures forall j :: 0 <= j < i ==> Scan(cur, req, i, voices, s).current[j] == cur[j]
    ensures forall j :: i <= j < NumKeys ==> Scan(cur, req, i, voices, s).current[j] == req[j]
    decreases NumKeys - i
  {
    if i < NumKeys {
      var st := Step(cur, req, i, voices, s);
      ScanSyncs(st.current, req, i + 1, st.voices, s);
    }
  }

  /** The counter stays equal to the number of keys held: a press never
      wraps it past 255 and a release never below 0. */
  lemma {:induction false} ScanCountsVoices(cur: seq<bool>, req: seq<bool>, i: int, voices: int, s: Settings)
    requires |cur| == NumKeys && |req| == NumKeys && FirstKey <= i <= NumKeys
    requires Counted(cur, voices)
    ensures Counted(Scan(cur, req, i, voices, s).current, Scan(cur, req, i, voices, s).voices)
    decreases NumKeys - i
  {
    if i < NumKeys {
      var st := Step(cur, req, i, voices, s);
      StepCounts(cur, req, i, voices, s);
      ScanCountsVoices(st.current, req, i + 1, st.voices, s);
    }
  }

  /** The number of presses (requested, not current) from position `i` on. */
  function Presses(cur: seq<bool>, req: seq<bool>, i: int): nat
    requires |cur| == NumKeys && |req| == NumKeys && FirstKey <= i <= NumKeys
    decreases NumKeys - i
  {
    if i == NumKeys then 0 else (if req[i] && !cur[i] then 1 else 0) + Presses(cur, req, i + 1)
  }

  function NoteOns(es: seq<Event>): nat {
    if es == [] then 0 else (if es[0].NoteOn? then 1 else 0) + NoteOns(es[1..])
  }

  lemma {:induction false} PressesFrom(cur: seq<bool>, cur': seq<bool>, req: seq<bool>, i: int)
    requires |cur| == NumKeys && |cur'| == NumKeys && |req| == NumKeys && FirstKey <= i <= NumKeys
    requires forall j :: i <= j < NumKeys ==> cur[j] == cur'[j]
    ensures Presses(cur, req, i) == Presses(cur', req, i)
    decreases NumKeys - i
  {
    if i < NumKeys {
      PressesFrom(cur, cur', req, i + 1);
    }
  }

  lemma {:induction false} NoteOnsAppend(a: seq<Event>, b: seq<Event>)
    ensures NoteOns(a + b) == NoteOns(a) + NoteOns(b)
  {
    if a == [] {
      assert a + b == b;
    } else {
      assert (a + b)[1..] == a[1..] + b;
      NoteOnsAppend(a[1..], b);
    }
  }

  /** Every press triggers `handleNoteOn`, not only the first one while no
      other key is held. */
  lemma {:induction false} NoteOnPerPress(cur: seq<bool>, req: seq<bool>, i: int, voices: int, s: Settings)
    requires |cur| == NumKeys && |req| == NumKeys && FirstKey <= i <= NumKeys
    ensures NoteOns(Scan(cur, req, i, voices, s).events) == Presses(cur, req, i)
    decreases NumKeys - i
  {
    if i < NumKeys {
      var st := Step(cur, req, i, voices, s);
      var r := Scan(st.current, req, i + 1, st.voices, s);
      NoteOnPerPress(st.current, req, i + 1, st.voices, s);
      PressesFrom(cur, st.current, req, i + 1);
      NoteOnsAppend(st.events, r.events);
      assert NoteOns(st.events) == (if req[i] && !cur[i] then 1 else 0) by {
        if st.events != [] {
          assert st.events[1..] == [];
        }
      }
    }
  }

  /** A pass that makes no call leaves the counter at zero exactly when it
      started at zero. */
  lemma {:induction false} QuietScan(cur: seq<bool>, req: seq<bool>, i: int, voices: int, s: Settings)
    requires |cur| == NumKeys && |req| == NumKeys && FirstKey <= i <= NumKeys
    requires Counted(cur, voices)
    requires Scan(cur, req, i, voices, s).events == []
    ensures Scan(cur, req, i, voices, s).voices == 0 <==> voices == 0
    decreases NumKeys - i
  {
    if i < NumKeys {
      var st := Step(cur, req, i, voices, s);
      var r := Scan(st.current, req, i + 1, st.voices, s);
      assert |st.events + r.events| == 0;
      StepCounts(cur, req, i, voices, s);
      QuietScan(st.current, req, i + 1, st.voices, s);
    }
  }

  /** The last gate call of a pass is `handleNoteOff` exactly when the
      counter ends at zero: the envelopes end released if and only if no
      key is held. */
  lemma {:induction false} LastCallFollowsCounter(cur: seq<bool>, req: seq<bool>, i: int, voices: int, s: Settings)
    requires |cur| == NumKeys && |req| == NumKeys && FirstKey <= i <= NumKeys
    requires Counted(cur, voices)
    ensures var r := Scan(cur, req, i, voices, s);
      r.events != [] ==> (r.events[|r.events| - 1] == NoteOff <==> r.voices == 0)
    decreases NumKeys - i
  {
    if i < NumKeys {
      var st := Step(cur, req, i, voices, s);
      var r := Scan(st.current, req, i + 1, st.voices, s);
      StepCounts(cur, req, i, voices, s);
      LastCallFollowsCounter(st.current, req, i + 1, st.voices, s);
      if r.events == [] {
        QuietScan(st.current, req, i + 1, st.voices, s);
        assert st.events + r.events == st.events;
      } else {
        var es := st.events + r.events;
        assert es[|es| - 1] == r.events[|r.events| - 1];
      }
    }
  }

  /** For a whole pass from a consistent state: the last call made is
      `handleNoteOff` exactly when no key is requested. */
  lemma GateFollowsKeys(cur: seq<bool>, req: seq<bool>, voices: int, s: Settings)
    requires |cur| == NumKeys && |req| == NumKeys && Counted(cur, voices)
    ensures var r := Scan(cur, req, FirstKey, voices, s);
      r.events != [] ==> (r.events[|r.events| - 1] == NoteOff <==> Held(req[FirstKey..]) == 0)
  {
    var r := Scan(cur, req, FirstKey, voices, s);
    LastCallFollowsCounter(cur, req, FirstKey, voices, s);
    assert r.voices == Held(r.current[FirstKey..]) by {
      ScanCountsVoices(cur, req, FirstKey, voices, s);
    }
    assert r.current[FirstKey..] == req[FirstKey..] by {
      ScanSyncs(cur, req, FirstKey, voices, s);
    }
  }

  /** Positions from `i` on agree between current and requested states. */
  predicate AgreeFrom(cur: seq<bool>, req: seq<bool>, i: int, except: int)
    requires |cur| == NumKeys && |req| == NumKeys
  {
    forall j :: 0 <= j < NumKeys && i <= j && j != except ==> cur[j] == req[j]
  }

  /** A pass in which a single key `k` changed: a press makes one
      `handleNoteOn` call with that key's note; a release makes a
      `handleNoteOff` call only if it was the last key counted. */
  lemma {:induction false} SingleKeyChange(cur: seq<bool>, req: seq<bool>, i: int, k: int, voices: int, s: Settings)
    requires |cur| == NumKeys && |req| == NumKeys && FirstKey <= i <= k < NumKeys
    requires AgreeFrom(cur, req, i, k) && cur[k] != req[k]
    ensures var r := Scan(cur, req, i, voices, s);
      && r.current == cur[k := req[k]]
      && r.voices == (if req[k] then ToByte(voices + 1) else ToByte(voices - 1))
      && r.events == (if req[k] then [HandleNoteOn(s, KeyNote(k))]
                      else if ToByte(voices - 1) == 0 then [NoteOff] else [])
    decreases NumKeys - i
  {
    var st := Step(cur, req, i, voices, s);
    if i < k {
      SingleKeyChange(cur, req, i + 1, k, voices, s);
      assert [] + Scan(cur, req, i + 1, voices, s).events == Scan(cur, req, i + 1, voices, s).events;
    } else {
      NoChange(st.current, req, k + 1, st.voices, s);
      assert st.events + [] == st.events;
    }
  }

  /** Two keys pressed in the same pass are handled in ascending position
      order: the `handleNoteOn` call of the lower position comes first. */
  lemma {:induction false} PressesInOrder(cur: seq<bool>, req: seq<bool>, i: int, a: int, b: int, voices: int, s: Settings)
    requires |cur| == NumKeys && |req| == NumKeys && FirstKey <= i <= a < b < NumKeys
    requires forall j :: i <= j < NumKeys && j != a && j != b ==> cur[j] == req[j]
    requires !cur[a] && req[a] && !cur[b] && req[b]
    ensures Scan(cur, req, i, voices, s).events == [HandleNoteOn(s, KeyNote(a)), HandleNoteOn(s, KeyNote(b))]
    decreases NumKeys - i
  {
    var st := Step(cur, req, i, voices, s);
    if i < a {
      PressesInOrder(cur, req, i + 1, a, b, voices, s);
      assert [] + Scan(cur, req, i + 1, voices, s).events == Scan(cur, req, i + 1, voices, s).events;
    } else {
      assert AgreeFrom(st.current, req, a + 1, b);
      SingleKeyChange(st.current, req, a + 1, b, st.voices, s);
    }
  }

  /** A pass over positions that all agree changes nothing and makes no call. */
  lemma {:induction false} NoChange(cur: seq<bool>, req: seq<bool>, i: int, voices: int, s: Settings)
    requires |cur| == NumKeys && |req| == NumKeys && FirstKey <= i <= NumKeys
    requires AgreeFrom(cur, req, i, -1)
    ensures Scan(cur, req, i, voices, s) == KeyScan(cur, voices, [])
    decreases NumKeys - i
  {
    if i < NumKeys {
      NoChange(cur, req, i + 1, voices, s);
      var none: seq<Event> := [];
      assert none + none == none;
    }
  }

  /** A pass in which key `k` alone is pressed, with the counter below its
      byte limit: one `handleNoteOn` call with that key's note, and one more
      voice. */
  lemma LonePress(cur: seq<bool>, req: seq<bool>, k: int, voices: int, s: Settings)
    requires |cur| == NumKeys && FirstKey <= k < NumKeys && !cur[k] && req == cur[k := true]
    requires 0 <= voices < 255
    ensures Scan(cur, req, FirstKey, voices, s) == KeyScan(req, voices + 1, [HandleNoteOn(s, KeyNote(k))])
  {
    assert AgreeFrom(cur, req, FirstKey, k);
    ByteIdentity(voices + 1);
    SingleKeyChange(cur, req, FirstKey, k, voices, s);
  }

  /** A pass in which key `k` alone is released, with at least one voice
      counted: one voice less, and a `handleNoteOff` call only when that was
      the last one. */
  lemma LoneRelease(cur: seq<bool>, req: seq<bool>, k: int, voices: int, s: Settings)
    requires |cur| == NumKeys && FirstKey <= k < NumKeys && cur[k] && req == cur[k := false]
    requires 0 < voices <= 255
    ensures Scan(cur, req, FirstKey, voices, s)
         == KeyScan(req, voices - 1, if voices == 1 then [NoteOff] else [])
  {
    assert AgreeFrom(cur, req, FirstKey, k);
    ByteIdentity(voices - 1);
    SingleKeyChange(cur, req, FirstKey, k, voices, s);
  }

  /** Releasing a key just pressed restores the key states before the press. */
  lemma UndoPress(cur: seq<bool>, k: int)
    requires 0 <= k < |cur| && !cur[k]
    ensures cur[k := true][k := false] == cur
  {
  }

  /** Key A pressed from a state with neither key held and no voice
      counted, then key B pressed: one `handleNoteOn` call per press. */
  lemma PressTwo(none: seq<bool>, onlyA: seq<bool>, both: seq<bool>, a: int, b: int, s: Settings)
    requires |none| == NumKeys && FirstKey <= a < NumKeys && FirstKey <= b < NumKeys && a != b
    requires !none[a] && !none[b]
    requires onlyA == none[a := true] && both == onlyA[b := true]
    ensures Scan(none, onlyA, FirstKey, 0, s) == KeyScan(onlyA, 1, [HandleNoteOn(s, KeyNote(a))])
    ensures Scan(onlyA, both, FirstKey, 1, s) == KeyScan(both, 2, [HandleNoteOn(s, KeyNote(b))])
  {
    LonePress(none, onlyA, a, 0, s);
    LonePress(onlyA, both, b, 1, s);
  }
  /** Key B released while A is still held (no call), then A released
      (`handleNoteOff`, the counter back at zero). */
  lemma ReleaseTwo(none: seq<bool>, onlyA: seq<bool>, both: seq<bool>, a: int, b: int, s: Settings)
    requires |none| == NumKeys && FirstKey <= a < NumKeys && FirstKey <= b < NumKeys && a != b
    requires !none[a] && !none[b]
    requires onlyA == none[a := true] && both == onlyA[b := true]
    ensures Scan(both, onlyA, FirstKey, 2, s) == KeyScan(onlyA, 1, [])
    ensures Scan(onlyA, none, FirstKey, 1, s) == KeyScan(none, 0, [NoteOff])
  {
    UndoPress(onlyA, b);
    LoneRelease(both, onlyA, b, 2, s);
    UndoPress(none, a);
    LoneRelease(onlyA, none, a, 1, s);
  }
  /** From a state with no key held, press key A, press key B, release B,
      release A, one pass each, each pass starting from the state the one
      before left: two `handleNoteOn` calls (one per press), no call when B
      is released while A is still held, and one `handleNoteOff` at A's
      release, which leaves no key held and the counter at zero. */
  lemma TwoKeyGating(none: seq<bool>, a: int, b: int, s: Settings)
    requires |none| == NumKeys && forall j :: 0 <= j < NumKeys ==> !none[j]
    requires FirstKey <= a < NumKeys && FirstKey <= b < NumKeys && a != b
    ensures Scan(none, none[a := true], FirstKey, 0, s)
         == KeyScan(none[a := true], 1, [HandleNoteOn(s, KeyNote(a))])
    ensures Scan(none[a := true], none[a := true][b := true], FirstKey, 1, s)
         == KeyScan(none[a := true][b := true], 2, [HandleNoteOn(s, KeyNote(b))])
    ensures Scan(none[a := true][b := true], none[a := true], FirstKey, 2, s)
         == KeyScan(none[a := true], 1, [])
    ensures Scan(none[a := true], none, FirstKey, 1, s)
         == KeyScan(none, 0, [NoteOff])
  {
    PressTwo(none, none[a := true], none[a := true][b := true], a, b, s);
    ReleaseTwo(none, none[a := true], none[a := true][b := true], a, b, s);
  }
}
