/** The modulation matrix (`modulator`): the secondary envelope and the two
    LFOs, each through a table of nine route slots, add scaled offsets to the
    nine modulatable parameters, and each sum is clamped to [-255, 255].
    This module states what the matrix computes; the in-place computation
    is `Engine.Synth.Modulate`. */
module Matrix {
  import opened Fixed

  const NumModValues: int := 9

  /** The `VarNdx` entry of a slot that routes nowhere. */
  const Unbound: int := -1

  datatype Source = Env2 | Lfo1 | Lfo2
  datatype RouteField = VarNdx | Amount | ModType

  /** Slot `i` of one source's route table: `xxxVarNdx[i]` (the target
      parameter), `xxxAmount[i]` and `xxxModType[i]` (0: the source is read
      as unipolar 0..255, otherwise as bipolar -128..127). */
  datatype Route = Route(varNdx: int, amount: int, modType: int) {
    function Field(f: RouteField): int {
      match f
      case VarNdx => varNdx
      case Amount => amount
      case ModType => modType
    }

    /** The assignment of one table entry: only field `f` changes. */
    function With(f: RouteField, v: int): (r: Route)
      ensures r.Field(f) == v
      ensures forall g :: g != f ==> r.Field(g) == Field(g)
    {
      match f
      case VarNdx => this.(varNdx := v)
      case Amount => this.(amount := v)
      case ModType => this.(modType := v)
    }
  }

  const UnboundRoute: Route := Route(Unbound, 0, 0)

  /** The three route tables, one per source. */
  datatype Tables = Tables(env2: seq<Route>, lfo1: seq<Route>, lfo2: seq<Route>) {
    function Of(src: Source): seq<Route> {
      match src
      case Env2 => env2
      case Lfo1 => lfo1
      case Lfo2 => lfo2
    }

    predicate WellFormed() {
      |env2| == NumModValues && |lfo1| == NumModValues && |lfo2| == NumModValues
    }

    /** The assignment of field `f` of entry `i` of the table of `src`. */
    function Assign(src: Source, i: int, f: RouteField, v: int): (t: Tables)
      requires WellFormed() && 0 <= i < NumModValues
      ensures t.WellFormed()
      ensures t.Of(src) == Of(src)[i := Of(src)[i].With(f, v)]
      ensures forall s :: s != src ==> t.Of(s) == Of(s)
    {
      match src
      case Env2 => this.(env2 := env2[i := env2[i].With(f, v)])
      case Lfo1 => this.(lfo1 := lfo1[i := lfo1[i].With(f, v)])
      case Lfo2 => this.(lfo2 := lfo2[i := lfo2[i].With(f, v)])
    }

    /** The tables with every slot of `src` pointing nowhere. */
    function UnbindAll(src: Source): (t: Tables)
      requires WellFormed()
      ensures t.WellFormed()
      ensures forall s :: s != src ==> t.Of(s) == Of(s)
      ensures forall i :: 0 <= i < NumModValues ==> t.Of(src)[i].varNdx == Unbound
    {
      var none := seq(NumModValues, _ => UnboundRoute);
      match src
      case Env2 => this.(env2 := none)
      case Lfo1 => this.(lfo1 := none)
      case Lfo2 => this.(lfo2 := none)
    }
  }

  /** The sources' current outputs (`env2_now`, `LFO1_now`, `LFO2_now`) and
      the three enable flags `modulator` is called with. */
  datatype SourceValues = SourceValues(
    env2Now: int, lfo1Now: int, lfo2Now: int,
    env2On: bool, lfo1On: bool, lfo2On: bool)
  {
    function Now(src: Source): int {
      match src
      case Env2 => env2Now
      case Lfo1 => lfo1Now
      case Lfo2 => lfo2Now
    }

    function On(src: Source): bool {
      match src
      case Env2 => env2On
      case Lfo1 => lfo1On
      case Lfo2 => lfo2On
    }

    /** `env2_now` is a byte; the LFOs play signed 8-bit tables. */
    predicate InRange() {
      IsByte(env2Now) && IsInt8(lfo1Now) && IsInt8(lfo2Now)
    }

    function Switch(src: Source, on: bool): (v: SourceValues)
      ensures v.On(src) == on
      ensures forall s :: v.Now(s) == Now(s)
      ensures forall s :: s != src ==> v.On(s) == On(s)
    {
      match src
      case Env2 => this.(env2On := on)
      case Lfo1 => this.(lfo1On := on)
      case Lfo2 => this.(lfo2On := on)
    }
  }

  /** The factor a source's output is read as, before scaling by the amount:
      the envelope is unipolar as it stands and bipolar after subtracting 128;
      an LFO is bipolar as it stands and unipolar after adding 128. */
  function Reading(src: Source, now: int, modType: int): int {
    match src
    case Env2 => if modType == 0 then now else now - 128
    case _ => if modType == 0 then now + 128 else now
  }

  /** What one route slot adds: `(reading * amount) >> 8`. */
  function Contribution(src: Source, now: int, r: Route): int {
    Asr(Reading(src, now, r.modType) * r.amount, 8)
  }

  /** What slot `r` of source `src` adds to parameter `k`: nothing unless the
      source is enabled and the slot's target is `k`. */
  function RouteOffset(src: Source, v: SourceValues, r: Route, k: int): int {
    if v.On(src) && r.varNdx != Unbound && r.varNdx == k then Contribution(src, v.Now(src), r) else 0
  }

  /** The sum of what the first `n` slots of all three tables add to parameter `k`. */
  function Offset(t: Tables, v: SourceValues, k: int, n: nat): int
    requires t.WellFormed() && n <= NumModValues
  {
    if n == 0 then 0
    else
      Offset(t, v, k, n - 1)
      + RouteOffset(Env2, v, t.env2[n - 1], k)
      + RouteOffset(Lfo1, v, t.lfo1[n - 1], k)
      + RouteOffset(Lfo2, v, t.lfo2[n - 1], k)
  }

  function Clamp255(x: int): (r: int)
    ensures -255 <= r <= 255
    ensures -255 <= x <= 255 ==> r == x
    ensures x > 255 ==> r == 255
    ensures x < -255 ==> r == -255
  {
    if x > 255 then 255 else if x < -255 then -255 else x
  }

  /** `modulatedValuesOutput[k]`: the base value plus every routed offset, clamped. */
  function Modulated(bases: seq<int>, t: Tables, v: SourceValues, k: int): (r: int)
    requires t.WellFormed() && |bases| == NumModValues && 0 <= k < NumModValues
    ensures -255 <= r <= 255
  {
    Clamp255(bases[k] + Offset(t, v, k, NumModValues))
  }

  // ---------------------------------------------------------------------
  // The inputs for which `modulator` is defined.

  /** A bound on route amounts under which no product or sum overflows 32 bits. */
  const AmountLimit: int := 0x40_0000

  /** A bound on base values under which adding the offsets does not overflow. */
  const BaseLimit: int := 0x4000_0000

  /** A target the firmware can write: `modValues[VarNdx[i]]` has no bounds
      check, so every entry must be `-1` or a parameter index. */
  predicate ValidTarget(x: int) {
    x == Unbound || 0 <= x < NumModValues
  }

  predicate RouteDefined(r: Route) {
    ValidTarget(r.varNdx) && Abs(r.amount) <= AmountLimit
  }

  predicate TablesDefined(t: Tables) {
    && t.WellFormed()
    && (forall i :: 0 <= i < NumModValues ==> RouteDefined(t.env2[i]))
    && (forall i :: 0 <= i < NumModValues ==> RouteDefined(t.lfo1[i]))
    && (forall i :: 0 <= i < NumModValues ==> RouteDefined(t.lfo2[i]))
  }

  predicate BasesDefined(bases: seq<int>) {
    |bases| == NumModValues && forall k :: 0 <= k < NumModValues ==> Abs(bases[k]) <= BaseLimit
  }

  // ---------------------------------------------------------------------
  // Properties.

  /** One route never moves its target by more than its amount, and the
      product it shifts fits in 32 bits. */
  lemma ContributionBound(src: Source, v: SourceValues, r: Route)
    requires v.InRange() && Abs(r.amount) <= AmountLimit
    ensures IsInt32(Reading(src, v.Now(src), r.modType) * r.amount)
    ensures Abs(Contribution(src, v.Now(src), r)) <= Abs(r.amount)
  {
    var m := Reading(src, v.Now(src), r.modType);
    assert Abs(m) <= 255;
    MulBound(m, 255, r.amount, Abs(r.amount));
    MulBound(m, 255, r.amount, AmountLimit);
    var x := m * r.amount;
    var q := Asr(x, 8);
    assert Pow2(8) == 256;
    assert q * 256 <= x < q * 256 + 256;
  }

  /** The first `n` slots of three tables move a parameter by at most
      `3 * n * AmountLimit`. */
  lemma {:induction false} OffsetBound(t: Tables, v: SourceValues, k: int, n: nat)
    requires TablesDefined(t) && v.InRange() && n <= NumModValues
    ensures Abs(Offset(t, v, k, n)) <= 3 * n * AmountLimit
  {
    if n > 0 {
      OffsetBound(t, v, k, n - 1);
      ContributionBound(Env2, v, t.env2[n - 1]);
      ContributionBound(Lfo1, v, t.lfo1[n - 1]);
      ContributionBound(Lfo2, v, t.lfo2[n - 1]);
    }
  }

  /** Every partial sum `modulator` forms, and the final `base + offset`,
      fits in a 32-bit `int`. */
  lemma NoOverflow(bases: seq<int>, t: Tables, v: SourceValues, k: int, n: nat)
    requires TablesDefined(t) && BasesDefined(bases) && v.InRange()
    requires 0 <= k < NumModValues && n <= NumModValues
    ensures IsInt32(Offset(t, v, k, n) + 3 * AmountLimit) && IsInt32(Offset(t, v, k, n) - 3 * AmountLimit)
    ensures IsInt32(bases[k] + Offset(t, v, k, n))
  {
    OffsetBound(t, v, k, n);
  }

  /** With all three sources switched off, no route adds anything, whatever
      the tables say. */
  lemma {:induction false} SilentSourcesAddNothing(t: Tables, v: SourceValues, k: int, n: nat)
    requires t.WellFormed() && n <= NumModValues
    requires !v.env2On && !v.lfo1On && !v.lfo2On
    ensures Offset(t, v, k, n) == 0
  {
    if n > 0 {
      SilentSourcesAddNothing(t, v, k, n - 1);
    }
  }

  /** Hence each output is then its clamped base value, the global that
      `ptrModValues` names for the slot. */
  lemma Unmodulated(bases: seq<int>, t: Tables, v: SourceValues, k: int)
    requires t.WellFormed() && |bases| == NumModValues && 0 <= k < NumModValues
    requires !v.env2On && !v.lfo1On && !v.lfo2On
    ensures Modulated(bases, t, v, k) == Clamp255(bases[k])
  {
    SilentSourcesAddNothing(t, v, k, NumModValues);
  }

  /** Switching one source off has the same effect as pointing all its slots
      nowhere while it stays on. */
  lemma {:induction false} SwitchedOffIsUnbound(t: Tables, v: SourceValues, src: Source, k: int, n: nat)
    requires t.WellFormed() && n <= NumModValues && 0 <= k < NumModValues
    ensures Offset(t, v.Switch(src, false), k, n) == Offset(t.UnbindAll(src), v.Switch(src, true), k, n)
  {
    if n > 0 {
      SwitchedOffIsUnbound(t, v, src, k, n - 1);
    }
  }

  /** A table holding a single bound slot `i` of source `src`, all else unbound. */
  predicate OnlySlot(t: Tables, src: Source, i: int) {
    && t.WellFormed() && 0 <= i < NumModValues
    && forall s, j :: 0 <= j < NumModValues && (s != src || j != i) ==> t.Of(s)[j].varNdx == Unbound
  }

  /** With a single bound slot, its contribution lands on the parameter its
      `VarNdx` names, not on the parameter with the slot's own number. */
  lemma {:induction false} SingleRoute(t: Tables, v: SourceValues, src: Source, i: int, k: int, n: nat)
    requires OnlySlot(t, src, i) && 0 <= k < NumModValues && n <= NumModValues
    ensures Offset(t, v, k, n) ==
      if i < n && v.On(src) && t.Of(src)[i].varNdx == k then Contribution(src, v.Now(src), t.Of(src)[i]) else 0
  {
    if n > 0 {
      SingleRoute(t, v, src, i, k, n - 1);
      assert t.Of(Env2)[n - 1] == t.env2[n - 1];
      assert t.Of(Lfo1)[n - 1] == t.lfo1[n - 1];
      assert t.Of(Lfo2)[n - 1] == t.lfo2[n - 1];
    }
  }

  const NoRoutes: seq<Route> := seq(NumModValues, _ => UnboundRoute)

  /** The secondary envelope at 200, routed from slot 0 to parameter 0 with
      amount 128 in mode 0, lifts a base of 100 to 200. */
  lemma EnvelopeExample()
    ensures var t := Tables(NoRoutes[0 := Route(0, 128, 0)], NoRoutes, NoRoutes);
      var v := SourceValues(200, 0, 0, true, false, false);
      Modulated([100, 0, 0, 0, 0, 0, 0, 0, 0], t, v, 0) == 200
  {
    var t := Tables(NoRoutes[0 := Route(0, 128, 0)], NoRoutes, NoRoutes);
    var v := SourceValues(200, 0, 0, true, false, false);
    SingleRoute(t, v, Env2, 0, 0, NumModValues);
    assert Pow2(8) == 256;
  }

  /** LFO1 at -100, routed from slot 2 to parameter 2 with amount 64 in the
      bipolar mode, lowers a base of 50 to 25. */
  lemma LfoExample()
    ensures var t := Tables(NoRoutes, NoRoutes[2 := Route(2, 64, 1)], NoRoutes);
      var v := SourceValues(0, -100, 0, false, true, false);
      Modulated([0, 0, 50, 0, 0, 0, 0, 0, 0], t, v, 2) == 25
  {
    var t := Tables(NoRoutes, NoRoutes[2 := Route(2, 64, 1)], NoRoutes);
    var v := SourceValues(0, -100, 0, false, true, false);
    SingleRoute(t, v, Lfo1, 2, 2, NumModValues);
    assert Pow2(8) == 256;
  }

  /** The shift rounds toward minus infinity: an LFO at -1 with amount 1
      lowers its target by one, where a truncating division would give 0. */
  lemma ShiftRoundsDown()
    ensures Contribution(Lfo1, -1, Route(0, 1, 1)) == -1
  {
    assert Pow2(8) == 256;
  }

  /** Slot 3 of the envelope table with `VarNdx` 7 moves the filter cutoff
      (parameter 7); parameter 3 keeps its base value. */
  lemma RedirectedSlot()
    ensures var t := Tables(NoRoutes[3 := Route(7, 256, 0)], NoRoutes, NoRoutes);
      var v := SourceValues(100, 0, 0, true, false, false);
      var bases := [255, 0, 0, 10, 0, 0, 0, 50, 5];
      Modulated(bases, t, v, 7) == 150 && Modulated(bases, t, v, 3) == 10
  {
    var t := Tables(NoRoutes[3 := Route(7, 256, 0)], NoRoutes, NoRoutes);
    var v := SourceValues(100, 0, 0, true, false, false);
    SingleRoute(t, v, Env2, 3, 7, NumModValues);
    SingleRoute(t, v, Env2, 3, 3, NumModValues);
    assert Pow2(8) == 256;
  }
}
