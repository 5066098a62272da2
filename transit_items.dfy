/*
 * The design parameters a transit-system update reads, the object counters it
 * keeps, and the virtual objects each of its rebuild blocks creates: where on
 * the ring each one sits, which wedge of which frame it goes to, which list
 * and which pool it belongs to.
 */
module TransitItems {
  import opened Pools
  import opened Wedges
  import opened Frames
  import opened Population
  import opened TransitKinds
  import opened FacilitySlots

  /** The design parameters the update reads. */
  datatype Settings = Settings(
    showTransitVehicles: bool, numVirtualTransitVehicles: nat, randomizeStartPositions: bool,
    numVirtualRingTerminuses: nat, numVirtualHabitats: nat,
    showRingTerminuses: bool, showHabitats: bool, showElevatorCars: bool, showGroundTerminuses: bool,
    showTransitTrack: bool, numUpwardTracks: nat, numOutwardTracks: nat,
    showSolarArrays: bool, numVirtualSolarArrays: nat,
    showElevatorCables: bool,
    showStationaryRings: bool, numVirtualStationaryRingSegments: nat,
    showTransitTube: bool,
    showMovingRings: bool, numVirtualMovingRingSegments: nat,
    numMainRings: nat)

  /** The counters the system keeps of what it last built, one per class. */
  datatype Counts = Counts(
    transitVehicles: nat, ringTerminuses: nat, habitats: nat, elevatorCars: nat, groundTerminuses: nat,
    trackSegments: nat, solarArrays: nat, elevatorCables: nat,
    stationaryRingSegments: nat, tubeSegments: nat, movingRingSegments: nat)

  /** The counters of a freshly constructed system. */
  const NoCounts := Counts(0, 0, 0, 0, 0, 0, 0, 0, 0, 0, 0)

  /** The number of transit stops: ring termini and habitats together. */
  function Stops(s: Settings): nat
  {
    s.numVirtualRingTerminuses + s.numVirtualHabitats
  }

  /** What each counter becomes: the configured number when the class is shown, and 0 otherwise. */
  function NewCounts(s: Settings): Counts
  {
    var nt := s.numVirtualRingTerminuses;
    Counts(
      if s.showTransitVehicles then s.numVirtualTransitVehicles else 0,
      if s.showRingTerminuses then nt else 0,
      if s.showHabitats then s.numVirtualHabitats else 0,
      if s.showElevatorCars then nt else 0,
      if s.showGroundTerminuses then nt else 0,
      if s.showTransitTrack then Stops(s) else 0,
      if s.showSolarArrays then s.numVirtualSolarArrays else 0,
      if s.showElevatorCables then nt else 0,
      if s.showStationaryRings then s.numVirtualStationaryRingSegments else 0,
      if s.showTransitTube then Stops(s) else 0,
      if s.showMovingRings then s.numVirtualMovingRingSegments else 0)
  }

  /** The counter that records the objects of a kind; all track kinds share one. */
  function CountFor(c: Counts, k: Kind): nat
  {
    match k
    case TransitVehicles => c.transitVehicles
    case RingTerminuses => c.ringTerminuses
    case GroundTerminuses => c.groundTerminuses
    case Habitats => c.habitats
    case ElevatorCars => c.elevatorCars
    case TransitTrackSegments(_, _) => c.trackSegments
    case SolarArrays => c.solarArrays
    case MovingRingSegments => c.movingRingSegments
    case StationaryRingSegments => c.stationaryRingSegments
    case TransitTubeSegments => c.tubeSegments
    case ElevatorCables => c.elevatorCables
  }

  /** The draws of the random source, by frame and by object; each lies in [0, 1). */
  type Random = (nat, nat) -> real

  ghost predicate Uniform(random: Random)
  {
    forall k: nat, i: nat :: 0.0 <= random(k, i) < 1.0
  }

  /** The wedge of a position: floor(position * wedges) modulo the number of wedges. */
  function WedgeOf(x: real): (r: nat)
    ensures r < NumWedges
  {
    (x * NumWedges as real).Floor % NumWedges
  }

  /** A virtual object that borrows from its kind's pool and holds no model yet, bound for a wedge of a frame. */
  function NewItem(frame: nat, pos: real, index: int, kind: Kind, outward: nat): Item<Kind>
  {
    Item(Entry(frame, WedgeOf(pos)), kind, VirtualObject(pos, index, Some(PoolOf(kind, outward)), None))
  }

  /**
   * An item as a rebuild block makes it: bound for a wedge of one of the
   * block's frames, of one of its kinds, new (holding no model) and borrowing
   * from its kind's own pool.
   */
  predicate Built(it: Item<Kind>, fs: seq<nat>, ks: seq<Kind>, outward: nat)
  {
    it.entry.frame in fs && it.entry.wedge < NumWedges && it.kind in ks
    && it.obj.model.None? && it.obj.pool == Some(PoolOf(it.kind, outward))
  }

  predicate AllBuilt(items: seq<Item<Kind>>, fs: seq<nat>, ks: seq<Kind>, outward: nat)
  {
    forall n :: 0 <= n < |items| ==> Built(items[n], fs, ks, outward)
  }

  lemma AllBuiltWiden(items: seq<Item<Kind>>, fs: seq<nat>, ks: seq<Kind>, ks': seq<Kind>, outward: nat)
    requires AllBuilt(items, fs, ks, outward)
    requires forall k :: k in ks ==> k in ks'
    ensures AllBuilt(items, fs, ks', outward)
  {
  }

  /** The number of items of a kind. */
  function CountKind(items: seq<Item<Kind>>, k: Kind): nat
  {
    CountBefore(items, k, |items|)
  }

  /** The number of items of a kind among the first n. */
  function CountBefore(items: seq<Item<Kind>>, k: Kind, n: nat): nat
    requires n <= |items|
  {
    if n == 0 then 0 else CountBefore(items, k, n - 1) + (if items[n - 1].kind == k then 1 else 0)
  }

  /** Counting looks only at the items counted. */
  lemma {:induction false} CountBeforePrefix(a: seq<Item<Kind>>, b: seq<Item<Kind>>, k: Kind, n: nat)
    requires n <= |a| && n <= |b| && a[..n] == b[..n]
    ensures CountBefore(a, k, n) == CountBefore(b, k, n)
  {
    if n > 0 {
      assert a[..n - 1] == a[..n][..n - 1] && b[..n - 1] == b[..n][..n - 1];
      assert a[n - 1] == a[..n][n - 1];
      CountBeforePrefix(a, b, k, n - 1);
    }
  }

  /** The count of a non-empty sequence is that of all but its last item, plus the last. */
  lemma CountKindLast(items: seq<Item<Kind>>, k: Kind)
    requires items != []
    ensures CountKind(items, k) == CountKind(items[..|items| - 1], k) + (if items[|items| - 1].kind == k then 1 else 0)
  {
    var n := |items| - 1;
    assert items[..n][..n] == items[..n];
    CountBeforePrefix(items, items[..n], k, n);
  }

  lemma {:induction false} CountKindAppend(a: seq<Item<Kind>>, b: seq<Item<Kind>>, k: Kind)
    ensures CountKind(a + b, k) == CountKind(a, k) + CountKind(b, k)
  {
    if b != [] {
      CountKindAppend(a, b[..|b| - 1], k);
      assert (a + b)[..|a + b| - 1] == a + b[..|b| - 1];
      CountKindLast(a + b, k);
      CountKindLast(b, k);
    } else {
      assert a + b == a;
    }
  }

  /** No item of a kind outside the kinds the items were built with. */
  lemma {:induction false} CountKindOutside(items: seq<Item<Kind>>, fs: seq<nat>, ks: seq<Kind>, outward: nat, k: Kind)
    requires AllBuilt(items, fs, ks, outward) && k !in ks
    ensures CountKind(items, k) == 0
  {
    if items != [] {
      assert Built(items[|items| - 1], fs, ks, outward);
      CountKindOutside(items[..|items| - 1], fs, ks, outward, k);
      CountKindLast(items, k);
    }
  }

  function When(b: bool, it: Item<Kind>): seq<Item<Kind>>
  {
    if b then [it] else []
  }

  // ---------------------------------------------------------------- transit vehicles

  /** The i-th vehicle of a track: i steps along, plus up to 0.8 of a step when randomized. */
  function VehiclePosition(i: nat, step: real, randOn: bool, u: real): real
  {
    i as real * step + (if randOn then step * 0.8 * u else 0.0)
  }

  /** The first n vehicles of one track frame. */
  function VehicleRun(frame: nat, n: nat, step: real, randOn: bool, random: Random, outward: nat): (r: seq<Item<Kind>>)
    ensures |r| == n
    ensures forall i :: 0 <= i < n ==>
      r[i] == NewItem(frame, VehiclePosition(i, step, randOn, random(frame, i)), 0, TransitVehicles, outward)
  {
    if n == 0 then []
    else VehicleRun(frame, n - 1, step, randOn, random, outward)
         + [NewItem(frame, VehiclePosition(n - 1, step, randOn, random(frame, n - 1)), 0, TransitVehicles, outward)]
  }

  /**
   * The vehicles of a rebuild: N / 40 per express track (frames 0 and 1) and
   * N / 4 per collector track (frames 2 and 3), the loops running while the
   * index is below that real bound, each track spread evenly over a turn.
   */
  function VehicleItems(s: Settings, random: Random, outward: nat): (r: seq<Item<Kind>>)
    ensures var N := s.numVirtualTransitVehicles; |r| == if N == 0 then 0 else 2 * ((N + 39) / 40) + 2 * ((N + 3) / 4)
  {
    var N := s.numVirtualTransitVehicles;
    if N == 0 then []
    else
      var n1, step1 := (N + 39) / 40, 40.0 / N as real;
      var n2, step2 := (N + 3) / 4, 4.0 / N as real;
      var randOn := s.randomizeStartPositions;
      VehicleRun(0, n1, step1, randOn, random, outward) + VehicleRun(1, n1, step1, randOn, random, outward)
      + VehicleRun(2, n2, step2, randOn, random, outward) + VehicleRun(3, n2, step2, randOn, random, outward)
  }

  lemma VehicleItemsBuilt(s: Settings, random: Random, outward: nat)
    ensures AllBuilt(VehicleItems(s, random, outward), [0, 1, 2, 3], [TransitVehicles], outward)
  {
  }

  /** A loop `for (i = 0; i < N / d; i++)` over a real bound runs ceil(N / d) times. */
  lemma LoopBound(i: nat, N: nat, d: nat)
    requires d > 0
    ensures (i as real) < N as real / d as real <==> i < (N + d - 1) / d
  {
    assert (i as real) < N as real / d as real <==> (i * d) as real < N as real;
    if i * d < N {
      assert (i + 1) * d <= N + d - 1;
      DivUnique2(N + d - 1, d, i + 1);
    } else {
      assert N + d - 1 < (i + 1) * d;
      DivBelow(N + d - 1, d, i + 1);
    }
  }

  lemma DivUnique2(x: nat, m: nat, q: nat)
    requires m > 0 && q * m <= x
    ensures x / m >= q
  {
    MulMono(q, x / m + 1, m);
    assert (x / m + 1) * m == x / m * m + m;
  }

  lemma DivBelow(x: nat, m: nat, q: nat)
    requires m > 0 && x < q * m
    ensures x / m < q
  {
    MulMono(q, x / m, m);
  }

  /**
   * With draws in [0, 1), the i-th vehicle of a track lies in the first 80%
   * of its step when randomized, and exactly at i steps otherwise.
   */
  lemma VehicleRunPositions(frame: nat, n: nat, step: real, randOn: bool, random: Random, outward: nat)
    requires Uniform(random) && step > 0.0
    ensures var r := VehicleRun(frame, n, step, randOn, random, outward);
      forall i :: 0 <= i < n ==>
        i as real * step <= r[i].obj.position < i as real * step + step &&
        (!randOn ==> r[i].obj.position == i as real * step)
  {
    var r := VehicleRun(frame, n, step, randOn, random, outward);
    forall i | 0 <= i < n
      ensures i as real * step <= r[i].obj.position < i as real * step + step
      ensures !randOn ==> r[i].obj.position == i as real * step
    {
      var u := random(frame, i);
      assert r[i].obj.position == VehiclePosition(i, step, randOn, u);
      VehiclePositionBounds(i, step, randOn, u);
    }
  }

  /** A draw in [0, 1) moves a vehicle less than 80% of a step on. */
  lemma VehiclePositionBounds(i: nat, step: real, randOn: bool, u: real)
    requires step > 0.0 && 0.0 <= u < 1.0
    ensures i as real * step <= VehiclePosition(i, step, randOn, u) < i as real * step + step
    ensures !randOn ==> VehiclePosition(i, step, randOn, u) == i as real * step
  {
    var x := i as real * step;
    var y := step * 0.8 * u;
    assert y == step * (0.8 * u);
    assert 0.8 * u < 1.0;
    assert 0.0 <= y < step;
    assert VehiclePosition(i, step, randOn, u) == x + (if randOn then y else 0.0);
  }

  // ---------------------------------------------------------------- facilities and cables

  /** Stop i of nts, i / nts of a turn around the ring. */
  function StopPosition(i: nat, nts: nat): real
    requires nts > 0
  {
    i as real / nts as real
  }

  /** The terminus kinds, in the order a terminus stop pushes them. */
  const TerminusKinds: seq<Kind> := [RingTerminuses, GroundTerminuses, ElevatorCars]

  /** Whether the facilities of a kind are shown. */
  predicate Shown(s: Settings, k: Kind)
  {
    match k
    case RingTerminuses => s.showRingTerminuses
    case GroundTerminuses => s.showGroundTerminuses
    case ElevatorCars => s.showElevatorCars
    case Habitats => s.showHabitats
    case _ => false
  }

  /** One facility of each of the kinds ks that is shown, at one position of the facilities frame, in order. */
  function Made(s: Settings, ks: seq<Kind>, pos: real, outward: nat): seq<Item<Kind>>
  {
    if ks == [] then []
    else Made(s, ks[..|ks| - 1], pos, outward) + When(Shown(s, ks[|ks| - 1]), NewItem(4, pos, 0, ks[|ks| - 1], outward))
  }

  /** Whether stop i is a terminus stop of the system under test t. */
  predicate TerminusAt(s: Settings, t: SlotTest, i: nat)
    requires Stops(s) > 0
  {
    IsTerminusStop(t, i, s.numVirtualRingTerminuses, s.numVirtualHabitats)
  }

  /**
   * What the facilities frame gets at stop i: the shown termini at a terminus
   * stop, else a habitat if shown.  A rebuild applies the Intended test; the
   * AsWritten one is what the code does at its first stop.
   */
  function FacilityStop(s: Settings, t: SlotTest, i: nat, outward: nat): seq<Item<Kind>>
    requires Stops(s) > 0
  {
    var pos := StopPosition(i, Stops(s));
    if TerminusAt(s, t, i) then Made(s, TerminusKinds, pos, outward)
    else Made(s, [Habitats], pos, outward)
  }

  function FacilityRun(s: Settings, t: SlotTest, n: nat, outward: nat): seq<Item<Kind>>
    requires Stops(s) > 0
  {
    if n == 0 then [] else FacilityRun(s, t, n - 1, outward) + FacilityStop(s, t, n - 1, outward)
  }

  /** The facilities of a rebuild, stop by stop. */
  function FacilityItems(s: Settings, t: SlotTest, outward: nat): seq<Item<Kind>>
  {
    if Stops(s) == 0 then [] else FacilityRun(s, t, Stops(s), outward)
  }

  /** The cable at stop n - 1 when that is a terminus stop and cables are shown. */
  function CableAt(s: Settings, t: SlotTest, n: nat, outward: nat): seq<Item<Kind>>
    requires Stops(s) > 0 && n > 0
  {
    When(s.showElevatorCables && TerminusAt(s, t, n - 1), NewItem(6, StopPosition(n - 1, Stops(s)), 0, ElevatorCables, outward))
  }

  /** The elevator cables of a rebuild: one at each terminus stop, in the long-range frame. */
  function CableRun(s: Settings, t: SlotTest, n: nat, outward: nat): (r: seq<Item<Kind>>)
    requires Stops(s) > 0
    ensures AllBuilt(r, [6], [ElevatorCables], outward)
  {
    if n == 0 then [] else CableRun(s, t, n - 1, outward) + CableAt(s, t, n, outward)
  }

  function CableItems(s: Settings, t: SlotTest, outward: nat): (r: seq<Item<Kind>>)
    ensures AllBuilt(r, [6], [ElevatorCables], outward)
  {
    if Stops(s) == 0 then [] else CableRun(s, t, Stops(s), outward)
  }

  /** The facility kinds, in the order the update tears them down. */
  const FacilityKinds: seq<Kind> := [RingTerminuses, Habitats, ElevatorCars, GroundTerminuses]

  lemma {:induction false} MadeBuilt(s: Settings, ks: seq<Kind>, pos: real, outward: nat)
    ensures AllBuilt(Made(s, ks, pos, outward), [4], ks, outward)
  {
    if ks != [] {
      var front := ks[..|ks| - 1];
      MadeBuilt(s, front, pos, outward);
      AllBuiltWiden(Made(s, front, pos, outward), [4], front, ks, outward);
    }
  }

  lemma {:induction false} FacilityRunBuilt(s: Settings, t: SlotTest, n: nat, outward: nat)
    requires Stops(s) > 0
    ensures AllBuilt(FacilityRun(s, t, n, outward), [4], FacilityKinds, outward)
  {
    if n > 0 {
      FacilityRunBuilt(s, t, n - 1, outward);
      var pos := StopPosition(n - 1, Stops(s));
      MadeBuilt(s, TerminusKinds, pos, outward);
      MadeBuilt(s, [Habitats], pos, outward);
      AllBuiltWiden(Made(s, TerminusKinds, pos, outward), [4], TerminusKinds, FacilityKinds, outward);
      AllBuiltWiden(Made(s, [Habitats], pos, outward), [4], [Habitats], FacilityKinds, outward);
    }
  }

  lemma FacilityItemsBuilt(s: Settings, t: SlotTest, outward: nat)
    ensures AllBuilt(FacilityItems(s, t, outward), [4], FacilityKinds, outward)
  {
    if Stops(s) > 0 {
      FacilityRunBuilt(s, t, Stops(s), outward);
    }
  }

  /** How many times kind k is listed in ks. */
  function Occurs(ks: seq<Kind>, k: Kind): nat
  {
    if ks == [] then 0 else Occurs(ks[..|ks| - 1], k) + if ks[|ks| - 1] == k then 1 else 0
  }

  /** Made makes one object of kind k for each time ks lists it, if k is shown, and none otherwise. */
  lemma {:induction false} MadeCount(s: Settings, ks: seq<Kind>, pos: real, outward: nat, k: Kind)
    ensures CountKind(Made(s, ks, pos, outward), k) == if Shown(s, k) then Occurs(ks, k) else 0
  {
    if ks != [] {
      var pre, last := ks[..|ks| - 1], ks[|ks| - 1];
      var w := When(Shown(s, last), NewItem(4, pos, 0, last, outward));
      MadeCount(s, pre, pos, outward, k);
      CountKindAppend(Made(s, pre, pos, outward), w, k);
      CountWhen(Shown(s, last), NewItem(4, pos, 0, last, outward), k);
    }
  }

  /** Each terminus kind is listed once in TerminusKinds, and no other kind is. */
  lemma OccursTermini(k: Kind)
    ensures Occurs(TerminusKinds, k) == if IsTerminus(k) then 1 else 0
    ensures Occurs([Habitats], k) == if k == Habitats then 1 else 0
  {
    var t := TerminusKinds;
    assert t[..2] == [RingTerminuses, GroundTerminuses] && t[..2][..1] == [RingTerminuses];
    assert [RingTerminuses][..0] == [] && [Habitats][..0] == [];
    assert Occurs([RingTerminuses], k) == if k == RingTerminuses then 1 else 0;
    assert Occurs(t[..2], k) == Occurs([RingTerminuses], k) + if k == GroundTerminuses then 1 else 0;
    assert Occurs(t, k) == Occurs(t[..2], k) + if k == ElevatorCars then 1 else 0;
  }

  lemma CountWhen(b: bool, it: Item<Kind>, k: Kind)
    ensures CountKind(When(b, it), k) == if b && it.kind == k then 1 else 0
  {
    if b {
      assert When(b, it) == [it] && [it][0] == it;
      assert CountBefore([it], k, 0) == 0;
    }
  }

  /**
   * How many facilities of kind k a run of n stops with t terminus stops
   * holds: t of each shown terminus kind, n - t habitats if shown, and none
   * of any other kind.
   */
  function Expected(s: Settings, k: Kind, t: int, n: int): int
  {
    if !Shown(s, k) then 0 else if IsTerminus(k) then t else if k == Habitats then n - t else 0
  }

  /** The kinds of TerminusKinds. */
  predicate IsTerminus(k: Kind)
  {
    k.RingTerminuses? || k.GroundTerminuses? || k.ElevatorCars?
  }

  lemma ExpectedAdd(s: Settings, k: Kind, t: int, n: int, d: int)
    ensures Expected(s, k, t + d, n) == Expected(s, k, t, n - 1) + Expected(s, k, d, 1)
  {
  }

  /** At one stop: one of each shown terminus kind at a terminus stop, and else one habitat if shown. */
  lemma FacilityStopCount(s: Settings, t: SlotTest, i: nat, outward: nat, k: Kind)
    requires Stops(s) > 0
    ensures CountKind(FacilityStop(s, t, i, outward), k) == Expected(s, k, if TerminusAt(s, t, i) then 1 else 0, 1)
  {
    var pos := StopPosition(i, Stops(s));
    OccursTermini(k);
    if TerminusAt(s, t, i) {
      MadeCount(s, TerminusKinds, pos, outward, k);
    } else {
      MadeCount(s, [Habitats], pos, outward, k);
    }
  }

  /** Among the first n stops, with t of them terminus stops. */
  lemma {:induction false} FacilityRunCount(s: Settings, t: SlotTest, n: nat, outward: nat, k: Kind)
    requires Stops(s) > 0
    ensures CountKind(FacilityRun(s, t, n, outward), k) == Expected(s, k, TerminusStops(t, s.numVirtualRingTerminuses, s.numVirtualHabitats, n), n)
  {
    if n > 0 {
      var nt, nh := s.numVirtualRingTerminuses, s.numVirtualHabitats;
      var run, stop := FacilityRun(s, t, n - 1, outward), FacilityStop(s, t, n - 1, outward);
      var before, here := TerminusStops(t, nt, nh, n - 1), if TerminusAt(s, t, n - 1) then 1 else 0;
      FacilityRunCount(s, t, n - 1, outward, k);
      FacilityStopCount(s, t, n - 1, outward, k);
      CountKindAppend(run, stop, k);
      TerminusStopsNext(t, nt, nh, n);
      ExpectedAdd(s, k, before, n, here);
      assert FacilityRun(s, t, n, outward) == run + stop;
    }
  }

  lemma {:induction false} SlotsAtMost(t: SlotTest, nt: nat, nh: nat, n: nat)
    requires nt + nh > 0
    ensures TerminusStops(t, nt, nh, n) <= n
  {
    if n > 0 {
      SlotsAtMost(t, nt, nh, n - 1);
      TerminusStopsNext(t, nt, nh, n);
    }
  }

  lemma {:induction false} CableRunCount(s: Settings, t: SlotTest, n: nat, outward: nat)
    requires Stops(s) > 0
    ensures CountKind(CableRun(s, t, n, outward), ElevatorCables)
         == if s.showElevatorCables then TerminusStops(t, s.numVirtualRingTerminuses, s.numVirtualHabitats, n) else 0
  {
    if n > 0 {
      var it := NewItem(6, StopPosition(n - 1, Stops(s)), 0, ElevatorCables, outward);
      CableRunCount(s, t, n - 1, outward);
      CountKindAppend(CableRun(s, t, n - 1, outward), CableAt(s, t, n, outward), ElevatorCables);
      CountWhen(s.showElevatorCables && TerminusAt(s, t, n - 1), it, ElevatorCables);
      TerminusStopsNext(t, s.numVirtualRingTerminuses, s.numVirtualHabitats, n);
    }
  }

  /**
   * A rebuild creates exactly as many ring termini, ground termini, elevator
   * cars, habitats and elevator cables as the counters then record.
   */
  lemma FacilityCounts(s: Settings, outward: nat)
    ensures var c := NewCounts(s); var f := FacilityItems(s, Intended, outward);
      && CountKind(f, RingTerminuses) == c.ringTerminuses
      && CountKind(f, GroundTerminuses) == c.groundTerminuses
      && CountKind(f, ElevatorCars) == c.elevatorCars
      && CountKind(f, Habitats) == c.habitats
      && CountKind(CableItems(s, Intended, outward), ElevatorCables) == c.elevatorCables
  {
    if Stops(s) > 0 {
      FacilityRunCount(s, Intended, Stops(s), outward, RingTerminuses);
      FacilityRunCount(s, Intended, Stops(s), outward, GroundTerminuses);
      FacilityRunCount(s, Intended, Stops(s), outward, ElevatorCars);
      FacilityRunCount(s, Intended, Stops(s), outward, Habitats);
      SlotsAtMost(Intended, s.numVirtualRingTerminuses, s.numVirtualHabitats, Stops(s));
      CableRunCount(s, Intended, Stops(s), outward);
      TerminusSlotsCount(s.numVirtualRingTerminuses, s.numVirtualHabitats);
    }
  }

  lemma {:induction false} AsWrittenRunsAgree(s: Settings, n: nat, outward: nat)
    requires Stops(s) > 0 && s.numVirtualRingTerminuses > 0
    ensures FacilityRun(s, AsWritten, n, outward) == FacilityRun(s, Intended, n, outward)
    ensures CableRun(s, AsWritten, n, outward) == CableRun(s, Intended, n, outward)
  {
    if n > 0 {
      AsWrittenRunsAgree(s, n - 1, outward);
      AsWrittenAgreesWithTermini(n - 1, s.numVirtualRingTerminuses, s.numVirtualHabitats);
    }
  }

  /**
   * With at least one ring terminus, the code's own test builds exactly the
   * facilities and cables the rebuild builds with the intended one.
   */
  lemma AsWrittenAgrees(s: Settings, outward: nat)
    requires s.numVirtualRingTerminuses > 0
    ensures FacilityItems(s, AsWritten, outward) == FacilityItems(s, Intended, outward)
    ensures CableItems(s, AsWritten, outward) == CableItems(s, Intended, outward)
  {
    AsWrittenRunsAgree(s, Stops(s), outward);
  }

  /**
   * With no ring termini and some habitats, the code's own test builds one of
   * each shown terminus kind, one habitat fewer than the counter records, and
   * (when the cable block runs) one cable, while every terminus and cable
   * counter records 0: the counters then never let an update tear these down.
   */
  lemma AsWrittenStrayFacilities(s: Settings, outward: nat)
    requires s.numVirtualRingTerminuses == 0 && s.numVirtualHabitats > 0
    ensures var c := NewCounts(s); var f := FacilityItems(s, AsWritten, outward);
      && c.ringTerminuses == 0 && c.groundTerminuses == 0 && c.elevatorCars == 0 && c.elevatorCables == 0
      && CountKind(f, RingTerminuses) == (if s.showRingTerminuses then 1 else 0)
      && CountKind(f, GroundTerminuses) == (if s.showGroundTerminuses then 1 else 0)
      && CountKind(f, ElevatorCars) == (if s.showElevatorCars then 1 else 0)
      && CountKind(f, Habitats) == (if s.showHabitats then c.habitats - 1 else 0)
      && CountKind(CableItems(s, AsWritten, outward), ElevatorCables) == (if s.showElevatorCables then 1 else 0)
  {
    FacilityRunCount(s, AsWritten, Stops(s), outward, RingTerminuses);
    FacilityRunCount(s, AsWritten, Stops(s), outward, GroundTerminuses);
    FacilityRunCount(s, AsWritten, Stops(s), outward, ElevatorCars);
    FacilityRunCount(s, AsWritten, Stops(s), outward, Habitats);
    CableRunCount(s, AsWritten, Stops(s), outward);
    AsWrittenStrayTerminus(s.numVirtualHabitats);
  }

  // ---------------------------------------------------------------- tracks, rings, tubes, arrays

  /** The track segments of outward tracks 0 .. n-1 of upward track j, at one stop. */
  function TrackRow(frame: nat, pos: real, j: nat, n: nat, outward: nat): (r: seq<Item<Kind>>)
    ensures |r| == n && forall i :: 0 <= i < n ==> r[i] == NewItem(frame, pos, 0, TransitTrackSegments(j, i), outward)
  {
    if n == 0 then [] else TrackRow(frame, pos, j, n - 1, outward) + [NewItem(frame, pos, 0, TransitTrackSegments(j, n - 1), outward)]
  }

  /** The track segments of upward tracks 0 .. m-1 at one stop, n outward tracks each, upward index outermost. */
  function TrackRows(frame: nat, pos: real, m: nat, n: nat, outward: nat): (r: seq<Item<Kind>>)
    ensures |r| == m * n
    ensures AllBuilt(r, [frame], TrackKinds(m, n), outward)
  {
    if m == 0 then []
    else
      TrackKindsSplit(m, n);
      TrackRows(frame, pos, m - 1, n, outward) + TrackRow(frame, pos, m - 1, n, outward)
  }

  /** The track kinds of upward tracks 0 .. m-1 are those of 0 .. m-2 and those of track m-1. */
  lemma TrackKindsSplit(m: nat, n: nat)
    requires m > 0
    ensures forall k :: k in TrackKinds(m - 1, n) ==> k in TrackKinds(m, n)
    ensures forall k: Kind :: k.TransitTrackSegments? && k.upward == m - 1 && k.outward < n ==> k in TrackKinds(m, n)
  {
    var front := TrackKinds(m - 1, n);
    forall k: Kind | k.TransitTrackSegments? && k.upward == m - 1 && k.outward < n ensures k in TrackKinds(m, n) {
      var i := k.outward;
      assert TrackKinds(m, n)[|front| + i] == TransitTrackSegments(m - 1, i);
    }
  }

  /** Every track of an upward-by-outward system has its kind among the track kinds. */
  lemma {:induction false} TrackKindsComplete(m: nat, n: nat)
    ensures forall k: Kind :: k.TransitTrackSegments? && k.upward < m && k.outward < n ==> k in TrackKinds(m, n)
  {
    if m > 0 {
      TrackKindsComplete(m - 1, n);
      TrackKindsSplit(m, n);
    }
  }

  function TrackRun(s: Settings, n: nat, outward: nat): (r: seq<Item<Kind>>)
    requires Stops(s) > 0
    ensures AllBuilt(r, [4], TrackKinds(s.numUpwardTracks, s.numOutwardTracks), outward)
  {
    if n == 0 then []
    else TrackRun(s, n - 1, outward) + TrackRows(4, StopPosition(n - 1, Stops(s)), s.numUpwardTracks, s.numOutwardTracks, outward)
  }

  /** The track segments of a rebuild: at every stop, one per track. */
  function TrackItems(s: Settings, outward: nat): (r: seq<Item<Kind>>)
    ensures AllBuilt(r, [4], TrackKinds(s.numUpwardTracks, s.numOutwardTracks), outward)
  {
    if Stops(s) == 0 then [] else TrackRun(s, Stops(s), outward)
  }

  /** `copies` objects of a kind at one position; ring segments carry their ring number. */
  function Copies(frame: nat, pos: real, kind: Kind, copies: nat, numbered: bool, outward: nat): (r: seq<Item<Kind>>)
    ensures |r| == copies && AllBuilt(r, [frame], [kind], outward)
  {
    if copies == 0 then []
    else Copies(frame, pos, kind, copies - 1, numbered, outward) + [NewItem(frame, pos, if numbered then copies - 1 else 0, kind, outward)]
  }

  /** Positions 0 .. n-1 of count, evenly spread over a turn, with `copies` objects at each. */
  function Spread(frame: nat, kind: Kind, count: nat, n: nat, copies: nat, numbered: bool, outward: nat): (r: seq<Item<Kind>>)
    requires n <= count
    ensures |r| == n * copies && AllBuilt(r, [frame], [kind], outward)
  {
    if n == 0 then []
    else Spread(frame, kind, count, n - 1, copies, numbered, outward) + Copies(frame, (n - 1) as real / count as real, kind, copies, numbered, outward)
  }

  function SolarItems(s: Settings, outward: nat): (r: seq<Item<Kind>>)
    ensures |r| == s.numVirtualSolarArrays && AllBuilt(r, [4], [SolarArrays], outward)
  {
    var n := s.numVirtualSolarArrays;
    Spread(4, SolarArrays, n, n, 1, false, outward)
  }

  /** One stationary ring segment per main ring at each of the segment positions. */
  function StationaryRingItems(s: Settings, outward: nat): (r: seq<Item<Kind>>)
    ensures |r| == NewCounts(s).stationaryRingSegments * s.numMainRings && AllBuilt(r, [6], [StationaryRingSegments], outward)
  {
    var n := NewCounts(s).stationaryRingSegments;
    Spread(6, StationaryRingSegments, n, n, s.numMainRings, true, outward)
  }

  /** One transit tube segment per main ring at every stop; tube segments carry no ring number. */
  function TubeItems(s: Settings, outward: nat): (r: seq<Item<Kind>>)
    ensures |r| == Stops(s) * s.numMainRings && AllBuilt(r, [6], [TransitTubeSegments], outward)
  {
    Spread(6, TransitTubeSegments, Stops(s), Stops(s), s.numMainRings, false, outward)
  }

  function MovingRingItems(s: Settings, outward: nat): (r: seq<Item<Kind>>)
    ensures |r| == NewCounts(s).movingRingSegments * s.numMainRings && AllBuilt(r, [5], [MovingRingSegments], outward)
  {
    var n := NewCounts(s).movingRingSegments;
    Spread(5, MovingRingSegments, n, n, s.numMainRings, true, outward)
  }
}
