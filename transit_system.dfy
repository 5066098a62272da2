/*
 * The transit system: seven reference frames of 1024 wedges each, the pool
 * table, the object counters, the timer-event queue, the shared flag table
 * and the one-element flag by which late-arriving models ask for the wedge
 * history to be forgotten.  A tick drains the due events, moves the frames to
 * their phases, classifies every frame's wedges and runs the remove, assign
 * and update passes; an update rebuilds the populations whose counts changed.
 */
module TransitSystems {
  import opened Pools
  import opened Wedges
  import opened Windows
  import opened Camera
  import opened Frames
  import opened Population
  import opened TransitKinds
  import opened TransitItems
  import opened TransitRebuild

  // ---------------------------------------------------------------- timer events

  /** The event queue with every event due before time t taken off its front, in order. */
  function Drained(events: seq<real>, t: real): (r: seq<real>)
    ensures |r| <= |events| && r == events[|events| - |r|..]
    ensures forall i :: 0 <= i < |events| - |r| ==> events[i] < t
    ensures r != [] ==> r[0] >= t
  {
    if events != [] && events[0] < t then Drained(events[1..], t) else events
  }

  // ---------------------------------------------------------------- what a tick sees

  /**
   * The inputs of a tick: the phases of the express frames, of the collector
   * frames and of the moving rings, the nearest track position to the camera,
   * the camera's distance to the ring, and the ring's circumference.
   */
  datatype View = View(expressPhase: real, collectorPhase: real, movingRingPhase: real,
                       nearest: real, distance: real, circumference: real)

  /** Phases and the nearest position are fractions of a turn; the ring is longer than any camera range. */
  predicate ViewOK(v: View)
  {
    0.0 <= v.expressPhase <= 1.0 && 0.0 <= v.collectorPhase <= 1.0 && 0.0 <= v.movingRingPhase <= 1.0
    && 0.0 <= v.nearest < 1.0 && v.circumference >= CameraRange(6)
  }

  /** Each frame's phase this tick: the counter-rotating frames mirror their partners, frame 4 stands still, frame 6 keeps its own. */
  function PhaseOf(k: nat, v: View, p: real): real
  {
    match k
    case 0 => v.expressPhase
    case 1 => 1.0 - v.expressPhase
    case 2 => v.collectorPhase
    case 3 => 1.0 - v.collectorPhase
    case 4 => 0.0
    case 5 => v.movingRingPhase
    case _ => p
  }

  lemma PhaseInTurn(k: nat, v: View, p: real)
    requires ViewOK(v) && 0.0 <= p <= 1.0
    ensures 0.0 <= PhaseOf(k, v, p) <= 1.0
  {
  }

  function Phased(frames: seq<Frame<Kind>>, v: View): (r: seq<Frame<Kind>>)
    ensures |r| == |frames| && forall k :: 0 <= k < |frames| ==> r[k] == frames[k].(p := PhaseOf(k, v, frames[k].p))
  {
    seq(|frames|, k requires 0 <= k < |frames| => frames[k].(p := PhaseOf(k, v, frames[k].p)))
  }

  /** The late-loader handshake: every frame forgets where its window started last tick. */
  function ForgetHistory(frames: seq<Frame<Kind>>): (r: seq<Frame<Kind>>)
    ensures |r| == |frames| && forall k :: 0 <= k < |frames| ==> r[k] == frames[k].(prev := Window(-1, frames[k].prev.finish))
  {
    seq(|frames|, k requires 0 <= k < |frames| => frames[k].(prev := Window(-1, frames[k].prev.finish)))
  }

  /** Each frame's window this tick. */
  function Views(frames: seq<Frame<Kind>>, v: View): (r: seq<Window>)
    requires v.circumference > 0.0
    ensures |r| == |frames|
  {
    seq(|frames|, k requires 0 <= k < |frames| =>
      VisibleWindow(v.nearest, v.distance, frames[k].cameraRange, v.circumference, frames[k].p, NumWedges))
  }

  /** The frames a tick can work on: phases in [0, 1], camera ranges no longer than the ring, remembered windows well formed. */
  predicate FramesOK(frames: seq<Frame<Kind>>)
  {
    (forall k :: 0 <= k < |frames| ==> 0.0 <= frames[k].p <= 1.0 && 0.0 <= frames[k].cameraRange <= CameraRange(6))
    && PrevsWellFormed(frames, NumWedges)
  }

  lemma ViewsFit(frames: seq<Frame<Kind>>, v: View)
    requires ViewOK(v) && FramesOK(frames)
    ensures WindowsFit(frames, Views(frames, v), NumWedges)
  {
    forall k | 0 <= k < |frames| ensures WellFormed(Views(frames, v)[k], NumWedges) {
      VisibleWindowBounds(v.nearest, v.distance, frames[k].cameraRange, v.circumference, frames[k].p, NumWedges);
    }
  }

  lemma PhasedOK(frames: seq<Frame<Kind>>, v: View, invalidated: bool)
    requires ViewOK(v) && FramesOK(frames)
    ensures var f := Phased(frames, v); FramesOK(f) && FramesOK(ForgetHistory(f))
  {
  }

  // ---------------------------------------------------------------- a tick

  /** What a tick leaves: the frames, the pools, the next model number, the log, the placements, and its three lists. */
  datatype Tick = Tick(frames: seq<Frame<Kind>>, pools: seq<seq<Handle>>, next: Handle, log: seq<Log<Kind>>,
                       placed: seq<Placement<Kind>>, update: seq<Entry>, assign: seq<Entry>, remove: seq<Entry>)

  /** The frames a tick classifies: moved to their phases, and with their history forgotten if a loader asked. */
  function Prepared(frames: seq<Frame<Kind>>, invalidated: bool, v: View): seq<Frame<Kind>>
  {
    if invalidated then ForgetHistory(Phased(frames, v)) else Phased(frames, v)
  }

  /** The windows and lists of a tick, over the prepared frames. */
  function Classification(frames: seq<Frame<Kind>>, invalidated: bool, v: View): (r: Classes<Kind>)
    requires ViewOK(v) && FramesOK(frames)
    ensures var f := Prepared(frames, invalidated, v);
      WindowsFit(f, Views(f, v), NumWedges) && r == Classified(f, Views(f, v), NumWedges)
  {
    var f := Prepared(frames, invalidated, v);
    PhasedOK(frames, v, invalidated);
    ViewsFit(f, v);
    Classified(f, Views(f, v), NumWedges)
  }

  /**
   * One tick of animate, after the event queue: phases, the history reset,
   * the windows and the three lists, then the remove pass, the assign pass
   * (static unchanged kinds placed as they are assigned, clones logged) and
   * the update pass (dynamic or changed kinds placed).
   */
  function Ticked(frames: seq<Frame<Kind>>, pools: seq<seq<Handle>>, next: Handle, invalidated: bool, v: View,
                  dynamic: set<Class>, changed: set<Class>): Tick
    requires ViewOK(v) && FramesOK(frames)
  {
    var c := Classification(frames, invalidated, v);
    var rm := Removed(c.frames, c.remove, pools);
    var a := Assigned(rm.0, c.assign, rm.1, next, PlaceAtAssign(dynamic, changed), true);
    Tick(a.frames, a.pools, a.next, a.log, a.placed + Placements(a.frames, c.update, PlaceAtUpdate(dynamic, changed)),
         c.update, c.assign, c.remove)
  }

  lemma SameWedgesModels(a: seq<Frame<Kind>>, b: seq<Frame<Kind>>)
    requires |a| == |b| && forall k :: 0 <= k < |a| ==> a[k].wedges == b[k].wedges
    ensures FramesModels(a) == FramesModels(b) && SameShape(a, b)
  {
    assert FrameTotals(a) == FrameTotals(b);
  }

  /** The frames after classification are the prepared frames, each holding this tick's window. */
  lemma ClassificationFrames(frames: seq<Frame<Kind>>, invalidated: bool, v: View)
    requires ViewOK(v) && FramesOK(frames)
    ensures var f := Prepared(frames, invalidated, v);
      var c := Classification(frames, invalidated, v);
      |c.frames| == |frames| && FramesModels(c.frames) == FramesModels(frames) && SameShape(frames, c.frames)
      && forall k :: 0 <= k < |frames| ==> c.frames[k] == f[k].(window := Views(f, v)[k], prev := Views(f, v)[k])
  {
    var f := Prepared(frames, invalidated, v);
    var c := Classification(frames, invalidated, v);
    ClassifiedFrames(f, Views(f, v), NumWedges);
    SameWedgesModels(f, frames);
    SameWedgesModels(c.frames, f);
    SameShapeTrans(frames, f, c.frames);
  }

  /** The passes of a tick change only the wedges: each frame keeps its layout and its kind lists and sizes. */
  lemma PassesKeep(frames: seq<Frame<Kind>>, pools: seq<seq<Handle>>, next: Handle, invalidated: bool, v: View,
                   dynamic: set<Class>, changed: set<Class>)
    requires ViewOK(v) && FramesOK(frames)
    ensures var t := Ticked(frames, pools, next, invalidated, v, dynamic, changed);
      var c := Classification(frames, invalidated, v);
      Layout(t.frames) == Layout(c.frames) && SameShape(c.frames, t.frames) && |t.pools| == |pools|
  {
    var c := Classification(frames, invalidated, v);
    var rm := Removed(c.frames, c.remove, pools);
    RemovedLayout(c.frames, c.remove, pools);
    RemovedShape(c.frames, c.remove, pools);
    AssignedLayout(rm.0, c.assign, rm.1, next, PlaceAtAssign(dynamic, changed), true);
    AssignedShape(rm.0, c.assign, rm.1, next, PlaceAtAssign(dynamic, changed), true);
    SameShapeTrans(c.frames, rm.0, Assigned(rm.0, c.assign, rm.1, next, PlaceAtAssign(dynamic, changed), true).frames);
  }

  /**
   * A tick conserves models: what the frames and pools hold afterwards is what
   * they held before plus the clones it made, numbered next .. t.next - 1.
   */
  lemma TickConserves(frames: seq<Frame<Kind>>, pools: seq<seq<Handle>>, next: Handle, invalidated: bool, v: View,
                      dynamic: set<Class>, changed: set<Class>)
    requires ViewOK(v) && FramesOK(frames)
    ensures var t := Ticked(frames, pools, next, invalidated, v, dynamic, changed);
      t.next >= next && FramesModels(t.frames) + Pooled(t.pools) == FramesModels(frames) + Pooled(pools) + Ids(next, t.next)
  {
    var c := Classification(frames, invalidated, v);
    ClassificationFrames(frames, invalidated, v);
    var rm := Removed(c.frames, c.remove, pools);
    RemovedConserves(c.frames, c.remove, pools);
    AssignedConserves(rm.0, c.assign, rm.1, next, PlaceAtAssign(dynamic, changed), true);
  }

  /**
   * A tick keeps the frames' number, camera ranges and wedge counts, their
   * kind lists and list sizes, and the size of the pool table; it leaves each
   * frame at its new phase, remembering this tick's window.
   */
  lemma TickKeeps(frames: seq<Frame<Kind>>, pools: seq<seq<Handle>>, next: Handle, invalidated: bool, v: View,
                  dynamic: set<Class>, changed: set<Class>)
    requires ViewOK(v) && FramesOK(frames)
    ensures var t := Ticked(frames, pools, next, invalidated, v, dynamic, changed);
      var f := Prepared(frames, invalidated, v);
      |t.frames| == |frames| && |t.pools| == |pools| && SameShape(frames, t.frames)
      && forall k :: 0 <= k < |frames| ==>
           t.frames[k].cameraRange == frames[k].cameraRange && t.frames[k].p == PhaseOf(k, v, frames[k].p)
           && t.frames[k].window == t.frames[k].prev == Views(f, v)[k]
  {
    var t := Ticked(frames, pools, next, invalidated, v, dynamic, changed);
    var c := Classification(frames, invalidated, v);
    ClassificationFrames(frames, invalidated, v);
    PassesKeep(frames, pools, next, invalidated, v, dynamic, changed);
    SameShapeTrans(frames, c.frames, t.frames);
    forall k | 0 <= k < |frames|
      ensures t.frames[k].cameraRange == c.frames[k].cameraRange && t.frames[k].p == c.frames[k].p
      ensures t.frames[k].window == c.frames[k].window && t.frames[k].prev == c.frames[k].prev
    {
      assert Layout(t.frames)[k] == Layout(c.frames)[k];
    }
  }

  lemma KeptOK(frames: seq<Frame<Kind>>, g: seq<Frame<Kind>>, curs: seq<Window>, v: View)
    requires ViewOK(v) && FramesOK(frames) && |g| == |frames| == |curs|
    requires forall k :: 0 <= k < |frames| ==> WellFormed(curs[k], NumWedges)
    requires forall k :: 0 <= k < |frames| ==>
      g[k].cameraRange == frames[k].cameraRange && g[k].p == PhaseOf(k, v, frames[k].p) && g[k].prev == curs[k]
    ensures FramesOK(g)
  {
    forall k | 0 <= k < |frames| ensures 0.0 <= g[k].p <= 1.0 {
      PhaseInTurn(k, v, frames[k].p);
    }
  }

  /** After a tick the frames are again fit for the next one. */
  lemma TickFramesOK(frames: seq<Frame<Kind>>, pools: seq<seq<Handle>>, next: Handle, invalidated: bool, v: View,
                     dynamic: set<Class>, changed: set<Class>)
    requires ViewOK(v) && FramesOK(frames)
    ensures FramesOK(Ticked(frames, pools, next, invalidated, v, dynamic, changed).frames)
  {
    var f := Prepared(frames, invalidated, v);
    var c := Classification(frames, invalidated, v);
    TickKeeps(frames, pools, next, invalidated, v, dynamic, changed);
    KeptOK(frames, Ticked(frames, pools, next, invalidated, v, dynamic, changed).frames, Views(f, v), v);
  }

  /**
   * The classification of a tick is exact: wedge j of frame k is updated
   * exactly when it is in the frame's window, assigned exactly when it has
   * just come into view and removed exactly when it has just left it; once a
   * loader has asked, every wedge in view is assigned and none is removed.
   */
  lemma TickExact(frames: seq<Frame<Kind>>, pools: seq<seq<Handle>>, next: Handle, invalidated: bool, v: View,
                  dynamic: set<Class>, changed: set<Class>)
    requires ViewOK(v) && FramesOK(frames)
    ensures var t := Ticked(frames, pools, next, invalidated, v, dynamic, changed);
      var f := Prepared(frames, invalidated, v);
      var curs := Views(f, v);
      (forall k: nat, j: nat ::
        (Entry(k, j) in t.update <==> k < |frames| && j < NumWedges && Covers(curs[k], j))
        && (Entry(k, j) in t.assign <==> k < |frames| && j < NumWedges && Covers(curs[k], j) && !Covers(f[k].prev, j))
        && (Entry(k, j) in t.remove <==> k < |frames| && j < NumWedges && Covers(f[k].prev, j) && !Covers(curs[k], j)))
      && (invalidated ==> t.assign == t.update && t.remove == [])
  {
    var f := Prepared(frames, invalidated, v);
    var c := Classification(frames, invalidated, v);
    ClassifiedMembers(f, Views(f, v), NumWedges);
    if invalidated {
      ClassifiedAfterClearing(f, Views(f, v), NumWedges);
    }
  }

  /**
   * The placements of a tick: those of the assign pass are of static,
   * unchanged kinds in wedges just assigned; those of the update pass are
   * exactly the held models of dynamic or changed kinds in the wedges in view.
   */
  lemma TickPlacements(frames: seq<Frame<Kind>>, pools: seq<seq<Handle>>, next: Handle, invalidated: bool, v: View,
                       dynamic: set<Class>, changed: set<Class>, q: Placement<Kind>)
    requires ViewOK(v) && FramesOK(frames)
    ensures var t := Ticked(frames, pools, next, invalidated, v, dynamic, changed);
      var u := |Placements(t.frames, t.update, PlaceAtUpdate(dynamic, changed))|;
      (q in t.placed[..|t.placed| - u] ==> q.entry in t.assign && ClassOf(q.placed.kind) !in dynamic + changed)
      && (q in t.placed[|t.placed| - u..] <==> q.entry in t.update && ClassOf(q.placed.kind) in dynamic + changed && Holds(t.frames, q.entry, q.placed))
  {
    var t := Ticked(frames, pools, next, invalidated, v, dynamic, changed);
    var c := Classification(frames, invalidated, v);
    var rm := Removed(c.frames, c.remove, pools);
    var a := Assigned(rm.0, c.assign, rm.1, next, PlaceAtAssign(dynamic, changed), true);
    var u := Placements(a.frames, c.update, PlaceAtUpdate(dynamic, changed));
    AssignedPlacesListed(rm.0, c.assign, rm.1, next, PlaceAtAssign(dynamic, changed), true);
    PlacementsExact(a.frames, c.update, PlaceAtUpdate(dynamic, changed));
    PlacedByOnePass(dynamic, changed, q.placed.kind);
    assert t.placed[..|t.placed| - |u|] == a.placed && t.placed[|t.placed| - |u|..] == u;
  }

  // ---------------------------------------------------------------- counts and shape

  lemma ShapeAbsent(a: seq<Frame<Kind>>, b: seq<Frame<Kind>>, fs: seq<nat>, k: Kind)
    requires SameShape(a, b) && Absent(a, fs, k)
    ensures Absent(b, fs, k)
  {
    forall f, j, i | f in fs && f < |b| && 0 <= j < |b[f].wedges| && 0 <= i < |b[f].wedges[j]| && b[f].wedges[j][i].kind == k
      ensures b[f].wedges[j][i].objects == []
    {
      assert SameWedgeShape(a[f].wedges[j], b[f].wedges[j]);
    }
  }

  /** Frames with the same kind lists and sizes are accounted for alike. */
  lemma ShapeAccounted(a: seq<Frame<Kind>>, b: seq<Frame<Kind>>, c: Counts, upward: nat, outward: nat)
    requires SameShape(a, b) && Accounted(a, c, upward, outward)
    ensures Accounted(b, c, upward, outward)
  {
    forall k | Registered(k, upward, outward) && CountFor(c, k) == 0 ensures Absent(b, Home(k), k) {
      ShapeAbsent(a, b, Home(k), k);
    }
  }

  // ---------------------------------------------------------------- construction

  /** Frame k of a new system: at phase 0, with its camera range, empty wedges and nothing in view. */
  function NewFrame(k: nat, upward: nat, outward: nat): Frame<Kind>
  {
    Frame(0.0, CameraRange(k), seq(NumWedges, j => EmptyWedge(FrameKinds(k, upward, outward))), Window(-1, -1), Window(-1, -1))
  }

  /** The constructor's seven frames. */
  function NewFrames(upward: nat, outward: nat): seq<Frame<Kind>>
  {
    seq(NumFrames, k requires 0 <= k < NumFrames => NewFrame(k, upward, outward))
  }

  /** A new system's frames hold no models and no objects of any kind. */
  lemma NewFramesEmpty(frames: seq<Frame<Kind>>, upward: nat, outward: nat)
    requires |frames| == NumFrames && forall k :: 0 <= k < NumFrames ==> frames[k] == NewFrame(k, upward, outward)
    ensures FramesModels(frames) == multiset{}
    ensures forall f, j, i :: 0 <= f < |frames| && 0 <= j < |frames[f].wedges| && 0 <= i < |frames[f].wedges[j]| ==>
      frames[f].wedges[j][i].objects == []
  {
    forall k | 0 <= k < NumFrames ensures WedgesModels(frames[k].wedges) == multiset{} {
      EmptyWedgeModels(FrameKinds(k, upward, outward));
      SumEmpty(WedgeTotals(frames[k].wedges));
    }
    SumEmpty(FrameTotals(frames));
  }

  /** The number of clones of each late-loaded model and of the track, cable and ring models. */
  datatype ModelCounts = ModelCounts(
    transitVehicles: nat, ringTerminuses: nat, groundTerminuses: nat, elevatorCars: nat, habitats: nat,
    stationaryRings: nat, movingRings: nat, transitTubes: nat, transitTracks: nat, elevatorCables: nat)

  /** The kinds whose models arrive from an asset loader after construction. */
  predicate LateLoaded(k: Kind)
  {
    k in {TransitVehicles, RingTerminuses, GroundTerminuses, ElevatorCars, Habitats}
  }

  /** How many models a pool holds when the constructor is done (the late-loaded pools are still empty). */
  function InitialPoolSize(p: nat, m: ModelCounts, s: Settings): nat
  {
    if p < 5 then 0
    else if p == 5 then m.stationaryRings
    else if p == 6 then m.movingRings
    else if p == 7 then m.transitTubes
    else if p == 8 then s.numVirtualSolarArrays
    else if p == 9 then m.elevatorCables
    else m.transitTracks
  }

  /**
   * The pool sizes the constructor leaves: p0 holds the empty pools, p2 has
   * the stationary and moving rings cloned in, p3 the tube, p4 the tracks and
   * p6 the solar arrays and cables.
   */
  lemma InitialSizes(m: ModelCounts, s: Settings, p0: seq<seq<Handle>>, p2: seq<seq<Handle>>, p3: seq<seq<Handle>>,
                     p4: seq<seq<Handle>>, p6: seq<seq<Handle>>)
    requires |p0| >= 10 && forall q :: 0 <= q < |p0| ==> p0[q] == []
    requires |p2| == |p0| && forall q :: 0 <= q < |p2| ==> |p2[q]| == |p0[q]| + Added(q, 5, m.stationaryRings, 6, m.movingRings)
    requires |p3| == |p2| && forall q :: 0 <= q < |p3| ==> |p3[q]| == |p2[q]| + if q == 7 then m.transitTubes else 0
    requires Filled(p4, p3, |p3|, m.transitTracks)
    requires |p6| == |p4| && forall q :: 0 <= q < |p6| ==> |p6[q]| == |p4[q]| + Added(q, 8, s.numVirtualSolarArrays, 9, m.elevatorCables)
    ensures |p6| == |p0| && forall q :: 0 <= q < |p6| ==> |p6[q]| == InitialPoolSize(q, m, s)
  {
  }

  /** The clones pool r receives when a clones go to pool p and b to pool q. */
  function Added(r: nat, p: nat, a: nat, q: nat, b: nat): nat
  {
    if r == p then a else if r == q then b else 0
  }

  /** With every counter zero, no kind is torn down. */
  lemma {:induction false} CountedNone(ks: seq<Kind>)
    ensures Counted(ks, NoCounts) == []
  {
    if ks != [] {
      CountedNone(ks[..|ks| - 1]);
    }
  }

  lemma {:induction false} FirstRunKeepsPools(r: Rebuild, bs: seq<Block>, outward: nat)
    ensures RunBlocks(r, bs, NoCounts, outward).pools == r.pools
  {
    if bs != [] {
      FirstRunKeepsPools(r, bs[..|bs| - 1], outward);
      var b := bs[|bs| - 1];
      CountedNone(b.kinds);
    }
  }

  /** The kinds whose models come from a loader callback, which also asks for the wedge history to be forgotten. */
  predicate HasLoader(k: Kind)
  {
    !k.TransitTrackSegments? && k != ElevatorCables
  }

  /** Equal outlines keep each frame's phase, camera range and wedge count. */
  lemma OutlineFields(a: seq<Frame<Kind>>, b: seq<Frame<Kind>>, k: nat)
    requires Outline(a) == Outline(b) && k < |a|
    ensures a[k].p == b[k].p && a[k].cameraRange == b[k].cameraRange && |a[k].wedges| == |b[k].wedges|
  {
    assert Outline(a)[k] == Outline(b)[k];
  }

  // ---------------------------------------------------------------- the engine's invariant

  /**
   * The engine's state between ticks: seven frames with their camera ranges
   * and 1024 wedges, fit for a tick; a pool per kind; every model held by
   * exactly one object or pool slot; and no object of a kind whose counter is
   * zero.
   */
  ghost predicate EngineOK(frames: seq<Frame<Kind>>, pools: seq<seq<Handle>>, next: Handle, c: Counts, upward: nat, outward: nat)
  {
    |frames| == NumFrames && FramesOK(frames)
    && (forall k :: 0 <= k < NumFrames ==> frames[k].cameraRange == CameraRange(k) && |frames[k].wedges| == NumWedges)
    && |pools| == NumPools(upward, outward)
    && FramesModels(frames) + Pooled(pools) == Ids(0, next)
    && Accounted(frames, c, upward, outward)
  }

  /** A new system's frames and empty pools, before any model is made. */
  lemma NewEngineOK(upward: nat, outward: nat)
    ensures EngineOK(NewFrames(upward, outward), seq(NumPools(upward, outward), _ => []), 0, NoCounts, upward, outward)
  {
    var frames := NewFrames(upward, outward);
    NewFramesEmpty(frames, upward, outward);
    PooledEmpty(NumPools(upward, outward));
    IdsEmpty(0);
  }

  /** Filling a pool with fresh clones keeps the invariant. */
  lemma SeedOK(frames: seq<Frame<Kind>>, pools: seq<seq<Handle>>, next: Handle, c: Counts, upward: nat, outward: nat, p: nat, n: nat,
               pools': seq<seq<Handle>>, next': Handle)
    requires EngineOK(frames, pools, next, c, upward, outward) && p < |pools|
    requires pools' == pools[p := pools[p] + Pools.Fresh(next, n)] && next' == next + n
    ensures EngineOK(frames, pools', next', c, upward, outward)
  {
    SeedBalanced(FramesModels(frames), pools, p, next, n);
  }

  /** An update keeps the invariant, with the new counters. */
  lemma UpdateOK(r: Rebuild, next: Handle, c: Counts, s: Settings, random: Random, upward: nat, outward: nat)
    requires EngineOK(r.frames, r.pools, next, c, upward, outward)
    requires s.numUpwardTracks == upward && s.numOutwardTracks == outward
    ensures var u := Updated(r, c, s, random, outward); EngineOK(u.0.frames, u.0.pools, next, u.1, upward, outward)
  {
    var u := Updated(r, c, s, random, outward);
    UpdatedAccounted(r, c, s, random, outward);
    UpdatedKeeps(r, c, s, random, outward, NumWedges);
    forall k | 0 <= k < NumFrames
      ensures u.0.frames[k].p == r.frames[k].p && u.0.frames[k].cameraRange == r.frames[k].cameraRange
      ensures |u.0.frames[k].wedges| == |r.frames[k].wedges|
    {
      OutlineFields(u.0.frames, r.frames, k);
    }
  }

  /** A tick keeps the invariant. */
  lemma TickOK(frames: seq<Frame<Kind>>, pools: seq<seq<Handle>>, next: Handle, c: Counts, upward: nat, outward: nat,
               invalidated: bool, v: View, dynamic: set<Class>, changed: set<Class>)
    requires EngineOK(frames, pools, next, c, upward, outward) && ViewOK(v)
    ensures var t := Ticked(frames, pools, next, invalidated, v, dynamic, changed);
      EngineOK(t.frames, t.pools, t.next, c, upward, outward)
  {
    var t := Ticked(frames, pools, next, invalidated, v, dynamic, changed);
    TickConserves(frames, pools, next, invalidated, v, dynamic, changed);
    TickKeeps(frames, pools, next, invalidated, v, dynamic, changed);
    TickFramesOK(frames, pools, next, invalidated, v, dynamic, changed);
    IdsSplit(0, next, t.next);
    ShapeAccounted(frames, t.frames, c, upward, outward);
  }

  /** The pools below hi have grown by n clones each since start, from pool 10 on; the rest are as they were. */
  ghost predicate Filled(pools: seq<seq<Handle>>, start: seq<seq<Handle>>, hi: nat, n: nat)
  {
    |pools| == |start| && forall q :: 0 <= q < |pools| ==> |pools[q]| == |start[q]| + if 10 <= q < hi then n else 0
  }

  lemma FilledStep(pools: seq<seq<Handle>>, start: seq<seq<Handle>>, hi: nat, n: nat, pools': seq<seq<Handle>>)
    requires Filled(pools, start, hi, n) && 10 <= hi < |pools|
    requires |pools'| == |pools| && |pools'[hi]| == |pools[hi]| + n
    requires forall q :: 0 <= q < |pools| && q != hi ==> pools'[q] == pools[q]
    ensures Filled(pools', start, hi + 1, n)
  {
  }

  // ---------------------------------------------------------------- the steps of animate

  /** The due timer events come off the front of the queue, one at a time. */
  method DrainEvents(events: seq<real>, t: real) returns (rest: seq<real>)
    ensures rest == Drained(events, t)
  {
    rest := events;
    while rest != [] && rest[0] < t
      invariant Drained(rest, t) == Drained(events, t)
      decreases |rest|
    {
      rest := rest[1..];
    }
  }

  /** The frames' new phases, set one frame at a time. */
  method SetPhases(frames: seq<Frame<Kind>>, v: View) returns (frames': seq<Frame<Kind>>)
    requires |frames| == NumFrames
    ensures frames' == Phased(frames, v)
  {
    frames' := frames;
    frames' := frames'[0 := frames'[0].(p := v.expressPhase)];
    frames' := frames'[1 := frames'[1].(p := 1.0 - v.expressPhase)];
    frames' := frames'[2 := frames'[2].(p := v.collectorPhase)];
    frames' := frames'[3 := frames'[3].(p := 1.0 - v.collectorPhase)];
    frames' := frames'[4 := frames'[4].(p := 0.0)];
    frames' := frames'[5 := frames'[5].(p := v.movingRingPhase)];
  }

  /** Every frame forgets where its window started. */
  method ForgetAll(frames: seq<Frame<Kind>>) returns (frames': seq<Frame<Kind>>)
    ensures frames' == ForgetHistory(frames)
  {
    frames' := frames;
    for k := 0 to |frames|
      invariant |frames'| == |frames|
      invariant forall i :: 0 <= i < |frames| ==> frames'[i] == if i < k then frames[i].(prev := Window(-1, frames[i].prev.finish)) else frames[i]
    {
      frames' := frames'[k := frames'[k].(prev := Window(-1, frames'[k].prev.finish))];
    }
  }

  /** Each frame's window for this tick, frame by frame. */
  method FindWindows(frames: seq<Frame<Kind>>, v: View) returns (curs: seq<Window>)
    requires v.circumference > 0.0
    ensures curs == Views(frames, v)
  {
    curs := [];
    for k := 0 to |frames|
      invariant curs == Views(frames, v)[..k]
    {
      curs := curs + [VisibleWindow(v.nearest, v.distance, frames[k].cameraRange, v.circumference, frames[k].p, NumWedges)];
    }
  }

  /** The frames at their new phases, their wedge history forgotten if a loader asked, and each frame's window. */
  method Prepare(frames: seq<Frame<Kind>>, invalidated: bool, v: View) returns (f: seq<Frame<Kind>>, curs: seq<Window>)
    requires ViewOK(v) && FramesOK(frames) && |frames| == NumFrames
    ensures f == Prepared(frames, invalidated, v) && curs == Views(f, v)
    ensures WindowsFit(f, curs, NumWedges)
  {
    f := SetPhases(frames, v);
    if invalidated {
      f := ForgetAll(f);
    }
    curs := FindWindows(f, v);
    PhasedOK(frames, v, invalidated);
    ViewsFit(f, v);
  }

  /** The three passes over classified frames; they keep the engine's invariant. */
  method RunPasses(frames: seq<Frame<Kind>>, pools: seq<seq<Handle>>, next: Handle, counts: Counts, upward: nat, outward: nat,
                   invalidated: bool, v: View, dynamic: set<Class>, changed: set<Class>, c: Classes<Kind>) returns (t: Tick)
    requires ViewOK(v) && EngineOK(frames, pools, next, counts, upward, outward) && c == Classification(frames, invalidated, v)
    ensures t == Ticked(frames, pools, next, invalidated, v, dynamic, changed)
    ensures EngineOK(t.frames, t.pools, t.next, counts, upward, outward)
  {
    TickOK(frames, pools, next, counts, upward, outward, invalidated, v, dynamic, changed);
    var fr, pl := RemoveAll(c.frames, c.remove, pools);
    var a := AssignAll(fr, c.assign, pl, next, PlaceAtAssign(dynamic, changed), true);
    var u := PlaceAll(a.frames, c.update, PlaceAtUpdate(dynamic, changed));
    t := Tick(a.frames, a.pools, a.next, a.log, a.placed + u, c.update, c.assign, c.remove);
  }

  /** n fresh clones into pool p, keeping the invariant. */
  method Seed(frames: seq<Frame<Kind>>, pools: seq<seq<Handle>>, next: Handle, c: Counts, upward: nat, outward: nat, p: nat, n: nat)
    returns (pools': seq<seq<Handle>>, next': Handle)
    requires EngineOK(frames, pools, next, c, upward, outward) && p < |pools|
    ensures pools' == pools[p := pools[p] + Pools.Fresh(next, n)] && next' == next + n
    ensures EngineOK(frames, pools', next', c, upward, outward)
  {
    var seeded;
    seeded, next' := SeedPool(pools[p], next, n);
    pools' := pools[p := seeded];
    SeedOK(frames, pools, next, c, upward, outward, p, n, pools', next');
  }

  /** The constructor's track models: n clones into the pool of every track, upward index outermost. */
  method FillTracks(frames: seq<Frame<Kind>>, pools: seq<seq<Handle>>, next: Handle, c: Counts, upward: nat, outward: nat, n: nat)
    returns (pools': seq<seq<Handle>>, next': Handle)
    requires EngineOK(frames, pools, next, c, upward, outward)
    ensures Filled(pools', pools, |pools|, n) && next' >= next
    ensures EngineOK(frames, pools', next', c, upward, outward)
  {
    pools', next' := pools, next;
    for j := 0 to upward
      invariant EngineOK(frames, pools', next', c, upward, outward) && next' >= next
      invariant Filled(pools', pools, 10 + TrackCount(j, outward), n)
    {
      pools', next' := FillRow(frames, pools, pools', next', c, upward, outward, j, n);
    }
  }

  /** One row of the track table: n clones into the pool of each of the outward tracks at upward index j. */
  method FillRow(frames: seq<Frame<Kind>>, start: seq<seq<Handle>>, pools: seq<seq<Handle>>, next: Handle, c: Counts,
                 upward: nat, outward: nat, j: nat, n: nat)
    returns (pools': seq<seq<Handle>>, next': Handle)
    requires EngineOK(frames, pools, next, c, upward, outward) && j < upward
    requires Filled(pools, start, 10 + TrackCount(j, outward), n)
    ensures Filled(pools', start, 10 + TrackCount(j + 1, outward), n) && next' >= next
    ensures EngineOK(frames, pools', next', c, upward, outward)
  {
    pools', next' := pools, next;
    for i := 0 to outward
      invariant EngineOK(frames, pools', next', c, upward, outward) && next' >= next
      invariant Filled(pools', start, 10 + TrackCount(j, outward) + i, n)
    {
      TrackIndexBound(j, i, upward, outward);
      var before := pools';
      // the pool of track (j, i), PoolOf(TransitTrackSegments(j, i), outward)
      pools', next' := Seed(frames, pools', next', c, upward, outward, 10 + TrackCount(j, outward) + i, n);
      FilledStep(before, start, 10 + TrackCount(j, outward) + i, n, pools');
    }
  }

  /**
   * The constructor's pools: the synchronous loader callbacks (stationary
   * rings, moving rings, tube), the track clones, the solar arrays' callback
   * and the cable clones, in that order, into empty pools.
   */
  method InitialPools(s: Settings, m: ModelCounts, upward: nat, outward: nat) returns (pools: seq<seq<Handle>>, next: Handle)
    ensures EngineOK(NewFrames(upward, outward), pools, next, NoCounts, upward, outward)
    ensures |pools| == NumPools(upward, outward) && forall p :: 0 <= p < |pools| ==> |pools[p]| == InitialPoolSize(p, m, s)
  {
    var frames := NewFrames(upward, outward);
    NewEngineOK(upward, outward);
    var p0 := seq(NumPools(upward, outward), _ => []);
    // pools 5 .. 9 are PoolOf the stationary and moving rings, the tube, the solar arrays and the cables
    var p2, h3 := SeedTwo(frames, p0, 0, NoCounts, upward, outward, 5, m.stationaryRings, 6, m.movingRings);
    var p3, h4 := Seed(frames, p2, h3, NoCounts, upward, outward, 7, m.transitTubes);
    var p4, h5 := FillTracks(frames, p3, h4, NoCounts, upward, outward, m.transitTracks);
    pools, next := SeedTwo(frames, p4, h5, NoCounts, upward, outward, 8, s.numVirtualSolarArrays, 9, m.elevatorCables);
    InitialSizes(m, s, p0, p2, p3, p4, pools);
  }

  /** Clones a models into pool p, then b models into pool q. */
  method SeedTwo(frames: seq<Frame<Kind>>, pools: seq<seq<Handle>>, next: Handle, c: Counts, upward: nat, outward: nat,
                 p: nat, a: nat, q: nat, b: nat)
    returns (pools': seq<seq<Handle>>, next': Handle)
    requires EngineOK(frames, pools, next, c, upward, outward) && p < |pools| && q < |pools| && p != q
    ensures EngineOK(frames, pools', next', c, upward, outward)
    ensures |pools'| == |pools| && forall r :: 0 <= r < |pools| ==> |pools'[r]| == |pools[r]| + Added(r, p, a, q, b)
  {
    var p1, h2 := Seed(frames, pools, next, c, upward, outward, p, a);
    pools', next' := Seed(frames, p1, h2, c, upward, outward, q, b);
  }

  /**
   * One tick over the engine's state, the flag table aside: the frames'
   * phases and windows, the classification, and the three passes.
   */
  method Step(flags: array<bv8>, frames: seq<Frame<Kind>>, pools: seq<seq<Handle>>, next: Handle, counts: Counts, upward: nat, outward: nat,
              invalidated: bool, v: View, dynamic: set<Class>, changed: set<Class>) returns (t: Tick)
    requires ViewOK(v) && EngineOK(frames, pools, next, counts, upward, outward)
    requires flags.Length == NumWedges && AllClear(flags[..])
    modifies flags
    ensures AllClear(flags[..])
    ensures t == Ticked(frames, pools, next, invalidated, v, dynamic, changed)
    ensures EngineOK(t.frames, t.pools, t.next, counts, upward, outward)
  {
    var f, curs := Prepare(frames, invalidated, v);
    var c := ClassifyFrames(flags, f, curs);
    t := RunPasses(frames, pools, next, counts, upward, outward, invalidated, v, dynamic, changed, c);
  }

  // ---------------------------------------------------------------- the engine

  /** The update on values: the eight blocks in order, keeping the invariant under the new counters. */
  method Rebuilt(r: Rebuild, next: Handle, c: Counts, s: Settings, random: Random, upward: nat, outward: nat) returns (r': Rebuild)
    requires EngineOK(r.frames, r.pools, next, c, upward, outward)
    requires s.numUpwardTracks == upward && s.numOutwardTracks == outward
    ensures r' == Updated(r, c, s, random, outward).0 && EngineOK(r'.frames, r'.pools, next, NewCounts(s), upward, outward)
  {
    UpdateOK(r, next, c, s, random, upward, outward);
    r' := ApplyBlocks(r, Blocks(s, c, ItemLists(s, random, outward)), c, outward);
  }

  /**
   * What the constructor builds, on values: the new frames, the pools the
   * synchronous loader callbacks and the track and cable loops fill, then a
   * first update from zero counters, which tears nothing down and so leaves
   * the pools as they were.
   */
  method FirstBuilt(s: Settings, m: ModelCounts, random: Random, upward: nat, outward: nat) returns (r: Rebuild, next: Handle)
    requires s.numUpwardTracks == upward && s.numOutwardTracks == outward
    ensures EngineOK(r.frames, r.pools, next, NewCounts(s), upward, outward)
    ensures |r.pools| == NumPools(upward, outward) && forall p :: 0 <= p < |r.pools| ==> |r.pools[p]| == InitialPoolSize(p, m, s)
  {
    var pools;
    pools, next := InitialPools(s, m, upward, outward);
    var r0 := Rebuild(NewFrames(upward, outward), pools, []);
    r := Rebuilt(r0, next, NoCounts, s, random, upward, outward);
    FirstRunKeepsPools(r0, Blocks(s, NoCounts, ItemLists(s, random, outward)), outward);
  }

  class TransitSystem {
    /** The numbers of upward and outward tracks the pool table was laid out for. */
    const upward: nat
    const outward: nat
    /** The classes whose isDynamic flag is set. */
    const dynamic: set<Class>
    var frames: seq<Frame<Kind>>
    var pools: seq<seq<Handle>>
    /** The number the next cloned model gets. */
    var nextHandle: Handle
    /** The numVirtual... counters: what the last update built. */
    var counts: Counts
    var log: seq<Log<Kind>>
    /** The trigger times of the pending timer events, front first. */
    var eventList: seq<real>
    /** The classes whose hasChanged flag is set. */
    var changed: set<Class>
    const actionFlags: array<bv8>
    const invalidateWedgeHistory: array<bool>

    /** The flag table is clear between ticks, and the state keeps the engine's invariant. */
    ghost predicate Valid()
      reads this, actionFlags, invalidateWedgeHistory
    {
      actionFlags.Length == NumWedges && invalidateWedgeHistory.Length == 1 && AllClear(actionFlags[..])
      && EngineOK(frames, pools, nextHandle, counts, upward, outward)
    }

    /**
     * The constructor: seven empty frames, an empty pool per kind, the
     * synchronous loader callbacks (stationary rings, moving rings, tube,
     * solar arrays), the track and cable clones, and a first update.
     */
    constructor (s: Settings, random: Random, m: ModelCounts, dynamic: set<Class>, changed: set<Class>)
      ensures Valid() && fresh(actionFlags) && fresh(invalidateWedgeHistory)
      ensures upward == s.numUpwardTracks && outward == s.numOutwardTracks && this.dynamic == dynamic
      ensures counts == NewCounts(s) && eventList == [] && this.changed == changed && invalidateWedgeHistory[0]
      ensures |pools| == NumPools(upward, outward) && forall p :: 0 <= p < |pools| ==> |pools[p]| == InitialPoolSize(p, m, s)
    {
      upward, outward, this.dynamic := s.numUpwardTracks, s.numOutwardTracks, dynamic;
      var r, next := FirstBuilt(s, m, random, s.numUpwardTracks, s.numOutwardTracks);
      frames, pools, log, nextHandle := r.frames, r.pools, r.log, next;
      counts, eventList, this.changed := NewCounts(s), [], changed;
      actionFlags := new bv8[NumWedges](_ => 0);
      invalidateWedgeHistory := new bool[1](_ => true);
      new;
      assert actionFlags[..] == seq(NumWedges, _ => 0);
    }

    /**
     * A loader callback: n clones of the loaded model go into the kind's pool,
     * and the engine is asked to forget its wedge history.
     */
    method Loaded(k: Kind, n: nat)
      requires Valid() && HasLoader(k)
      modifies this, invalidateWedgeHistory
      ensures pools == old(pools)[PoolOf(k, outward) := old(pools)[PoolOf(k, outward)] + Pools.Fresh(old(nextHandle), n)]
      ensures nextHandle == old(nextHandle) + n && invalidateWedgeHistory[0]
      ensures frames == old(frames) && counts == old(counts) && log == old(log) && eventList == old(eventList) && changed == old(changed)
      ensures Valid()
    {
      invalidateWedgeHistory[0] := true;
      pools, nextHandle := Seed(frames, pools, nextHandle, counts, upward, outward, PoolOf(k, outward), n);
    }

    /**
     * update: the eight rebuild blocks in order, then the new counters.  The
     * classes' own update methods may mark classes changed; which ones is the
     * parameter marked.
     */
    method Update(s: Settings, random: Random, marked: set<Class>)
      requires Valid() && s.numUpwardTracks == upward && s.numOutwardTracks == outward
      modifies this
      ensures var u := Updated(old(Rebuild(frames, pools, log)), old(counts), s, random, outward);
        Rebuild(frames, pools, log) == u.0 && counts == u.1
      ensures nextHandle == old(nextHandle) && eventList == old(eventList) && changed == old(changed) + marked
      ensures Valid()
    {
      var r := Rebuilt(Rebuild(frames, pools, log), nextHandle, counts, s, random, upward, outward);
      Store(r, NewCounts(s), marked);
    }

    /** Store a rebuild's frames, pools and log and the new counters, and mark classes changed. */
    method Store(r: Rebuild, c: Counts, marked: set<Class>)
      requires actionFlags.Length == NumWedges && invalidateWedgeHistory.Length == 1 && AllClear(actionFlags[..])
      requires EngineOK(r.frames, r.pools, nextHandle, c, upward, outward)
      modifies this
      ensures Rebuild(frames, pools, log) == r && counts == c
      ensures nextHandle == old(nextHandle) && eventList == old(eventList) && changed == old(changed) + marked
      ensures Valid()
    {
      frames, pools, log, counts, changed := r.frames, r.pools, r.log, c, changed + marked;
    }

    /** The tick itself, on the fields as they are: only the flag table is written, and left clear. */
    method Tick(v: View) returns (tk: Tick)
      requires Valid() && ViewOK(v)
      modifies actionFlags
      ensures tk == Ticked(old(frames), old(pools), old(nextHandle), old(invalidateWedgeHistory[0]), v, dynamic, old(changed))
      ensures EngineOK(tk.frames, tk.pools, tk.next, counts, upward, outward) && AllClear(actionFlags[..])
      ensures log == old(log) && counts == old(counts)
    {
      tk := Step(actionFlags, frames, pools, nextHandle, counts, upward, outward, invalidateWedgeHistory[0], v, dynamic, changed);
    }

    /** Store a tick's frames, pools and log, the drained events, and lower the flags. */
    method Commit(tk: Tick, events: seq<real>)
      requires actionFlags.Length == NumWedges && invalidateWedgeHistory.Length == 1 && AllClear(actionFlags[..])
      requires EngineOK(tk.frames, tk.pools, tk.next, counts, upward, outward)
      modifies this, invalidateWedgeHistory
      ensures frames == tk.frames && pools == tk.pools && nextHandle == tk.next && log == old(log) + tk.log
      ensures eventList == events && changed == {} && counts == old(counts) && !invalidateWedgeHistory[0] && Valid()
    {
      invalidateWedgeHistory[0] := false;
      eventList, frames, pools, nextHandle, log, changed := events, tk.frames, tk.pools, tk.next, log + tk.log, {};
    }

    /**
     * animate: drain the due timer events, move the frames to their phases,
     * forget the wedge history if a loader asked, then classify, remove,
     * assign and update, and clear every class's hasChanged flag.
     */
    method Animate(t: real, v: View) returns (placed: seq<Placement<Kind>>)
      requires Valid() && ViewOK(v)
      modifies this, actionFlags, invalidateWedgeHistory
      ensures var tk := Ticked(old(frames), old(pools), old(nextHandle), old(invalidateWedgeHistory[0]), v, dynamic, old(changed));
        frames == tk.frames && pools == tk.pools && nextHandle == tk.next && log == old(log) + tk.log && placed == tk.placed
      ensures eventList == Drained(old(eventList), t) && !invalidateWedgeHistory[0] && changed == {} && counts == old(counts)
      ensures Valid()
    {
      var events := DrainEvents(eventList, t);
      var tk := Tick(v);
      Commit(tk, events);
      placed := tk.placed;
    }
  }
}
