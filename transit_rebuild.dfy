/*
 * The population rebuild of a transit-system update.  The update runs eight
 * blocks in a fixed order (transit vehicles, facilities, track, solar arrays,
 * elevator cables, stationary rings, transit tube, moving rings).  Each block
 * compares the counters it keeps with what the design now asks for; on a
 * change it tears down every non-empty kind it owns, across every wedge of its
 * frames, and, when it repopulates, pushes its new objects and makes its
 * frames forget their last window, so that the next tick assigns afresh.
 */
module TransitRebuild {
  import opened Pools
  import opened Wedges
  import opened Windows
  import opened Frames
  import opened Population
  import opened TransitKinds
  import opened FacilitySlots
  import opened TransitItems

  /** What a rebuild works on: the frames, the pool table and the console log. */
  datatype Rebuild = Rebuild(frames: seq<Frame<Kind>>, pools: seq<seq<Handle>>, log: seq<Log<Kind>>)

  /**
   * One block of the update: its frames, the kinds it owns (in the order it
   * tears them down), whether its counters changed, whether it repopulates,
   * and the objects it then creates.
   */
  datatype Block = Block(fs: seq<nat>, kinds: seq<Kind>, change: bool, populate: bool, items: seq<Item<Kind>>)

  /** The frames whose wedges hold the objects of a kind. */
  function Home(k: Kind): seq<nat>
  {
    match k
    case TransitVehicles => [0, 1, 2, 3]
    case MovingRingSegments => [5]
    case StationaryRingSegments => [6]
    case TransitTubeSegments => [6]
    case ElevatorCables => [6]
    case _ => [4]
  }

  /** removeOldVirtualObjects for one kind over every wedge of the frames fs. */
  function TearDownKind(r: Rebuild, fs: seq<nat>, kind: Kind, outward: nat): Rebuild
  {
    var t := TornDown(r.frames, AllWedges(r.frames, fs), kind, PoolOf(kind, outward), r.pools);
    Rebuild(t.0, t.1, r.log + t.2)
  }

  /** The kinds of ks whose counter is non-zero, in order: only those are torn down. */
  function Counted(ks: seq<Kind>, c: Counts): (r: seq<Kind>)
    ensures forall k :: k in r <==> k in ks && CountFor(c, k) > 0
  {
    if ks == [] then []
    else Counted(ks[..|ks| - 1], c) + (if CountFor(c, ks[|ks| - 1]) > 0 then [ks[|ks| - 1]] else [])
  }

  function TearDownKinds(r: Rebuild, fs: seq<nat>, ks: seq<Kind>, outward: nat): Rebuild
  {
    if ks == [] then r else TearDownKind(TearDownKinds(r, fs, ks[..|ks| - 1], outward), fs, ks[|ks| - 1], outward)
  }

  /** One block: teardown on a change, then, if it repopulates, the pushes and the cleared windows. */
  function RunBlock(r: Rebuild, b: Block, c: Counts, outward: nat): Rebuild
  {
    var torn := if b.change then TearDownKinds(r, b.fs, Counted(b.kinds, c), outward) else r;
    if b.populate then torn.(frames := ResetHistory(Inserted(torn.frames, b.items), b.fs)) else torn
  }

  function RunBlocks(r: Rebuild, bs: seq<Block>, c: Counts, outward: nat): Rebuild
  {
    if bs == [] then r else RunBlock(RunBlocks(r, bs[..|bs| - 1], c, outward), bs[|bs| - 1], c, outward)
  }

  /** A block that changes when its counter does, and repopulates on a change to a non-zero count. */
  function CounterBlock(fs: seq<nat>, kinds: seq<Kind>, was: nat, now: nat, items: seq<Item<Kind>>): Block
  {
    Block(fs, kinds, was != now, was != now && now > 0, items)
  }

  function VehicleBlock(s: Settings, c: Counts, items: seq<Item<Kind>>): Block
  {
    CounterBlock([0, 1, 2, 3], [TransitVehicles], c.transitVehicles, NewCounts(s).transitVehicles, items)
  }

  /**
   * The facilities block changes when any of its four counters does, and then
   * repopulates even when all four become zero.
   */
  function FacilityBlock(s: Settings, c: Counts, items: seq<Item<Kind>>): Block
  {
    var n := NewCounts(s);
    var change := c.ringTerminuses != n.ringTerminuses || c.habitats != n.habitats
               || c.elevatorCars != n.elevatorCars || c.groundTerminuses != n.groundTerminuses;
    Block([4], FacilityKinds, change, change, items)
  }

  function TrackBlock(s: Settings, c: Counts, items: seq<Item<Kind>>): Block
  {
    CounterBlock([4], TrackKinds(s.numUpwardTracks, s.numOutwardTracks), c.trackSegments, NewCounts(s).trackSegments, items)
  }

  function SolarBlock(s: Settings, c: Counts, items: seq<Item<Kind>>): Block
  {
    CounterBlock([4], [SolarArrays], c.solarArrays, NewCounts(s).solarArrays, items)
  }

  /** The cable block, like the facilities block, repopulates on any change. */
  function CableBlock(s: Settings, c: Counts, items: seq<Item<Kind>>): Block
  {
    var change := c.elevatorCables != NewCounts(s).elevatorCables;
    Block([6], [ElevatorCables], change, change, items)
  }

  /** The stationary-ring block compares a field that is never set, so it always counts as changed. */
  function StationaryRingBlock(s: Settings, c: Counts, items: seq<Item<Kind>>): Block
  {
    Block([6], [StationaryRingSegments], true, NewCounts(s).stationaryRingSegments > 0, items)
  }

  function TubeBlock(s: Settings, c: Counts, items: seq<Item<Kind>>): Block
  {
    CounterBlock([6], [TransitTubeSegments], c.tubeSegments, NewCounts(s).tubeSegments, items)
  }

  function MovingRingBlock(s: Settings, c: Counts, items: seq<Item<Kind>>): Block
  {
    CounterBlock([5], [MovingRingSegments], c.movingRingSegments, NewCounts(s).movingRingSegments, items)
  }

  /**
   * The objects each block makes, in source order.  Facilities and cables
   * are built with the intended terminus test; TransitItems.AsWrittenAgrees
   * and AsWrittenStrayFacilities say where the code's own test differs.
   */
  function ItemLists(s: Settings, random: Random, outward: nat): (r: seq<seq<Item<Kind>>>)
    ensures |r| == 8
  {
    [VehicleItems(s, random, outward), FacilityItems(s, Intended, outward), TrackItems(s, outward), SolarItems(s, outward),
     CableItems(s, Intended, outward), StationaryRingItems(s, outward), TubeItems(s, outward), MovingRingItems(s, outward)]
  }

  /** The eight blocks of an update from counters c to settings s, each with its objects. */
  function Blocks(s: Settings, c: Counts, its: seq<seq<Item<Kind>>>): (r: seq<Block>)
    requires |its| == 8
    ensures |r| == 8
  {
    [VehicleBlock(s, c, its[0]), FacilityBlock(s, c, its[1]), TrackBlock(s, c, its[2]), SolarBlock(s, c, its[3]),
     CableBlock(s, c, its[4]), StationaryRingBlock(s, c, its[5]), TubeBlock(s, c, its[6]), MovingRingBlock(s, c, its[7])]
  }

  /** The rebuild of an update and the counters it leaves behind. */
  function Updated(r: Rebuild, c: Counts, s: Settings, random: Random, outward: nat): (Rebuild, Counts)
  {
    (RunBlocks(r, Blocks(s, c, ItemLists(s, random, outward)), c, outward), NewCounts(s))
  }

  // ---------------------------------------------------------------- what a rebuild keeps

  /** Everything about the frames but their wedges' contents and remembered windows. */
  function Outline(frames: seq<Frame<Kind>>): (r: seq<(real, real, Window, nat)>)
    ensures |r| == |frames|
  {
    seq(|frames|, k requires 0 <= k < |frames| => (frames[k].p, frames[k].cameraRange, frames[k].window, |frames[k].wedges|))
  }

  predicate PrevsWellFormed(frames: seq<Frame<Kind>>, W: nat)
  {
    forall k :: 0 <= k < |frames| ==> WellFormed(frames[k].prev, W)
  }

  lemma LayoutOutline(frames: seq<Frame<Kind>>, frames': seq<Frame<Kind>>, W: nat)
    requires Layout(frames') == Layout(frames)
    ensures Outline(frames') == Outline(frames)
    ensures PrevsWellFormed(frames, W) ==> PrevsWellFormed(frames', W)
  {
    assert |frames'| == |Layout(frames')| == |frames|;
    forall k | 0 <= k < |frames|
      ensures Outline(frames')[k] == Outline(frames)[k] && frames'[k].prev == frames[k].prev
    {
      assert Layout(frames')[k] == Layout(frames)[k];
    }
  }

  /** A teardown keeps the outline, the windows and the size of the pool table. */
  lemma {:induction false} TearDownKindsOutline(r: Rebuild, fs: seq<nat>, ks: seq<Kind>, outward: nat)
    ensures var t := TearDownKinds(r, fs, ks, outward); Layout(t.frames) == Layout(r.frames) && |t.pools| == |r.pools|
  {
    if ks != [] {
      var mid := TearDownKinds(r, fs, ks[..|ks| - 1], outward);
      TearDownKindsOutline(r, fs, ks[..|ks| - 1], outward);
      var kind := ks[|ks| - 1];
      TornDownLayout(mid.frames, AllWedges(mid.frames, fs), kind, PoolOf(kind, outward), mid.pools);
    }
  }

  lemma ResetHistoryOutline(frames: seq<Frame<Kind>>, fs: seq<nat>, W: nat)
    ensures Outline(ResetHistory(frames, fs)) == Outline(frames)
    ensures PrevsWellFormed(frames, W) ==> PrevsWellFormed(ResetHistory(frames, fs), W)
  {
  }

  /** A block keeps each frame's phase, camera range, window and wedge count, and keeps every remembered window well formed. */
  lemma BlockOutline(r: Rebuild, b: Block, c: Counts, outward: nat, W: nat)
    ensures var r' := RunBlock(r, b, c, outward);
      Outline(r'.frames) == Outline(r.frames) && |r'.pools| == |r.pools|
      && (PrevsWellFormed(r.frames, W) ==> PrevsWellFormed(r'.frames, W))
  {
    var torn := if b.change then TearDownKinds(r, b.fs, Counted(b.kinds, c), outward) else r;
    if b.change {
      TearDownKindsOutline(r, b.fs, Counted(b.kinds, c), outward);
    }
    LayoutOutline(r.frames, torn.frames, W);
    if b.populate {
      InsertedLayout(torn.frames, b.items);
      LayoutOutline(torn.frames, Inserted(torn.frames, b.items), W);
      ResetHistoryOutline(Inserted(torn.frames, b.items), b.fs, W);
    }
  }

  lemma {:induction false} RunBlocksOutline(r: Rebuild, bs: seq<Block>, c: Counts, outward: nat, W: nat)
    ensures var r' := RunBlocks(r, bs, c, outward);
      Outline(r'.frames) == Outline(r.frames) && |r'.pools| == |r.pools|
      && (PrevsWellFormed(r.frames, W) ==> PrevsWellFormed(r'.frames, W))
  {
    if bs != [] {
      RunBlocksOutline(r, bs[..|bs| - 1], c, outward, W);
      BlockOutline(RunBlocks(r, bs[..|bs| - 1], c, outward), bs[|bs| - 1], c, outward, W);
    }
  }

  // ---------------------------------------------------------------- conservation

  function Total(r: Rebuild): multiset<Handle>
  {
    FramesModels(r.frames) + Pooled(r.pools)
  }

  lemma {:induction false} TearDownKindsConserves(r: Rebuild, fs: seq<nat>, ks: seq<Kind>, outward: nat)
    ensures Total(TearDownKinds(r, fs, ks, outward)) == Total(r)
  {
    if ks != [] {
      var mid := TearDownKinds(r, fs, ks[..|ks| - 1], outward);
      TearDownKindsConserves(r, fs, ks[..|ks| - 1], outward);
      var kind := ks[|ks| - 1];
      TornDownConserves(mid.frames, AllWedges(mid.frames, fs), kind, PoolOf(kind, outward), mid.pools);
    }
  }

  /** The new objects of a block hold no models. */
  predicate Fresh(items: seq<Item<Kind>>)
  {
    forall n :: 0 <= n < |items| ==> items[n].obj.model.None?
  }

  /** A block moves models between wedges and pools but never makes or loses one. */
  lemma BlockConserves(r: Rebuild, b: Block, c: Counts, outward: nat)
    requires Fresh(b.items)
    ensures Total(RunBlock(r, b, c, outward)) == Total(r)
  {
    var torn := if b.change then TearDownKinds(r, b.fs, Counted(b.kinds, c), outward) else r;
    if b.change {
      TearDownKindsConserves(r, b.fs, Counted(b.kinds, c), outward);
    }
    if b.populate {
      InsertedModels(torn.frames, b.items);
      ResetHistoryModels(Inserted(torn.frames, b.items), b.fs);
    }
  }

  lemma {:induction false} RunBlocksConserves(r: Rebuild, bs: seq<Block>, c: Counts, outward: nat)
    requires forall i :: 0 <= i < |bs| ==> Fresh(bs[i].items)
    ensures Total(RunBlocks(r, bs, c, outward)) == Total(r)
  {
    if bs != [] {
      RunBlocksConserves(r, bs[..|bs| - 1], c, outward);
      BlockConserves(RunBlocks(r, bs[..|bs| - 1], c, outward), bs[|bs| - 1], c, outward);
    }
  }

  // ---------------------------------------------------------------- counters and objects

  /** No list of kind k in any wedge of the frames fs holds an object. */
  predicate Absent(frames: seq<Frame<Kind>>, fs: seq<nat>, k: Kind)
  {
    forall f, j, i ::
      (f in fs && f < |frames| && 0 <= j < |frames[f].wedges| && 0 <= i < |frames[f].wedges[j]| && frames[f].wedges[j][i].kind == k)
      ==> frames[f].wedges[j][i].objects == []
  }

  /** Tearing a kind down over every wedge of the frames fs leaves none of it there. */
  lemma TornDownEmpties(frames: seq<Frame<Kind>>, fs: seq<nat>, kind: Kind, p: PoolRef, pools: seq<seq<Handle>>)
    requires p < |pools|
    ensures Absent(TornDown(frames, AllWedges(frames, fs), kind, p, pools).0, fs, kind)
  {
    var entries := AllWedges(frames, fs);
    TornDownEffect(frames, entries, kind, p, pools);
    AllWedgesMembers(frames, fs);
    var r := TornDown(frames, entries, kind, p, pools).0;
    forall f, j, i | f in fs && f < |r| && 0 <= j < |r[f].wedges| && 0 <= i < |r[f].wedges[j]| && r[f].wedges[j][i].kind == kind
      ensures r[f].wedges[j][i].objects == []
    {
      assert Entry(f, j) in entries;
    }
  }

  /** A teardown of any kind leaves an absent kind absent. */
  lemma TornDownKeeps(frames: seq<Frame<Kind>>, entries: seq<Entry>, kind: Kind, p: PoolRef, pools: seq<seq<Handle>>, fs: seq<nat>, k: Kind)
    requires p < |pools| && Absent(frames, fs, k)
    ensures Absent(TornDown(frames, entries, kind, p, pools).0, fs, k)
  {
    TornDownEffect(frames, entries, kind, p, pools);
    var r := TornDown(frames, entries, kind, p, pools).0;
    forall f, j, i | f in fs && f < |r| && 0 <= j < |r[f].wedges| && 0 <= i < |r[f].wedges[j]| && r[f].wedges[j][i].kind == k
      ensures r[f].wedges[j][i].objects == []
    {
      if Entry(f, j) !in entries {
        assert r[f].wedges[j] == frames[f].wedges[j];
      }
    }
  }

  /** No item of a kind is bound for any list of that kind. */
  lemma {:induction false} ObjectsForNone(items: seq<Item<Kind>>, e: Entry, k: Kind)
    requires CountKind(items, k) == 0
    ensures ObjectsFor(items, e, k) == []
  {
    if items != [] {
      CountKindLast(items, k);
      ObjectsForNone(items[..|items| - 1], e, k);
    }
  }

  /** Inserting items of other kinds leaves an absent kind absent. */
  lemma InsertedKeeps(frames: seq<Frame<Kind>>, items: seq<Item<Kind>>, fs: seq<nat>, k: Kind)
    requires CountKind(items, k) == 0 && Absent(frames, fs, k)
    ensures Absent(Inserted(frames, items), fs, k)
  {
    InsertedLists(frames, items);
    var r := Inserted(frames, items);
    forall f, j, i | f in fs && f < |r| && 0 <= j < |r[f].wedges| && 0 <= i < |r[f].wedges[j]| && r[f].wedges[j][i].kind == k
      ensures r[f].wedges[j][i].objects == []
    {
      ObjectsForNone(items, Entry(f, j), k);
    }
  }

  /** Kinds whose pools exist in the table. */
  predicate PoolsFor(ks: seq<Kind>, outward: nat, pools: seq<seq<Handle>>)
  {
    forall k :: k in ks ==> PoolOf(k, outward) < |pools|
  }

  lemma {:induction false} TearDownKindsKeeps(r: Rebuild, fs: seq<nat>, ks: seq<Kind>, outward: nat, hs: seq<nat>, k: Kind)
    requires PoolsFor(ks, outward, r.pools) && Absent(r.frames, hs, k)
    ensures Absent(TearDownKinds(r, fs, ks, outward).frames, hs, k)
  {
    if ks != [] {
      var mid := TearDownKinds(r, fs, ks[..|ks| - 1], outward);
      TearDownKindsKeeps(r, fs, ks[..|ks| - 1], outward, hs, k);
      TearDownKindsOutline(r, fs, ks[..|ks| - 1], outward);
      var kind := ks[|ks| - 1];
      TornDownKeeps(mid.frames, AllWedges(mid.frames, fs), kind, PoolOf(kind, outward), mid.pools, hs, k);
    }
  }

  /** After tearing down kinds ks, none of them is left in the frames fs. */
  lemma {:induction false} TearDownKindsEmpties(r: Rebuild, fs: seq<nat>, ks: seq<Kind>, outward: nat, k: Kind)
    requires PoolsFor(ks, outward, r.pools) && k in ks
    ensures Absent(TearDownKinds(r, fs, ks, outward).frames, fs, k)
  {
    var front, kind := ks[..|ks| - 1], ks[|ks| - 1];
    var mid := TearDownKinds(r, fs, front, outward);
    TearDownKindsOutline(r, fs, front, outward);
    if kind == k {
      TornDownEmpties(mid.frames, fs, kind, PoolOf(kind, outward), mid.pools);
    } else {
      assert k in front;
      TearDownKindsEmpties(r, fs, front, outward, k);
      TornDownKeeps(mid.frames, AllWedges(mid.frames, fs), kind, PoolOf(kind, outward), mid.pools, fs, k);
    }
  }

  /**
   * What a block needs of its parts: it makes only its own kinds, in its own
   * frames, new; it repopulates only on a change; when unchanged its counters
   * are too; and it makes no object of a kind whose counter becomes zero.
   */
  predicate BlockOK(b: Block, c: Counts, c': Counts, outward: nat)
  {
    AllBuilt(b.items, b.fs, b.kinds, outward)
    && (b.populate ==> b.change)
    && (!b.change ==> forall k :: k in b.kinds ==> CountFor(c', k) == CountFor(c, k))
    && (b.populate ==> forall k :: k in b.kinds && CountFor(c', k) == 0 ==> CountKind(b.items, k) == 0)
    && (forall k :: k in b.kinds ==> Home(k) == b.fs)
  }

  /** A block leaves absent every kind it does not own. */
  lemma BlockKeeps(r: Rebuild, b: Block, c: Counts, c': Counts, outward: nat, hs: seq<nat>, k: Kind)
    requires BlockOK(b, c, c', outward) && PoolsFor(b.kinds, outward, r.pools)
    requires k !in b.kinds && Absent(r.frames, hs, k)
    ensures Absent(RunBlock(r, b, c, outward).frames, hs, k)
  {
    var torn := if b.change then TearDownKinds(r, b.fs, Counted(b.kinds, c), outward) else r;
    if b.change {
      TearDownKindsKeeps(r, b.fs, Counted(b.kinds, c), outward, hs, k);
    }
    if b.populate {
      CountKindOutside(b.items, b.fs, b.kinds, outward, k);
      InsertedKeeps(torn.frames, b.items, hs, k);
    }
  }

  /**
   * A block keeps its kinds accounted for: a kind whose counter was zero had
   * no objects, and one whose counter becomes zero has none afterwards.  This
   * is what makes it sound to skip the teardown of a kind whose counter is zero.
   */
  lemma BlockAccounts(r: Rebuild, b: Block, c: Counts, c': Counts, outward: nat, k: Kind)
    requires BlockOK(b, c, c', outward) && PoolsFor(b.kinds, outward, r.pools) && k in b.kinds
    requires CountFor(c, k) == 0 ==> Absent(r.frames, b.fs, k)
    ensures CountFor(c', k) == 0 ==> Absent(RunBlock(r, b, c, outward).frames, b.fs, k)
  {
    var torn := if b.change then TearDownKinds(r, b.fs, Counted(b.kinds, c), outward) else r;
    if b.change {
      if CountFor(c, k) > 0 {
        TearDownKindsEmpties(r, b.fs, Counted(b.kinds, c), outward, k);
      } else {
        TearDownKindsKeeps(r, b.fs, Counted(b.kinds, c), outward, b.fs, k);
      }
      if b.populate && CountFor(c', k) == 0 {
        InsertedKeeps(torn.frames, b.items, b.fs, k);
      }
    }
  }

  /** Running blocks none of which owns k leaves k absent where it was. */
  lemma {:induction false} RunBlocksKeep(r: Rebuild, bs: seq<Block>, c: Counts, c': Counts, outward: nat, hs: seq<nat>, k: Kind)
    requires forall i :: 0 <= i < |bs| ==> BlockOK(bs[i], c, c', outward) && PoolsFor(bs[i].kinds, outward, r.pools) && k !in bs[i].kinds
    requires Absent(r.frames, hs, k)
    ensures Absent(RunBlocks(r, bs, c, outward).frames, hs, k)
  {
    if bs != [] {
      var front, b := bs[..|bs| - 1], bs[|bs| - 1];
      assert forall i :: 0 <= i < |front| ==> front[i] == bs[i];
      RunBlocksKeep(r, front, c, c', outward, hs, k);
      RunBlocksOutline(r, front, c, outward, 0);
      BlockKeeps(RunBlocks(r, front, c, outward), b, c, c', outward, hs, k);
    }
  }

  /**
   * Running the blocks in order, where block i alone owns k: if k had no
   * objects when its old counter was zero, it has none when its new counter is.
   */
  lemma {:induction false} RunBlocksAccounts(r: Rebuild, bs: seq<Block>, c: Counts, c': Counts, outward: nat, i: nat, k: Kind)
    requires forall j :: 0 <= j < |bs| ==> BlockOK(bs[j], c, c', outward) && PoolsFor(bs[j].kinds, outward, r.pools)
    requires i < |bs| && k in bs[i].kinds && forall j :: 0 <= j < |bs| && j != i ==> k !in bs[j].kinds
    requires CountFor(c, k) == 0 ==> Absent(r.frames, Home(k), k)
    ensures CountFor(c', k) == 0 ==> Absent(RunBlocks(r, bs, c, outward).frames, Home(k), k)
  {
    var front, b := bs[..|bs| - 1], bs[|bs| - 1];
    assert forall j :: 0 <= j < |front| ==> front[j] == bs[j];
    var mid := RunBlocks(r, front, c, outward);
    RunBlocksOutline(r, front, c, outward, 0);
    if i == |bs| - 1 {
      if CountFor(c, k) == 0 {
        RunBlocksKeep(r, front, c, c', outward, Home(k), k);
      }
      BlockAccounts(mid, b, c, c', outward, k);
    } else {
      RunBlocksAccounts(r, front, c, c', outward, i, k);
      if CountFor(c', k) == 0 {
        BlockKeeps(mid, b, c, c', outward, Home(k), k);
      }
    }
  }

  /**
   * The frames are accounted for by the counters: no registered kind whose
   * counter is zero has an object anywhere in its frames.
   */
  ghost predicate Accounted(frames: seq<Frame<Kind>>, c: Counts, upward: nat, outward: nat)
  {
    forall k :: Registered(k, upward, outward) && CountFor(c, k) == 0 ==> Absent(frames, Home(k), k)
  }

  // ---------------------------------------------------------------- the update's blocks

  /** The block that owns each kind. */
  function Owner(k: Kind): nat
  {
    match k
    case TransitVehicles => 0
    case RingTerminuses => 1
    case Habitats => 1
    case ElevatorCars => 1
    case GroundTerminuses => 1
    case TransitTrackSegments(_, _) => 2
    case SolarArrays => 3
    case ElevatorCables => 4
    case StationaryRingSegments => 5
    case TransitTubeSegments => 6
    case MovingRingSegments => 7
  }

  /** The kinds block j of an update owns. */
  function OwnedKinds(j: nat, upward: nat, outward: nat): seq<Kind>
  {
    match j
    case 0 => [TransitVehicles]
    case 1 => FacilityKinds
    case 2 => TrackKinds(upward, outward)
    case 3 => [SolarArrays]
    case 4 => [ElevatorCables]
    case 5 => [StationaryRingSegments]
    case 6 => [TransitTubeSegments]
    case _ => [MovingRingSegments]
  }

  lemma BlocksKinds(s: Settings, c: Counts, its: seq<seq<Item<Kind>>>)
    requires |its| == 8
    ensures var bs := Blocks(s, c, its);
      forall j :: 0 <= j < 8 ==> bs[j].kinds == OwnedKinds(j, s.numUpwardTracks, s.numOutwardTracks)
  {
  }

  /** Each registered kind is owned by exactly one block of an update: its owner. */
  lemma OwnedOnce(upward: nat, outward: nat, k: Kind)
    requires Registered(k, upward, outward)
    ensures Owner(k) < 8 && k in OwnedKinds(Owner(k), upward, outward)
    ensures forall j :: 0 <= j < 8 && j != Owner(k) ==> k !in OwnedKinds(j, upward, outward)
  {
    if k.TransitTrackSegments? {
      TrackKindsComplete(upward, outward);
    }
  }

  lemma BlocksPools(s: Settings, c: Counts, its: seq<seq<Item<Kind>>>, outward: nat, pools: seq<seq<Handle>>)
    requires |its| == 8 && s.numOutwardTracks == outward && |pools| == NumPools(s.numUpwardTracks, outward)
    ensures var bs := Blocks(s, c, its); forall j :: 0 <= j < 8 ==> PoolsFor(bs[j].kinds, outward, pools)
  {
    var bs := Blocks(s, c, its);
    BlocksKinds(s, c, its);
    forall j, k | 0 <= j < 8 && k in bs[j].kinds ensures PoolOf(k, outward) < |pools| {
      PoolOfInjective(k, k, s.numUpwardTracks, outward);
    }
  }

  /**
   * What the blocks need of their objects: each list makes only its own kinds,
   * new, in its own frames, and the facilities and cables are exactly as many
   * as the new counters record.
   */
  predicate ItemsOK(s: Settings, its: seq<seq<Item<Kind>>>, outward: nat)
    requires |its| == 8
  {
    var n := NewCounts(s);
    AllBuilt(its[0], [0, 1, 2, 3], [TransitVehicles], outward)
    && AllBuilt(its[1], [4], FacilityKinds, outward)
    && CountKind(its[1], RingTerminuses) == n.ringTerminuses && CountKind(its[1], GroundTerminuses) == n.groundTerminuses
    && CountKind(its[1], ElevatorCars) == n.elevatorCars && CountKind(its[1], Habitats) == n.habitats
    && AllBuilt(its[2], [4], TrackKinds(s.numUpwardTracks, s.numOutwardTracks), outward)
    && AllBuilt(its[3], [4], [SolarArrays], outward)
    && AllBuilt(its[4], [6], [ElevatorCables], outward) && CountKind(its[4], ElevatorCables) == n.elevatorCables
    && AllBuilt(its[5], [6], [StationaryRingSegments], outward)
    && AllBuilt(its[6], [6], [TransitTubeSegments], outward)
    && AllBuilt(its[7], [5], [MovingRingSegments], outward)
  }

  /** ItemsOK from what each list makes. */
  lemma ItemsOKOf(s: Settings, v: seq<Item<Kind>>, f: seq<Item<Kind>>, t: seq<Item<Kind>>, a: seq<Item<Kind>>,
                  e: seq<Item<Kind>>, sr: seq<Item<Kind>>, tu: seq<Item<Kind>>, mr: seq<Item<Kind>>, outward: nat)
    requires AllBuilt(v, [0, 1, 2, 3], [TransitVehicles], outward)
    requires var n := NewCounts(s);
      AllBuilt(f, [4], FacilityKinds, outward)
      && CountKind(f, RingTerminuses) == n.ringTerminuses && CountKind(f, GroundTerminuses) == n.groundTerminuses
      && CountKind(f, ElevatorCars) == n.elevatorCars && CountKind(f, Habitats) == n.habitats
      && CountKind(e, ElevatorCables) == n.elevatorCables
    requires AllBuilt(t, [4], TrackKinds(s.numUpwardTracks, s.numOutwardTracks), outward)
    requires AllBuilt(a, [4], [SolarArrays], outward) && AllBuilt(e, [6], [ElevatorCables], outward)
    requires AllBuilt(sr, [6], [StationaryRingSegments], outward) && AllBuilt(tu, [6], [TransitTubeSegments], outward)
    requires AllBuilt(mr, [5], [MovingRingSegments], outward)
    ensures ItemsOK(s, [v, f, t, a, e, sr, tu, mr], outward)
  {
  }

  /** The objects an update makes are what its blocks need. */
  lemma ItemListsOK(s: Settings, random: Random, outward: nat)
    ensures ItemsOK(s, ItemLists(s, random, outward), outward)
  {
    VehicleItemsBuilt(s, random, outward);
    FacilityItemsBuilt(s, Intended, outward);
    FacilityCounts(s, outward);
    ItemsOKOf(s, VehicleItems(s, random, outward), FacilityItems(s, Intended, outward), TrackItems(s, outward), SolarItems(s, outward),
              CableItems(s, Intended, outward), StationaryRingItems(s, outward), TubeItems(s, outward), MovingRingItems(s, outward), outward);
  }

  /** A counter block meets what a block needs when it makes only its kinds in its frames, new. */
  lemma CounterBlockOK(fs: seq<nat>, kinds: seq<Kind>, c: Counts, n: Counts, items: seq<Item<Kind>>, outward: nat)
    requires |kinds| > 0 && AllBuilt(items, fs, kinds, outward)
    requires forall k :: k in kinds ==> Home(k) == fs && CountFor(c, k) == CountFor(c, kinds[0]) && CountFor(n, k) == CountFor(n, kinds[0])
    ensures BlockOK(CounterBlock(fs, kinds, CountFor(c, kinds[0]), CountFor(n, kinds[0]), items), c, n, outward)
  {
  }

  /** The same, for a counter block of one kind. */
  lemma OneKindBlockOK(fs: seq<nat>, kind: Kind, c: Counts, n: Counts, items: seq<Item<Kind>>, outward: nat)
    requires AllBuilt(items, fs, [kind], outward) && Home(kind) == fs
    ensures BlockOK(CounterBlock(fs, [kind], CountFor(c, kind), CountFor(n, kind), items), c, n, outward)
  {
    CounterBlockOK(fs, [kind], c, n, items, outward);
  }

  lemma VehicleBlockOK(s: Settings, c: Counts, items: seq<Item<Kind>>, outward: nat)
    requires AllBuilt(items, [0, 1, 2, 3], [TransitVehicles], outward)
    ensures BlockOK(VehicleBlock(s, c, items), c, NewCounts(s), outward)
  {
    OneKindBlockOK([0, 1, 2, 3], TransitVehicles, c, NewCounts(s), items, outward);
  }

  lemma SolarBlockOK(s: Settings, c: Counts, items: seq<Item<Kind>>, outward: nat)
    requires AllBuilt(items, [4], [SolarArrays], outward)
    ensures BlockOK(SolarBlock(s, c, items), c, NewCounts(s), outward)
  {
    OneKindBlockOK([4], SolarArrays, c, NewCounts(s), items, outward);
  }

  lemma TubeBlockOK(s: Settings, c: Counts, items: seq<Item<Kind>>, outward: nat)
    requires AllBuilt(items, [6], [TransitTubeSegments], outward)
    ensures BlockOK(TubeBlock(s, c, items), c, NewCounts(s), outward)
  {
    OneKindBlockOK([6], TransitTubeSegments, c, NewCounts(s), items, outward);
  }

  lemma MovingRingBlockOK(s: Settings, c: Counts, items: seq<Item<Kind>>, outward: nat)
    requires AllBuilt(items, [5], [MovingRingSegments], outward)
    ensures BlockOK(MovingRingBlock(s, c, items), c, NewCounts(s), outward)
  {
    OneKindBlockOK([5], MovingRingSegments, c, NewCounts(s), items, outward);
  }

  lemma FacilityBlockOK(s: Settings, c: Counts, its: seq<seq<Item<Kind>>>, outward: nat)
    requires |its| == 8 && ItemsOK(s, its, outward)
    ensures BlockOK(FacilityBlock(s, c, its[1]), c, NewCounts(s), outward)
  {
    var f := its[1];
    var b, n := FacilityBlock(s, c, f), NewCounts(s);
    forall k | k in b.kinds
      ensures Home(k) == b.fs && (!b.change ==> CountFor(n, k) == CountFor(c, k))
      ensures CountFor(n, k) == 0 ==> CountKind(f, k) == 0
    {
      assert k == RingTerminuses || k == Habitats || k == ElevatorCars || k == GroundTerminuses;
    }
  }

  lemma CableBlockOK(s: Settings, c: Counts, e: seq<Item<Kind>>, outward: nat)
    requires AllBuilt(e, [6], [ElevatorCables], outward) && CountKind(e, ElevatorCables) == NewCounts(s).elevatorCables
    ensures BlockOK(CableBlock(s, c, e), c, NewCounts(s), outward)
  {
  }

  lemma StationaryRingBlockOK(s: Settings, c: Counts, sr: seq<Item<Kind>>, outward: nat)
    requires AllBuilt(sr, [6], [StationaryRingSegments], outward)
    ensures BlockOK(StationaryRingBlock(s, c, sr), c, NewCounts(s), outward)
  {
  }

  lemma TrackBlockOK(s: Settings, c: Counts, t: seq<Item<Kind>>, outward: nat)
    requires AllBuilt(t, [4], TrackKinds(s.numUpwardTracks, s.numOutwardTracks), outward)
    ensures BlockOK(TrackBlock(s, c, t), c, NewCounts(s), outward)
  {
    var tk := TrackKinds(s.numUpwardTracks, s.numOutwardTracks);
    if |tk| > 0 {
      CounterBlockOK([4], tk, c, NewCounts(s), t, outward);
    }
  }

  /** Each block of the update meets what a block needs. */
  lemma BlocksOK(s: Settings, c: Counts, its: seq<seq<Item<Kind>>>, outward: nat)
    requires |its| == 8 && ItemsOK(s, its, outward)
    ensures var bs := Blocks(s, c, its); forall j :: 0 <= j < 8 ==> BlockOK(bs[j], c, NewCounts(s), outward)
  {
    VehicleBlockOK(s, c, its[0], outward);
    FacilityBlockOK(s, c, its, outward);
    TrackBlockOK(s, c, its[2], outward);
    SolarBlockOK(s, c, its[3], outward);
    CableBlockOK(s, c, its[4], outward);
    StationaryRingBlockOK(s, c, its[5], outward);
    TubeBlockOK(s, c, its[6], outward);
    MovingRingBlockOK(s, c, its[7], outward);
  }

  /**
   * An update keeps the frames accounted for: afterwards no kind whose new
   * counter is zero has an object, provided none whose old counter was zero
   * had one.  The track counts are the ones the system was built with.
   */
  lemma UpdatedAccounted(r: Rebuild, c: Counts, s: Settings, random: Random, outward: nat)
    requires |r.pools| == NumPools(s.numUpwardTracks, outward) && s.numOutwardTracks == outward
    requires Accounted(r.frames, c, s.numUpwardTracks, outward)
    ensures var u := Updated(r, c, s, random, outward); Accounted(u.0.frames, u.1, s.numUpwardTracks, outward)
  {
    var its := ItemLists(s, random, outward);
    var bs := Blocks(s, c, its);
    ItemListsOK(s, random, outward);
    BlocksOK(s, c, its, outward);
    BlocksPools(s, c, its, outward, r.pools);
    forall k | Registered(k, s.numUpwardTracks, outward) && CountFor(NewCounts(s), k) == 0
      ensures Absent(RunBlocks(r, bs, c, outward).frames, Home(k), k)
    {
      BlocksKinds(s, c, its);
      OwnedOnce(s.numUpwardTracks, outward, k);
      RunBlocksAccounts(r, bs, c, NewCounts(s), outward, Owner(k), k);
    }
  }

  /** An update never makes or loses a model, and keeps the frames' outline and well-formed windows. */
  lemma UpdatedKeeps(r: Rebuild, c: Counts, s: Settings, random: Random, outward: nat, W: nat)
    ensures var u := Updated(r, c, s, random, outward);
      Total(u.0) == Total(r) && Outline(u.0.frames) == Outline(r.frames) && |u.0.pools| == |r.pools|
      && (PrevsWellFormed(r.frames, W) ==> PrevsWellFormed(u.0.frames, W))
  {
    var its := ItemLists(s, random, outward);
    var bs := Blocks(s, c, its);
    ItemListsOK(s, random, outward);
    BlocksOK(s, c, its, outward);
    assert forall j :: 0 <= j < |bs| ==> Fresh(bs[j].items);
    RunBlocksConserves(r, bs, c, outward);
    RunBlocksOutline(r, bs, c, outward, W);
  }

  // ---------------------------------------------------------------- methods

  /** removeOldVirtualObjects for each kind of ks in turn, over every wedge of the frames fs. */
  method TearDownAll(r: Rebuild, fs: seq<nat>, ks: seq<Kind>, outward: nat) returns (r': Rebuild)
    ensures r' == TearDownKinds(r, fs, ks, outward)
  {
    r' := r;
    for n := 0 to |ks|
      invariant r' == TearDownKinds(r, fs, ks[..n], outward)
    {
      assert ks[..n + 1][..n] == ks[..n];
      var frames', pools', log := TearDown(r'.frames, AllWedges(r'.frames, fs), ks[n], PoolOf(ks[n], outward), r'.pools);
      r' := Rebuild(frames', pools', r'.log + log);
    }
    assert ks[..|ks|] == ks;
  }

  /** One block of the update: teardown on a change, then the pushes and the cleared windows. */
  method ApplyBlock(r: Rebuild, b: Block, c: Counts, outward: nat) returns (r': Rebuild)
    ensures r' == RunBlock(r, b, c, outward)
  {
    r' := r;
    if b.change {
      r' := TearDownAll(r, b.fs, Counted(b.kinds, c), outward);
    }
    if b.populate {
      var frames' := Insert(r'.frames, b.items);
      r' := r'.(frames := ResetHistory(frames', b.fs));
    }
  }

  method ApplyBlocks(r: Rebuild, bs: seq<Block>, c: Counts, outward: nat) returns (r': Rebuild)
    ensures r' == RunBlocks(r, bs, c, outward)
  {
    r' := r;
    for n := 0 to |bs|
      invariant r' == RunBlocks(r, bs[..n], c, outward)
    {
      assert bs[..n + 1][..n] == bs[..n];
      r' := ApplyBlock(r', bs[n], c, outward);
    }
    assert bs[..|bs|] == bs;
  }
}
