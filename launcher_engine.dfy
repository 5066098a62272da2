/*
 * The launcher's animate and the launcher itself.  Every tick the launcher
 * points its own unallocated-model lists at two new empty lists (the objects
 * keep borrowing from the lists the constructor gave them), scans every wedge
 * of its one frame, assigns models to the wedges that have just come into
 * view, places every held model, and clears the hasChanged flag of six of its
 * seven virtual classes.
 */
module LauncherEngine {
  import opened Pools
  import opened Wedges
  import opened Windows
  import opened Frames
  import opened Launchers

  // ---------------------------------------------------------------- what a tick sees

  /** This tick's windows: every frame scans all its wedges, from 0 to NumWedges - 1. */
  function InView(n: nat): (r: seq<Window>)
    ensures |r| == n
  {
    seq(n, _ => Window(0, NumWedges - 1))
  }

  lemma InViewFits(frames: seq<Frame<LaunchKind>>)
    requires PrevFit(frames)
    ensures WindowsFit(frames, InView(|frames|), NumWedges)
  {
  }

  /** The assign pass places the kinds whose class is neither dynamic nor changed. */
  function PlaceAtAssign(dynamic: set<LaunchKind>, changed: set<LaunchKind>): LaunchKind -> bool
  {
    k => k !in dynamic && k !in changed
  }

  /** The update pass places every kind: its test is `true || isDynamic || hasChanged`. */
  function EveryKind(): LaunchKind -> bool
  {
    _ => true
  }

  // ---------------------------------------------------------------- a tick

  /**
   * What a tick leaves: the frames, the pool table, the next model number, the
   * log, the placements, the three lists, and the pools the launcher's own
   * vehicle and sled lists now name.
   */
  datatype Tick = Tick(frames: seq<Frame<LaunchKind>>, pools: seq<seq<Handle>>, next: Handle, log: seq<Log<LaunchKind>>,
                       placed: seq<Placement<LaunchKind>>, update: seq<Entry>, assign: seq<Entry>, remove: seq<Entry>,
                       vehiclePool: PoolRef, sledPool: PoolRef)

  /**
   * One tick of animate: two new empty lists for the launcher's own fields,
   * the windows and the three lists, the assign pass (static unchanged kinds
   * placed as they are assigned, clones not logged) and the update pass
   * placing every kind.  The remove pass is not run: its list is always empty
   * (TickExact).  The two new lists are appended to the pool table, which so
   * grows by two entries a tick: the source rebinds the launcher's fields to
   * new arrays while the objects already built keep the old ones, so the old
   * lists stay reachable from those objects and are not a leak of the model.
   */
  function Ticked(frames: seq<Frame<LaunchKind>>, pools: seq<seq<Handle>>, next: Handle,
                  dynamic: set<LaunchKind>, changed: set<LaunchKind>): Tick
    requires PrevFit(frames)
  {
    InViewFits(frames);
    var c := Classified(frames, InView(|frames|), NumWedges);
    var a := Assigned(c.frames, c.assign, pools + [[], []], next, PlaceAtAssign(dynamic, changed), false);
    Tick(a.frames, a.pools, a.next, a.log, a.placed + Placements(a.frames, c.update, EveryKind()),
         c.update, c.assign, c.remove, |pools|, |pools| + 1)
  }

  /**
   * The classification of a tick: every wedge of every frame is updated, a
   * wedge is assigned exactly when its frame showed nothing on the last tick,
   * and nothing is ever removed.
   */
  lemma TickExact(frames: seq<Frame<LaunchKind>>, pools: seq<seq<Handle>>, next: Handle,
                  dynamic: set<LaunchKind>, changed: set<LaunchKind>)
    requires PrevFit(frames)
    ensures var t := Ticked(frames, pools, next, dynamic, changed);
      (forall k: nat, j: nat ::
        (Entry(k, j) in t.update <==> k < |frames| && j < NumWedges)
        && (Entry(k, j) in t.assign <==> k < |frames| && j < NumWedges && !Visible(frames[k].prev)))
      && t.remove == []
  {
    var t := Ticked(frames, pools, next, dynamic, changed);
    var curs := InView(|frames|);
    InViewFits(frames);
    ClassifiedMembers(frames, curs, NumWedges);
    forall k: nat, j: nat | k < |frames| && j < NumWedges
      ensures Covers(curs[k], j) && (Covers(frames[k].prev, j) <==> Visible(frames[k].prev))
    {
      SeesOne(curs[k], j);
      SeesOne(frames[k].prev, j);
    }
    NoEntries(t.remove);
  }

  /** A list of entries that holds no entry is empty. */
  lemma NoEntries(s: seq<Entry>)
    requires forall k: nat, j: nat :: Entry(k, j) !in s
    ensures s == []
  {
    if s != [] {
      Listed(s, 0);
      assert false;
    }
  }

  lemma Listed(s: seq<Entry>, i: nat)
    requires i < |s|
    ensures Entry(s[i].frame, s[i].wedge) in s
  {
  }

  /** Once every frame showed its wedges on the last tick, a tick assigns nothing and removes nothing. */
  lemma QuietOnceSeen(frames: seq<Frame<LaunchKind>>, pools: seq<seq<Handle>>, next: Handle,
                      dynamic: set<LaunchKind>, changed: set<LaunchKind>)
    requires PrevFit(frames) && forall k :: 0 <= k < |frames| ==> Visible(frames[k].prev)
    ensures var t := Ticked(frames, pools, next, dynamic, changed);
      t.assign == [] && t.remove == []
  {
    var t := Ticked(frames, pools, next, dynamic, changed);
    TickExact(frames, pools, next, dynamic, changed);
    NoEntries(t.assign);
  }

  /** Every tick after the first assigns nothing and removes nothing. */
  lemma SecondTickQuiet(frames: seq<Frame<LaunchKind>>, pools: seq<seq<Handle>>, next: Handle,
                        dynamic: set<LaunchKind>, changed: set<LaunchKind>, changed': set<LaunchKind>)
    requires LauncherOK(frames, pools, next)
    ensures var t := Ticked(frames, pools, next, dynamic, changed);
      LauncherOK(t.frames, t.pools, t.next)
      && var t' := Ticked(t.frames, t.pools, t.next, dynamic, changed');
      t'.assign == [] && t'.remove == []
  {
    var t := Ticked(frames, pools, next, dynamic, changed);
    TickOK(frames, pools, next, dynamic, changed);
    TickKeeps(frames, pools, next, dynamic, changed, 2);
    QuietOnceSeen(t.frames, t.pools, t.next, dynamic, changed');
  }

  /** With one wedge, a well-formed window covers it exactly when it shows something. */
  lemma SeesOne(w: Window, j: nat)
    requires WellFormed(w, NumWedges) && j < NumWedges
    ensures Covers(w, j) <==> Visible(w)
  {
  }

  /** Classifying changes no wedge: the frames hold the same models, have the same shape, and borrow from the same pools. */
  lemma ClassifiedKeeps(frames: seq<Frame<LaunchKind>>, m: nat)
    requires WindowsFit(frames, InView(|frames|), NumWedges) && FramesRefsBelow(frames, m)
    ensures var c := Classified(frames, InView(|frames|), NumWedges);
      c.frames == Advanced(frames, InView(|frames|))
      && FramesModels(c.frames) == FramesModels(frames) && SameShape(frames, c.frames) && FramesRefsBelow(c.frames, m)
  {
    ClassifiedFrames(frames, InView(|frames|), NumWedges);
    AdvancedModels(frames, InView(|frames|));
  }

  /** Two new empty lists hold no model. */
  lemma TwoEmptyPooled(pools: seq<seq<Handle>>)
    ensures Pooled(pools + [[], []]) == Pooled(pools)
  {
    PooledAppend(pools, []);
    PooledAppend(pools + [[]], []);
    assert pools + [[]] + [[]] == pools + [[], []];
  }

  /**
   * A tick conserves models: what the frames and pools hold afterwards is what
   * they held before plus the clones it made, numbered next .. t.next - 1.
   */
  lemma TickConserves(frames: seq<Frame<LaunchKind>>, pools: seq<seq<Handle>>, next: Handle,
                      dynamic: set<LaunchKind>, changed: set<LaunchKind>)
    requires PrevFit(frames)
    ensures var t := Ticked(frames, pools, next, dynamic, changed);
      t.next >= next && FramesModels(t.frames) + Pooled(t.pools) == FramesModels(frames) + Pooled(pools) + Ids(next, t.next)
  {
    InViewFits(frames);
    var c := Classified(frames, InView(|frames|), NumWedges);
    ClassifiedFrames(frames, InView(|frames|), NumWedges);
    AdvancedModels(frames, InView(|frames|));
    TwoEmptyPooled(pools);
    AssignedConserves(c.frames, c.assign, pools + [[], []], next, PlaceAtAssign(dynamic, changed), false);
  }

  /**
   * A tick keeps the frames' number, phases, camera ranges and shape; each
   * frame remembers this tick's window of all its wedges; the objects still
   * borrow only from the first m pools; and the two lists the launcher's own
   * fields now name are new and empty.
   */
  lemma TickKeeps(frames: seq<Frame<LaunchKind>>, pools: seq<seq<Handle>>, next: Handle,
                  dynamic: set<LaunchKind>, changed: set<LaunchKind>, m: nat)
    requires PrevFit(frames) && FramesRefsBelow(frames, m) && m <= |pools|
    ensures var t := Ticked(frames, pools, next, dynamic, changed);
      |t.frames| == |frames| && SameShape(frames, t.frames) && FramesRefsBelow(t.frames, m)
      && (forall k :: 0 <= k < |frames| ==>
            t.frames[k].p == frames[k].p && t.frames[k].cameraRange == frames[k].cameraRange
            && t.frames[k].window == t.frames[k].prev == Window(0, NumWedges - 1))
      && |t.pools| == |pools| + 2 && t.pools[t.vehiclePool] == [] && t.pools[t.sledPool] == []
      && t.vehiclePool == |pools| && t.sledPool == |pools| + 1
  {
    var t := Ticked(frames, pools, next, dynamic, changed);
    InViewFits(frames);
    var c := Classified(frames, InView(|frames|), NumWedges);
    var table := pools + [[], []];
    var placeNow := PlaceAtAssign(dynamic, changed);
    ClassifiedKeeps(frames, m);
    AssignedLayout(c.frames, c.assign, table, next, placeNow, false);
    AssignedShape(c.frames, c.assign, table, next, placeNow, false);
    AssignedAbove(c.frames, c.assign, table, next, placeNow, false, m);
    SameShapeTrans(frames, c.frames, t.frames);
    forall k | 0 <= k < |frames|
      ensures t.frames[k].p == c.frames[k].p && t.frames[k].cameraRange == c.frames[k].cameraRange
      ensures t.frames[k].window == c.frames[k].window && t.frames[k].prev == c.frames[k].prev
    {
      assert Layout(t.frames)[k] == Layout(c.frames)[k];
    }
    assert table[|pools|] == [] && table[|pools| + 1] == [];
  }

  /**
   * The placements of a tick: those of the assign pass are of static,
   * unchanged kinds in wedges just assigned; those of the update pass are
   * exactly the held models, of every kind, in the wedges in view.
   */
  lemma TickPlacements(frames: seq<Frame<LaunchKind>>, pools: seq<seq<Handle>>, next: Handle,
                       dynamic: set<LaunchKind>, changed: set<LaunchKind>, q: Placement<LaunchKind>)
    requires PrevFit(frames)
    ensures var t := Ticked(frames, pools, next, dynamic, changed);
      var u := |Placements(t.frames, t.update, EveryKind())|;
      (q in t.placed[..|t.placed| - u] ==> q.entry in t.assign && q.placed.kind !in dynamic && q.placed.kind !in changed)
      && (q in t.placed[|t.placed| - u..] <==> q.entry in t.update && Holds(t.frames, q.entry, q.placed))
  {
    var t := Ticked(frames, pools, next, dynamic, changed);
    InViewFits(frames);
    var c := Classified(frames, InView(|frames|), NumWedges);
    var a := Assigned(c.frames, c.assign, pools + [[], []], next, PlaceAtAssign(dynamic, changed), false);
    var u := Placements(a.frames, c.update, EveryKind());
    AssignedPlacesListed(c.frames, c.assign, pools + [[], []], next, PlaceAtAssign(dynamic, changed), false);
    PlacementsExact(a.frames, c.update, EveryKind());
    assert t.placed[..|t.placed| - |u|] == a.placed && t.placed[|t.placed| - |u|..] == u;
  }

  /** A tick keeps the launcher's invariant. */
  lemma TickOK(frames: seq<Frame<LaunchKind>>, pools: seq<seq<Handle>>, next: Handle,
               dynamic: set<LaunchKind>, changed: set<LaunchKind>)
    requires LauncherOK(frames, pools, next)
    ensures var t := Ticked(frames, pools, next, dynamic, changed);
      LauncherOK(t.frames, t.pools, t.next) && t.vehiclePool < |t.pools| && t.sledPool < |t.pools|
  {
    var t := Ticked(frames, pools, next, dynamic, changed);
    TickConserves(frames, pools, next, dynamic, changed);
    TickKeeps(frames, pools, next, dynamic, changed, 2);
    IdsSplit(0, next, t.next);
  }

  // ---------------------------------------------------------------- the steps of animate

  /**
   * One tick over the launcher's state, the flag table aside: the windows, the
   * classification against the shared flags, the assign and update passes.
   */
  method Step(flags: array<bv8>, frames: seq<Frame<LaunchKind>>, pools: seq<seq<Handle>>, next: Handle,
              dynamic: set<LaunchKind>, changed: set<LaunchKind>) returns (t: Tick)
    requires LauncherOK(frames, pools, next) && flags.Length == NumWedges && AllClear(flags[..])
    modifies flags
    ensures AllClear(flags[..])
    ensures t == Ticked(frames, pools, next, dynamic, changed)
    ensures LauncherOK(t.frames, t.pools, t.next) && t.vehiclePool < |t.pools| && t.sledPool < |t.pools|
  {
    TickOK(frames, pools, next, dynamic, changed);
    var table := pools + [[], []];
    InViewFits(frames);
    var c := ClassifyFrames(flags, frames, InView(|frames|));
    var a := AssignAll(c.frames, c.assign, table, next, PlaceAtAssign(dynamic, changed), false);
    var u := PlaceAll(a.frames, c.update, EveryKind());
    t := Tick(a.frames, a.pools, a.next, a.log, a.placed + u, c.update, c.assign, c.remove, |pools|, |pools| + 1);
  }

  // ---------------------------------------------------------------- the launcher

  class Launcher {
    /** The animateLaunchVehicles and animateLaunchSleds settings. */
    const animateVehicles: bool
    const animateSleds: bool
    /** The virtual classes whose isDynamic flag is set. */
    const dynamic: set<LaunchKind>
    var frames: seq<Frame<LaunchKind>>
    /** Every list of unallocated models ever made; the objects name theirs by position. */
    var pools: seq<seq<Handle>>
    /** The lists the launcher's unallocatedLaunchVehicleModels and unallocatedLaunchSledModels fields name. */
    var vehiclePool: PoolRef
    var sledPool: PoolRef
    /** The number the next model gets. */
    var nextHandle: Handle
    /** The timeSinceStart of the launcher's one reference frame. */
    var timeSinceStart: real
    var log: seq<Log<LaunchKind>>
    /** The virtual classes whose hasChanged flag is set. */
    var changed: set<LaunchKind>
    const actionFlags: array<bv8>

    /** The flag table is clear between ticks, and the state keeps the launcher's invariant. */
    ghost predicate Valid()
      reads this, actionFlags
    {
      actionFlags.Length == NumWedges && AllClear(actionFlags[..])
      && LauncherOK(frames, pools, nextHandle) && vehiclePool < |pools| && sledPool < |pools|
    }

    /**
     * The constructor: one new reference frame, the sled and vehicle pairs,
     * one sled clone and one vehicle clone per pair, the mass-driver tubes,
     * rails, screws and brackets and the evacuated tubes, each with its model.
     */
    constructor (duration: real, tInc: real, tubes: nat, segments: nat, half: real, evacuated: nat,
                 animateVehicles: bool, animateSleds: bool, dynamic: set<LaunchKind>, changed: set<LaunchKind>)
      ensures Valid() && fresh(actionFlags)
      ensures var n := PairCount(duration, tInc);
        frames == [NewReferenceFrame(NumWedges).(wedges := [Populated(n, tInc, tubes, segments, half, evacuated)])]
        && pools == [Fresh(n, n), Fresh(0, n)] && nextHandle == ModelTotal(n, tubes, segments, evacuated)
      ensures vehiclePool == VehiclePool && sledPool == SledPool && timeSinceStart == 0.0 && log == []
      ensures this.animateVehicles == animateVehicles && this.animateSleds == animateSleds
      ensures this.dynamic == dynamic && this.changed == changed
    {
      this.animateVehicles, this.animateSleds, this.dynamic := animateVehicles, animateSleds, dynamic;
      var f, p, h, n := Built(duration, tInc, tubes, segments, half, evacuated);
      frames, pools, nextHandle := f, p, h;
      vehiclePool, sledPool, timeSinceStart, log, this.changed := VehiclePool, SledPool, 0.0, [], changed;
      actionFlags := new bv8[NumWedges](_ => 0);
      new;
      assert actionFlags[..] == seq(NumWedges, _ => 0);
    }

    /** The tick itself, on the fields as they are: only the flag table is written, and left clear. */
    method Tick() returns (tk: Tick)
      requires Valid()
      modifies actionFlags
      ensures tk == Ticked(frames, pools, nextHandle, dynamic, changed)
      ensures LauncherOK(tk.frames, tk.pools, tk.next) && tk.vehiclePool < |tk.pools| && tk.sledPool < |tk.pools|
      ensures AllClear(actionFlags[..])
    {
      tk := Step(actionFlags, frames, pools, nextHandle, dynamic, changed);
    }

    /** Store a tick's frames, pools and log, repoint the launcher's own lists, and clear six hasChanged flags. */
    method Commit(tk: Tick, t: real)
      requires actionFlags.Length == NumWedges && AllClear(actionFlags[..])
      requires LauncherOK(tk.frames, tk.pools, tk.next) && tk.vehiclePool < |tk.pools| && tk.sledPool < |tk.pools|
      modifies this
      ensures frames == tk.frames && pools == tk.pools && nextHandle == tk.next && log == old(log) + tk.log
      ensures vehiclePool == tk.vehiclePool && sledPool == tk.sledPool
      ensures timeSinceStart == (if animateVehicles || animateSleds then t else old(timeSinceStart))
      ensures changed == old(changed) - ClearedKinds
      ensures Valid()
    {
      if animateVehicles || animateSleds {
        timeSinceStart := t;
      }
      frames, pools, nextHandle, log := tk.frames, tk.pools, tk.next, log + tk.log;
      vehiclePool, sledPool, changed := tk.vehiclePool, tk.sledPool, changed - ClearedKinds;
    }

    /**
     * animate: new empty lists for the launcher's own fields, the frame's time
     * when either animation is on, the windows of all wedges, the assign and
     * update passes, and the hasChanged flags of every class but the
     * evacuated tube's cleared.
     */
    method Animate(t: real) returns (placed: seq<Placement<LaunchKind>>)
      requires Valid()
      modifies this, actionFlags
      ensures var tk := Ticked(old(frames), old(pools), old(nextHandle), dynamic, old(changed));
        frames == tk.frames && pools == tk.pools && nextHandle == tk.next && log == old(log) + tk.log && placed == tk.placed
        && vehiclePool == tk.vehiclePool && sledPool == tk.sledPool
      ensures timeSinceStart == (if animateVehicles || animateSleds then t else old(timeSinceStart))
      ensures changed == old(changed) - ClearedKinds
      ensures Valid()
    {
      var tk := Tick();
      Commit(tk, t);
      placed := tk.placed;
    }
  }
}
