/*
 * Reference frames and the three per-tick passes over them.  Each tick the
 * engine collects, over all frames, the wedges to update, to assign and to
 * remove, and then runs the remove pass, the assign pass and the update pass
 * in that order, each over its whole list of (frame, wedge) entries.
 */
module Frames {
  import opened Pools
  import opened Wedges
  import opened Windows

  /**
   * A reference frame: its phase (a fraction of a turn), its camera range, its
   * wedges, and the window of wedges in view this tick and on the last tick.
   */
  datatype Frame<K> = Frame(p: real, cameraRange: real, wedges: seq<Wedge<K>>, window: Window, prev: Window)

  /** An entry of one of the three lists: a wedge of a frame. */
  datatype Entry = Entry(frame: nat, wedge: nat)

  predicate InRange<K>(frames: seq<Frame<K>>, e: Entry)
  {
    e.frame < |frames| && e.wedge < |frames[e.frame].wedges|
  }

  /** What the passes never change about a frame: everything but the contents of its wedges. */
  function Layout<K>(frames: seq<Frame<K>>): (r: seq<(real, real, Window, Window, nat)>)
    ensures |r| == |frames|
  {
    seq(|frames|, k requires 0 <= k < |frames| =>
      (frames[k].p, frames[k].cameraRange, frames[k].window, frames[k].prev, |frames[k].wedges|))
  }

  lemma LayoutInRange<K>(frames: seq<Frame<K>>, frames': seq<Frame<K>>, e: Entry)
    requires Layout(frames) == Layout(frames')
    ensures InRange(frames, e) <==> InRange(frames', e)
  {
    if e.frame < |frames| {
      assert Layout(frames)[e.frame] == Layout(frames')[e.frame];
    }
  }

  function SetWedge<K>(frames: seq<Frame<K>>, e: Entry, w: Wedge<K>): (r: seq<Frame<K>>)
    requires InRange(frames, e)
    ensures |r| == |frames| && forall k :: 0 <= k < |frames| ==> |r[k].wedges| == |frames[k].wedges|
  {
    frames[e.frame := frames[e.frame].(wedges := frames[e.frame].wedges[e.wedge := w])]
  }

  lemma SetWedgeLayout<K>(frames: seq<Frame<K>>, e: Entry, w: Wedge<K>)
    requires InRange(frames, e)
    ensures Layout(SetWedge(frames, e, w)) == Layout(frames)
  {
  }

  /** Only the wedge named by e changes. */
  lemma SetWedgeAt<K>(frames: seq<Frame<K>>, e: Entry, w: Wedge<K>, k: nat, j: nat)
    requires InRange(frames, e) && k < |frames| && j < |frames[k].wedges|
    ensures SetWedge(frames, e, w)[k].wedges[j] == if k == e.frame && j == e.wedge then w else frames[k].wedges[j]
  {
  }

  function FrameTotals<K>(frames: seq<Frame<K>>): (r: seq<multiset<Handle>>)
    ensures |r| == |frames| && forall k :: 0 <= k < |frames| ==> r[k] == WedgesModels(frames[k].wedges)
  {
    seq(|frames|, k requires 0 <= k < |frames| => WedgesModels(frames[k].wedges))
  }

  /** Every model held by an object of some wedge of some frame. */
  function FramesModels<K>(frames: seq<Frame<K>>): multiset<Handle>
  {
    Sum(FrameTotals(frames))
  }

  /** Replacing one wedge changes the held models by exactly that wedge's difference. */
  lemma SetWedgeModels<K>(frames: seq<Frame<K>>, e: Entry, w: Wedge<K>)
    requires InRange(frames, e)
    ensures FramesModels(SetWedge(frames, e, w)) + WedgeModels(frames[e.frame].wedges[e.wedge])
         == FramesModels(frames) + WedgeModels(w)
  {
    var ws := frames[e.frame].wedges;
    var ws' := ws[e.wedge := w];
    var frames' := SetWedge(frames, e, w);
    var t, m := FrameTotals(frames), WedgesModels(ws');
    var a, b, x := FramesModels(frames'), FramesModels(frames), WedgesModels(ws);
    assert frames' == frames[e.frame := frames[e.frame].(wedges := ws')];
    FrameTotalsUpdate(frames, e.frame, ws');
    assert a == Sum(t[e.frame := m]);
    assert t[e.frame] == x;
    SumUpdate(t, e.frame, m);
    assert a + x == b + m;
    WedgesModelsUpdate(ws, e.wedge, w);
    Exchange(a, b, x, m, WedgeModels(w), WedgeModels(ws[e.wedge]), multiset{});
    assert WedgeModels(w) + multiset{} == WedgeModels(w);
  }

  lemma FrameTotalsUpdate<K>(frames: seq<Frame<K>>, k: nat, ws: seq<Wedge<K>>)
    requires k < |frames|
    ensures FrameTotals(frames[k := frames[k].(wedges := ws)]) == FrameTotals(frames)[k := WedgesModels(ws)]
  {
  }

  // ---------------------------------------------------------------- remove pass

  /** No object of the wedge that has a pool holds a model. */
  predicate Cleared<K>(w: Wedge<K>, pools: seq<seq<Handle>>)
  {
    forall i, j :: 0 <= i < |w| && 0 <= j < |w[i].objects| && HasPool(w[i].objects[j], pools) ==> w[i].objects[j].model.None?
  }

  lemma ReleasedWedgeCleared<K>(w: Wedge<K>, pools: seq<seq<Handle>>)
    ensures Cleared(ReleasedWedge(w, pools).0, ReleasedWedge(w, pools).1)
  {
    ReleasedWedgeEach(w, pools);
  }

  function RemoveStep<K>(frames: seq<Frame<K>>, pools: seq<seq<Handle>>, e: Entry): (r: (seq<Frame<K>>, seq<seq<Handle>>))
    ensures |r.0| == |frames| && |r.1| == |pools|
    ensures forall k :: 0 <= k < |frames| ==> |r.0[k].wedges| == |frames[k].wedges|
  {
    if InRange(frames, e) then
      var rw := ReleasedWedge(frames[e.frame].wedges[e.wedge], pools);
      (SetWedge(frames, e, rw.0), rw.1)
    else (frames, pools)
  }

  /** The remove pass: every wedge of the list, in order, releases its objects' models. */
  function Removed<K>(frames: seq<Frame<K>>, entries: seq<Entry>, pools: seq<seq<Handle>>): (r: (seq<Frame<K>>, seq<seq<Handle>>))
    ensures |r.0| == |frames| && |r.1| == |pools|
    ensures forall k :: 0 <= k < |frames| ==> |r.0[k].wedges| == |frames[k].wedges|
  {
    if entries == [] then (frames, pools)
    else
      var acc := Removed(frames, entries[..|entries| - 1], pools);
      RemoveStep(acc.0, acc.1, entries[|entries| - 1])
  }

  lemma {:induction false} RemovedLayout<K>(frames: seq<Frame<K>>, entries: seq<Entry>, pools: seq<seq<Handle>>)
    ensures Layout(Removed(frames, entries, pools).0) == Layout(frames)
  {
    if entries != [] {
      RemovedLayout(frames, entries[..|entries| - 1], pools);
      var acc := Removed(frames, entries[..|entries| - 1], pools);
      var e := entries[|entries| - 1];
      if InRange(acc.0, e) {
        SetWedgeLayout(acc.0, e, ReleasedWedge(acc.0[e.frame].wedges[e.wedge], acc.1).0);
      }
    }
  }

  /** The remove pass moves models from the objects back to the pools: none is lost or made. */
  lemma {:induction false} RemovedConserves<K>(frames: seq<Frame<K>>, entries: seq<Entry>, pools: seq<seq<Handle>>)
    ensures var r := Removed(frames, entries, pools); FramesModels(r.0) + Pooled(r.1) == FramesModels(frames) + Pooled(pools)
  {
    if entries != [] {
      RemovedConserves(frames, entries[..|entries| - 1], pools);
      var acc := Removed(frames, entries[..|entries| - 1], pools);
      var e := entries[|entries| - 1];
      if InRange(acc.0, e) {
        var w := acc.0[e.frame].wedges[e.wedge];
        var rw := ReleasedWedge(w, acc.1);
        ReleasedWedgeConserves(w, acc.1);
        SetWedgeModels(acc.0, e, rw.0);
        Exchange(FramesModels(SetWedge(acc.0, e, rw.0)), FramesModels(acc.0), WedgeModels(w), WedgeModels(rw.0),
                 Pooled(acc.1), Pooled(rw.1), multiset{});
      }
    }
  }

  /**
   * After the remove pass no object with a pool in a listed wedge holds a
   * model, and every wedge the list does not name is as it was.
   */
  lemma {:induction false} RemovedEffect<K>(frames: seq<Frame<K>>, entries: seq<Entry>, pools: seq<seq<Handle>>)
    ensures var r := Removed(frames, entries, pools);
      (forall e :: e in entries && InRange(frames, e) ==> Cleared(r.0[e.frame].wedges[e.wedge], r.1))
      && (forall k, j :: 0 <= k < |frames| && 0 <= j < |frames[k].wedges| && Entry(k, j) !in entries ==>
            r.0[k].wedges[j] == frames[k].wedges[j])
  {
    if entries != [] {
      var front, last := entries[..|entries| - 1], entries[|entries| - 1];
      RemovedEffect(frames, front, pools);
      RemovedLayout(frames, front, pools);
      var acc := Removed(frames, front, pools);
      var r := Removed(frames, entries, pools);
      assert r == RemoveStep(acc.0, acc.1, last);
      if InRange(acc.0, last) {
        var rw := ReleasedWedge(acc.0[last.frame].wedges[last.wedge], acc.1);
        ReleasedWedgeCleared(acc.0[last.frame].wedges[last.wedge], acc.1);
        forall e | e in entries && InRange(frames, e) ensures Cleared(r.0[e.frame].wedges[e.wedge], r.1) {
          LayoutInRange(frames, acc.0, e);
          SetWedgeAt(acc.0, last, rw.0, e.frame, e.wedge);
          if e != last {
            assert e in front;
          }
        }
        forall k, j | 0 <= k < |frames| && 0 <= j < |frames[k].wedges| && Entry(k, j) !in entries
          ensures r.0[k].wedges[j] == frames[k].wedges[j]
        {
          LayoutInRange(frames, acc.0, Entry(k, j));
          SetWedgeAt(acc.0, last, rw.0, k, j);
        }
      } else {
        forall e | e in entries && InRange(frames, e) ensures Cleared(r.0[e.frame].wedges[e.wedge], r.1) {
          LayoutInRange(frames, acc.0, e);
          if e == last {
            assert false;
          }
        }
      }
    }
  }

  method RemoveAll<K>(frames: seq<Frame<K>>, entries: seq<Entry>, pools: seq<seq<Handle>>)
      returns (frames': seq<Frame<K>>, pools': seq<seq<Handle>>)
    ensures (frames', pools') == Removed(frames, entries, pools)
  {
    frames', pools' := frames, pools;
    for i := 0 to |entries|
      invariant (frames', pools') == Removed(frames, entries[..i], pools)
    {
      assert entries[..i + 1][..i] == entries[..i];
      var e := entries[i];
      if e.frame < |frames'| && e.wedge < |frames'[e.frame].wedges| {
        var w;
        w, pools' := ReleaseWedge(frames'[e.frame].wedges[e.wedge], pools');
        frames' := SetWedge(frames', e, w);
      }
    }
    assert entries[..|entries|] == entries;
  }

  // ---------------------------------------------------------------- assign pass

  /** The console messages of the two passes and of the rebuild. */
  datatype Log<K> =
    | Duplicating(kind: K)             // "Duplicating model for <kind>"
    | RanOut(kind: K, needed: nat)     // "Ran out of <kind> models (needed <n> more)"
    | ProblemAssigning                 // "Problem Assigning Models"
    | NotFound(kind: K, wedge: nat, frame: nat)  // "Error: <kind> not found in wedge <w> of refFrame <f>"

  /** A placement made by a pass: which wedge of which frame, and which object with which model. */
  datatype Placement<K> = Placement(entry: Entry, placed: Placed<K>)

  function Tag<K>(e: Entry, placed: seq<Placed<K>>): (r: seq<Placement<K>>)
    ensures |r| == |placed| && forall i :: 0 <= i < |placed| ==> r[i] == Placement(e, placed[i])
  {
    seq(|placed|, i requires 0 <= i < |placed| => Placement(e, placed[i]))
  }

  /**
   * The messages of assigning one wedge: a duplication line per clone (only
   * where the engine logs them), then a shortage line per short kind, then a
   * summary line if any kind was short.
   */
  function AssignLog<K>(a: WedgeAssign<K>, logDuplicates: bool): seq<Log<K>>
  {
    (if logDuplicates then seq(|a.duplicated|, i requires 0 <= i < |a.duplicated| => Duplicating(a.duplicated[i])) else [])
    + seq(|a.ranOut|, i requires 0 <= i < |a.ranOut| => RanOut(a.ranOut[i].0, a.ranOut[i].1))
    + (if a.ranOut != [] then [ProblemAssigning] else [])
  }

  datatype FramesAssign<K> = FramesAssign(frames: seq<Frame<K>>, pools: seq<seq<Handle>>, next: Handle,
                                          log: seq<Log<K>>, placed: seq<Placement<K>>)

  function AssignStep<K>(acc: FramesAssign<K>, e: Entry, placeNow: K -> bool, logDuplicates: bool): (r: FramesAssign<K>)
    ensures |r.frames| == |acc.frames| && |r.pools| == |acc.pools|
  {
    if InRange(acc.frames, e) then
      var a := AssignedWedge(acc.frames[e.frame].wedges[e.wedge], acc.pools, acc.next, placeNow);
      FramesAssign(SetWedge(acc.frames, e, a.wedge), a.pools, a.next, acc.log + AssignLog(a, logDuplicates), acc.placed + Tag(e, a.placed))
    else acc
  }

  /** The assign pass: every wedge of the list, in order, lends models to its objects. */
  function Assigned<K>(frames: seq<Frame<K>>, entries: seq<Entry>, pools: seq<seq<Handle>>, next: Handle,
                       placeNow: K -> bool, logDuplicates: bool): (r: FramesAssign<K>)
    ensures |r.frames| == |frames| && |r.pools| == |pools|
  {
    if entries == [] then FramesAssign(frames, pools, next, [], [])
    else AssignStep(Assigned(frames, entries[..|entries| - 1], pools, next, placeNow, logDuplicates), entries[|entries| - 1], placeNow, logDuplicates)
  }

  lemma {:induction false} AssignedLayout<K>(frames: seq<Frame<K>>, entries: seq<Entry>, pools: seq<seq<Handle>>, next: Handle,
                                             placeNow: K -> bool, logDuplicates: bool)
    ensures Layout(Assigned(frames, entries, pools, next, placeNow, logDuplicates).frames) == Layout(frames)
  {
    if entries != [] {
      AssignedLayout(frames, entries[..|entries| - 1], pools, next, placeNow, logDuplicates);
      var acc := Assigned(frames, entries[..|entries| - 1], pools, next, placeNow, logDuplicates);
      var e := entries[|entries| - 1];
      if InRange(acc.frames, e) {
        var a := AssignedWedge(acc.frames[e.frame].wedges[e.wedge], acc.pools, acc.next, placeNow);
        SetWedgeLayout(acc.frames, e, a.wedge);
      }
    }
  }

  /**
   * The assign pass conserves models: what the objects gained is what left
   * the pools plus the clones it made, which are the handles next .. r.next-1.
   */
  lemma {:induction false} AssignedConserves<K>(frames: seq<Frame<K>>, entries: seq<Entry>, pools: seq<seq<Handle>>, next: Handle,
                                                placeNow: K -> bool, logDuplicates: bool)
    ensures var r := Assigned(frames, entries, pools, next, placeNow, logDuplicates);
      r.next >= next && FramesModels(r.frames) + Pooled(r.pools) == FramesModels(frames) + Pooled(pools) + Ids(next, r.next)
  {
    if entries == [] {
      IdsEmpty(next);
    } else {
      AssignedConserves(frames, entries[..|entries| - 1], pools, next, placeNow, logDuplicates);
      var acc := Assigned(frames, entries[..|entries| - 1], pools, next, placeNow, logDuplicates);
      var e := entries[|entries| - 1];
      if InRange(acc.frames, e) {
        var w := acc.frames[e.frame].wedges[e.wedge];
        var a := AssignedWedge(w, acc.pools, acc.next, placeNow);
        AssignedWedgeConserves(w, acc.pools, acc.next, placeNow);
        AssignedWedgeNext(w, acc.pools, acc.next, placeNow);
        SetWedgeModels(acc.frames, e, a.wedge);
        Exchange(FramesModels(SetWedge(acc.frames, e, a.wedge)), FramesModels(acc.frames), WedgeModels(w), WedgeModels(a.wedge),
                 Pooled(acc.pools), Pooled(a.pools), Ids(acc.next, a.next));
        IdsSplit(next, acc.next, a.next);
        assert FramesModels(acc.frames) + Pooled(acc.pools) + Ids(acc.next, a.next)
            == FramesModels(frames) + Pooled(pools) + Ids(next, a.next);
      }
    }
  }

  /** The assign pass places only kinds meant to be placed at assignment, and only in listed wedges. */
  lemma {:induction false} AssignedPlacesListed<K>(frames: seq<Frame<K>>, entries: seq<Entry>, pools: seq<seq<Handle>>, next: Handle,
                                                   placeNow: K -> bool, logDuplicates: bool)
    ensures forall q :: q in Assigned(frames, entries, pools, next, placeNow, logDuplicates).placed ==>
      q.entry in entries && placeNow(q.placed.kind)
  {
    if entries != [] {
      var front, e := entries[..|entries| - 1], entries[|entries| - 1];
      AssignedPlacesListed(frames, front, pools, next, placeNow, logDuplicates);
      var acc := Assigned(frames, front, pools, next, placeNow, logDuplicates);
      if InRange(acc.frames, e) {
        var a := AssignedWedge(acc.frames[e.frame].wedges[e.wedge], acc.pools, acc.next, placeNow);
        AssignedWedgeReports(acc.frames[e.frame].wedges[e.wedge], acc.pools, acc.next, placeNow);
        forall q | q in acc.placed + Tag(e, a.placed) ensures q.entry in entries && placeNow(q.placed.kind) {
          if q !in acc.placed {
            var i :| 0 <= i < |a.placed| && Tag(e, a.placed)[i] == q;
            assert a.placed[i] in a.placed;
          }
        }
      }
    }
  }

  /** Every object of every frame borrows from a pool numbered below m, or from none. */
  predicate FramesRefsBelow<K>(frames: seq<Frame<K>>, m: nat)
  {
    forall k, j :: 0 <= k < |frames| && 0 <= j < |frames[k].wedges| ==> RefsBelow(frames[k].wedges[j], m)
  }

  /**
   * The assign pass leaves alone every pool that no object borrows from: a
   * pool the objects do not name never gives out a model.
   */
  lemma {:induction false} AssignedAbove<K>(frames: seq<Frame<K>>, entries: seq<Entry>, pools: seq<seq<Handle>>, next: Handle,
                                            placeNow: K -> bool, logDuplicates: bool, m: nat)
    requires FramesRefsBelow(frames, m)
    ensures var r := Assigned(frames, entries, pools, next, placeNow, logDuplicates);
      FramesRefsBelow(r.frames, m) && forall q :: m <= q < |pools| ==> r.pools[q] == pools[q]
  {
    if entries != [] {
      AssignedAbove(frames, entries[..|entries| - 1], pools, next, placeNow, logDuplicates, m);
      var acc := Assigned(frames, entries[..|entries| - 1], pools, next, placeNow, logDuplicates);
      var e := entries[|entries| - 1];
      if InRange(acc.frames, e) {
        var a := AssignedWedge(acc.frames[e.frame].wedges[e.wedge], acc.pools, acc.next, placeNow);
        AssignedWedgeAbove(acc.frames[e.frame].wedges[e.wedge], acc.pools, acc.next, placeNow, m);
        forall k, j | 0 <= k < |acc.frames| && 0 <= j < |acc.frames[k].wedges|
          ensures RefsBelow(SetWedge(acc.frames, e, a.wedge)[k].wedges[j], m)
        {
          SetWedgeAt(acc.frames, e, a.wedge, k, j);
        }
      }
    }
  }

  method AssignAll<K>(frames: seq<Frame<K>>, entries: seq<Entry>, pools: seq<seq<Handle>>, next: Handle,
                      placeNow: K -> bool, logDuplicates: bool) returns (r: FramesAssign<K>)
    ensures r == Assigned(frames, entries, pools, next, placeNow, logDuplicates)
  {
    r := FramesAssign(frames, pools, next, [], []);
    for i := 0 to |entries|
      invariant r == Assigned(frames, entries[..i], pools, next, placeNow, logDuplicates)
    {
      assert entries[..i + 1][..i] == entries[..i];
      var e := entries[i];
      if e.frame < |r.frames| && e.wedge < |r.frames[e.frame].wedges| {
        var a := AssignWedge(r.frames[e.frame].wedges[e.wedge], r.pools, r.next, placeNow);
        r := FramesAssign(SetWedge(r.frames, e, a.wedge), a.pools, a.next, r.log + AssignLog(a, logDuplicates), r.placed + Tag(e, a.placed));
      }
    }
    assert entries[..|entries|] == entries;
  }

  // ---------------------------------------------------------------- update pass

  /** The update pass: every wedge of the list places the held models of the kinds for which placeNow holds. */
  function Placements<K>(frames: seq<Frame<K>>, entries: seq<Entry>, placeNow: K -> bool): seq<Placement<K>>
  {
    if entries == [] then []
    else
      var e := entries[|entries| - 1];
      Placements(frames, entries[..|entries| - 1], placeNow)
      + (if InRange(frames, e) then Tag(e, PlacedWedge(frames[e.frame].wedges[e.wedge], placeNow)) else [])
  }

  /** Object q.obj of the list of q.kind in the wedge named by e holds model q.model. */
  ghost predicate Holds<K>(frames: seq<Frame<K>>, e: Entry, q: Placed<K>)
  {
    InRange(frames, e) &&
    exists i :: 0 <= i < |frames[e.frame].wedges[e.wedge]| &&
      var kl := frames[e.frame].wedges[e.wedge][i];
      kl.kind == q.kind && q.obj < |kl.objects| && kl.objects[q.obj].model == Some(q.model)
  }

  /**
   * The update pass places exactly the held models of the kinds for which
   * placeNow holds, in the wedges of the list.
   */
  lemma {:induction false} PlacementsExact<K>(frames: seq<Frame<K>>, entries: seq<Entry>, placeNow: K -> bool)
    ensures forall pl :: pl in Placements(frames, entries, placeNow) <==>
      pl.entry in entries && placeNow(pl.placed.kind) && Holds(frames, pl.entry, pl.placed)
  {
    if entries != [] {
      var front, e := entries[..|entries| - 1], entries[|entries| - 1];
      PlacementsExact(frames, front, placeNow);
      var more := if InRange(frames, e) then Tag(e, PlacedWedge(frames[e.frame].wedges[e.wedge], placeNow)) else [];
      assert Placements(frames, entries, placeNow) == Placements(frames, front, placeNow) + more;
      if InRange(frames, e) {
        var w := frames[e.frame].wedges[e.wedge];
        PlacedWedgeSound(w, placeNow);
        PlacedWedgeComplete(w, placeNow);
        forall pl | pl in more ensures placeNow(pl.placed.kind) && Holds(frames, pl.entry, pl.placed) {
          var n :| 0 <= n < |more| && more[n] == pl;
          assert PlacedWedge(w, placeNow)[n] in PlacedWedge(w, placeNow);
        }
        forall pl: Placement<K> | pl.entry == e && placeNow(pl.placed.kind) && Holds(frames, pl.entry, pl.placed) ensures pl in more {
          var q := pl.placed;
          var i :| 0 <= i < |w| && w[i].kind == q.kind && q.obj < |w[i].objects| && w[i].objects[q.obj].model == Some(q.model);
          assert Placed(w[i].kind, q.obj, w[i].objects[q.obj].model.value) == q;
          var n :| 0 <= n < |PlacedWedge(w, placeNow)| && PlacedWedge(w, placeNow)[n] == q;
          assert more[n] == pl;
        }
      }
      forall pl: Placement<K> ensures pl in Placements(frames, entries, placeNow) <==>
        pl.entry in entries && placeNow(pl.placed.kind) && Holds(frames, pl.entry, pl.placed)
      {
        if pl.entry == e && !InRange(frames, e) {
          assert !Holds(frames, pl.entry, pl.placed);
        }
      }
    }
  }

  method PlaceAll<K>(frames: seq<Frame<K>>, entries: seq<Entry>, placeNow: K -> bool) returns (placed: seq<Placement<K>>)
    ensures placed == Placements(frames, entries, placeNow)
  {
    placed := [];
    for i := 0 to |entries|
      invariant placed == Placements(frames, entries[..i], placeNow)
    {
      assert entries[..i + 1][..i] == entries[..i];
      var e := entries[i];
      if e.frame < |frames| && e.wedge < |frames[e.frame].wedges| {
        var more := PlaceWedge(frames[e.frame].wedges[e.wedge], placeNow);
        placed := placed + Tag(e, more);
      }
    }
    assert entries[..|entries|] == entries;
  }

  // ---------------------------------------------------------------- shape

  /** Two wedges with the same kind lists, in the same order, each with as many objects. */
  predicate SameWedgeShape<K(==)>(w: Wedge<K>, w': Wedge<K>)
  {
    |w| == |w'| && forall i :: 0 <= i < |w| ==> w[i].kind == w'[i].kind && |w[i].objects| == |w'[i].objects|
  }

  /** Frames that differ at most in which models their objects hold and in their windows. */
  predicate SameShape<K(==)>(a: seq<Frame<K>>, b: seq<Frame<K>>)
  {
    |a| == |b| && forall k :: 0 <= k < |a| ==>
      |a[k].wedges| == |b[k].wedges| && forall j :: 0 <= j < |a[k].wedges| ==> SameWedgeShape(a[k].wedges[j], b[k].wedges[j])
  }

  lemma SameShapeTrans<K>(a: seq<Frame<K>>, b: seq<Frame<K>>, c: seq<Frame<K>>)
    requires SameShape(a, b) && SameShape(b, c)
    ensures SameShape(a, c)
  {
  }

  lemma SetWedgeShape<K>(frames: seq<Frame<K>>, e: Entry, w: Wedge<K>)
    requires InRange(frames, e) && SameWedgeShape(frames[e.frame].wedges[e.wedge], w)
    ensures SameShape(frames, SetWedge(frames, e, w))
  {
    var r := SetWedge(frames, e, w);
    forall k, j | 0 <= k < |frames| && 0 <= j < |frames[k].wedges| ensures SameWedgeShape(frames[k].wedges[j], r[k].wedges[j]) {
      SetWedgeAt(frames, e, w, k, j);
    }
  }

  /** The remove pass only takes models away: every list keeps its kind and its objects. */
  lemma {:induction false} RemovedShape<K>(frames: seq<Frame<K>>, entries: seq<Entry>, pools: seq<seq<Handle>>)
    ensures SameShape(frames, Removed(frames, entries, pools).0)
  {
    if entries != [] {
      RemovedShape(frames, entries[..|entries| - 1], pools);
      var acc := Removed(frames, entries[..|entries| - 1], pools);
      var e := entries[|entries| - 1];
      if InRange(acc.0, e) {
        var w := acc.0[e.frame].wedges[e.wedge];
        ReleasedWedgeEach(w, acc.1);
        SetWedgeShape(acc.0, e, ReleasedWedge(w, acc.1).0);
        SameShapeTrans(frames, acc.0, SetWedge(acc.0, e, ReleasedWedge(w, acc.1).0));
      }
    }
  }

  /** The assign pass only lends models: every list keeps its kind and its objects. */
  lemma {:induction false} AssignedShape<K>(frames: seq<Frame<K>>, entries: seq<Entry>, pools: seq<seq<Handle>>, next: Handle,
                                            placeNow: K -> bool, logDuplicates: bool)
    ensures SameShape(frames, Assigned(frames, entries, pools, next, placeNow, logDuplicates).frames)
  {
    if entries != [] {
      AssignedShape(frames, entries[..|entries| - 1], pools, next, placeNow, logDuplicates);
      var acc := Assigned(frames, entries[..|entries| - 1], pools, next, placeNow, logDuplicates);
      var e := entries[|entries| - 1];
      if InRange(acc.frames, e) {
        var w := acc.frames[e.frame].wedges[e.wedge];
        var a := AssignedWedge(w, acc.pools, acc.next, placeNow);
        AssignedWedgeKinds(w, acc.pools, acc.next, placeNow);
        SetWedgeShape(acc.frames, e, a.wedge);
        SameShapeTrans(frames, acc.frames, SetWedge(acc.frames, e, a.wedge));
      }
    }
  }

  // ---------------------------------------------------------------- classification

  /** The three lists of all frames, and the frames with their windows moved on to this tick's. */
  datatype Classes<K> = Classes(frames: seq<Frame<K>>, update: seq<Entry>, assign: seq<Entry>, remove: seq<Entry>)

  function Entries(k: nat, wedges: seq<nat>): (r: seq<Entry>)
    ensures |r| == |wedges| && forall i :: 0 <= i < |wedges| ==> r[i] == Entry(k, wedges[i])
  {
    seq(|wedges|, i requires 0 <= i < |wedges| => Entry(k, wedges[i]))
  }

  /** The entries of frame n name exactly the wedges of the list, in frame n. */
  lemma EntriesMembers(n: nat, wedges: seq<nat>)
    ensures forall k: nat, j: nat :: Entry(k, j) in Entries(n, wedges) <==> k == n && j in wedges
  {
    forall k: nat, j: nat | k == n && j in wedges ensures Entry(k, j) in Entries(n, wedges) {
      var i :| 0 <= i < |wedges| && wedges[i] == j;
      assert Entries(n, wedges)[i] == Entry(k, j);
    }
  }

  /** This tick's window of each frame, and each frame's remembered one, are well formed. */
  predicate WindowsFit<K>(frames: seq<Frame<K>>, curs: seq<Window>, W: nat)
  {
    |curs| == |frames| && forall k :: 0 <= k < |frames| ==> WellFormed(curs[k], W) && WellFormed(frames[k].prev, W)
  }

  /**
   * Classifying every frame in order, given each frame's window for this tick:
   * the lists of frame k are tagged with k and appended to the lists so far,
   * and the frame remembers its new window as the previous one.
   */
  function Classified<K>(frames: seq<Frame<K>>, curs: seq<Window>, W: nat): (r: Classes<K>)
    requires WindowsFit(frames, curs, W)
    ensures |r.frames| == |frames|
  {
    if frames == [] then Classes([], [], [], [])
    else
      var n := |frames| - 1;
      var c := Classified(frames[..n], curs[..n], W);
      var f := frames[n];
      Classes(c.frames + [f.(window := curs[n], prev := curs[n])],
              c.update + Entries(n, UpdateList(curs[n], f.prev, W)),
              c.assign + Entries(n, AssignList(curs[n], f.prev, W)),
              c.remove + Entries(n, RemoveList(curs[n], f.prev, W)))
  }

  /** Each frame holding this tick's window, as its current and as its remembered one. */
  function Advanced<K>(frames: seq<Frame<K>>, curs: seq<Window>): (r: seq<Frame<K>>)
    requires |curs| == |frames|
    ensures |r| == |frames| && forall k :: 0 <= k < |frames| ==> r[k] == frames[k].(window := curs[k], prev := curs[k])
  {
    seq(|frames|, k requires 0 <= k < |frames| => frames[k].(window := curs[k], prev := curs[k]))
  }

  lemma AdvancedLast<K>(frames: seq<Frame<K>>, curs: seq<Window>)
    requires |curs| == |frames| && frames != []
    ensures var n := |frames| - 1;
      Advanced(frames[..n], curs[..n]) + [frames[n].(window := curs[n], prev := curs[n])] == Advanced(frames, curs)
  {
    var n := |frames| - 1;
    var a := Advanced(frames[..n], curs[..n]) + [frames[n].(window := curs[n], prev := curs[n])];
    forall k | 0 <= k < |frames| ensures a[k] == Advanced(frames, curs)[k] {
      if k < n {
        assert frames[..n][k] == frames[k] && curs[..n][k] == curs[k];
      }
    }
  }

  /** Moving the windows on changes no wedge: the frames hold the same models and have the same shape. */
  lemma AdvancedModels<K>(frames: seq<Frame<K>>, curs: seq<Window>)
    requires |curs| == |frames|
    ensures FramesModels(Advanced(frames, curs)) == FramesModels(frames) && SameShape(frames, Advanced(frames, curs))
  {
    assert FrameTotals(Advanced(frames, curs)) == FrameTotals(frames);
  }

  /** After classification each frame holds this tick's window, as its current and as its previous one. */
  lemma {:induction false} ClassifiedFrames<K>(frames: seq<Frame<K>>, curs: seq<Window>, W: nat)
    requires WindowsFit(frames, curs, W)
    ensures Classified(frames, curs, W).frames == Advanced(frames, curs)
  {
    if frames != [] {
      var n := |frames| - 1;
      ClassifiedFrames(frames[..n], curs[..n], W);
      AdvancedLast(frames, curs);
    }
  }

  /**
   * The classification over all frames is exact: wedge j of frame k is to be
   * updated exactly when it is in the frame's window, assigned exactly when it
   * has just come into view, and removed exactly when it has just left it.
   */
  lemma {:induction false} ClassifiedMembers<K>(frames: seq<Frame<K>>, curs: seq<Window>, W: nat)
    requires WindowsFit(frames, curs, W)
    ensures var r := Classified(frames, curs, W);
      forall k: nat, j: nat ::
        (Entry(k, j) in r.update <==> k < |frames| && j < W && Covers(curs[k], j))
        && (Entry(k, j) in r.assign <==> k < |frames| && j < W && Covers(curs[k], j) && !Covers(frames[k].prev, j))
        && (Entry(k, j) in r.remove <==> k < |frames| && j < W && Covers(frames[k].prev, j) && !Covers(curs[k], j))
  {
    if frames != [] {
      var n := |frames| - 1;
      ClassifiedMembers(frames[..n], curs[..n], W);
      var f := frames[n];
      Classification(curs[n], f.prev, W);
      EntriesMembers(n, UpdateList(curs[n], f.prev, W));
      EntriesMembers(n, AssignList(curs[n], f.prev, W));
      EntriesMembers(n, RemoveList(curs[n], f.prev, W));
    }
  }

  /**
   * With every frame's history cleared, every wedge in view is assigned (the
   * assign list is the update list) and nothing is removed.
   */
  lemma {:induction false} ClassifiedAfterClearing<K>(frames: seq<Frame<K>>, curs: seq<Window>, W: nat)
    requires WindowsFit(frames, curs, W)
    requires forall k :: 0 <= k < |frames| ==> frames[k].prev.start == -1
    ensures Classified(frames, curs, W).assign == Classified(frames, curs, W).update
    ensures Classified(frames, curs, W).remove == []
  {
    if frames != [] {
      var n := |frames| - 1;
      ClassifiedAfterClearing(frames[..n], curs[..n], W);
      ClearedHistoryAssignsAll(curs[n], frames[n].prev, W);
    }
  }

  /**
   * The classification loop over the frames: each frame is classified against
   * the shared flag table, which is all 0 before and after every frame.
   */
  /** Classifying one more frame appends it and its three lists. */
  lemma ClassifiedNext<K>(frames: seq<Frame<K>>, curs: seq<Window>, W: nat, k: nat)
    requires WindowsFit(frames, curs, W) && k < |frames|
    ensures WindowsFit(frames[..k], curs[..k], W) && WindowsFit(frames[..k + 1], curs[..k + 1], W)
    ensures var c := Classified(frames[..k], curs[..k], W); var f := frames[k];
      Classified(frames[..k + 1], curs[..k + 1], W)
      == Classes(c.frames + [f.(window := curs[k], prev := curs[k])], c.update + Entries(k, UpdateList(curs[k], f.prev, W)),
                 c.assign + Entries(k, AssignList(curs[k], f.prev, W)), c.remove + Entries(k, RemoveList(curs[k], f.prev, W)))
  {
    assert frames[..k + 1][..k] == frames[..k] && curs[..k + 1][..k] == curs[..k];
  }

  method ClassifyFrames<K>(flags: array<bv8>, frames: seq<Frame<K>>, curs: seq<Window>) returns (r: Classes<K>)
    requires WindowsFit(frames, curs, flags.Length)
    requires AllClear(flags[..])
    modifies flags
    ensures AllClear(flags[..])
    ensures r == Classified(frames, curs, flags.Length)
  {
    r := Classes([], [], [], []);
    for k := 0 to |frames|
      invariant AllClear(flags[..])
      invariant WindowsFit(frames[..k], curs[..k], flags.Length)
      invariant r == Classified(frames[..k], curs[..k], flags.Length)
    {
      ClassifiedNext(frames, curs, flags.Length, k);
      var f := frames[k];
      var update, assign, remove := ClassifyFrame(flags, curs[k], f.prev);
      r := Classes(r.frames + [f.(window := curs[k], prev := curs[k])],
                   r.update + Entries(k, update), r.assign + Entries(k, assign), r.remove + Entries(k, remove));
    }
    assert frames[..|frames|] == frames && curs[..|curs|] == curs;
  }
}
