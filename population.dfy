/*
 * The operations the population rebuild is made of: tearing one kind of
 * object down across wedges (its held models go back to a pool and its lists
 * are emptied), inserting new objects into the wedges they fall in, and
 * clearing the remembered window of a frame so its next tick assigns afresh.
 */
module Population {
  import opened Pools
  import opened Wedges
  import opened Windows
  import opened Frames

  /** The models held by the objects of a list, in list order. */
  function HeldSeq(objs: seq<VirtualObject>): seq<Handle>
  {
    if objs == [] then []
    else
      var n := |objs| - 1;
      HeldSeq(objs[..n]) + (if objs[n].model.Some? then [objs[n].model.value] else [])
  }

  lemma {:induction false} HeldSeqModels(objs: seq<VirtualObject>)
    ensures multiset(HeldSeq(objs)) == ModelsOf(objs)
  {
    if objs != [] {
      var n := |objs| - 1;
      HeldSeqModels(objs[..n]);
      var tail := if objs[n].model.Some? then [objs[n].model.value] else [];
      assert multiset(HeldSeq(objs)) == multiset(HeldSeq(objs[..n])) + multiset(tail);
    }
  }

  // ---------------------------------------------------------------- teardown

  predicate HasKind<K(==)>(w: Wedge<K>, kind: K)
  {
    exists i :: 0 <= i < |w| && w[i].kind == kind
  }

  /** The wedge with every list of `kind` emptied. */
  function Emptied<K(==)>(w: Wedge<K>, kind: K): (r: Wedge<K>)
    ensures |r| == |w| && forall i :: 0 <= i < |w| ==> r[i] == if w[i].kind == kind then KindList(kind, []) else w[i]
  {
    if w == [] then []
    else
      var n := |w| - 1;
      Emptied(w[..n], kind) + [if w[n].kind == kind then KindList(kind, []) else w[n]]
  }

  /** The models held by the objects of `kind` in a wedge, list by list, in order. */
  function HeldOfKind<K(==)>(w: Wedge<K>, kind: K): seq<Handle>
  {
    if w == [] then []
    else
      var n := |w| - 1;
      HeldOfKind(w[..n], kind) + (if w[n].kind == kind then HeldSeq(w[n].objects) else [])
  }

  /** Emptying the lists of a kind takes out of the wedge exactly the models pushed to the pool. */
  lemma {:induction false} EmptiedModels<K>(w: Wedge<K>, kind: K)
    ensures WedgeModels(Emptied(w, kind)) + multiset(HeldOfKind(w, kind)) == WedgeModels(w)
  {
    if w != [] {
      var n := |w| - 1;
      EmptiedModels(w[..n], kind);
      WedgeModelsAppend(Emptied(w[..n], kind), if w[n].kind == kind then KindList(kind, []) else w[n]);
      HeldSeqModels(w[n].objects);
    }
  }

  /** Emptying is idempotent, and keeps every list of the other kinds. */
  lemma EmptiedTwice<K>(w: Wedge<K>, kind: K)
    ensures Emptied(Emptied(w, kind), kind) == Emptied(w, kind)
  {
  }

  /**
   * One step of removeOldVirtualObjects: a wedge that has a list of `kind`
   * pushes that list's held models onto pool p and empties it; a wedge that
   * lacks the kind is reported.
   */
  function TearDownStep<K(==)>(frames: seq<Frame<K>>, pools: seq<seq<Handle>>, log: seq<Log<K>>, e: Entry, kind: K, p: PoolRef):
    (r: (seq<Frame<K>>, seq<seq<Handle>>, seq<Log<K>>))
    ensures |r.0| == |frames| && |r.1| == |pools|
    ensures forall k :: 0 <= k < |frames| ==> |r.0[k].wedges| == |frames[k].wedges|
  {
    if InRange(frames, e) && p < |pools| then
      var w := frames[e.frame].wedges[e.wedge];
      if HasKind(w, kind) then (SetWedge(frames, e, Emptied(w, kind)), pools[p := pools[p] + HeldOfKind(w, kind)], log)
      else (frames, pools, log + [NotFound(kind, e.wedge, e.frame)])
    else (frames, pools, log)
  }

  /** removeOldVirtualObjects over a list of wedges. */
  function TornDown<K(==)>(frames: seq<Frame<K>>, entries: seq<Entry>, kind: K, p: PoolRef, pools: seq<seq<Handle>>):
    (r: (seq<Frame<K>>, seq<seq<Handle>>, seq<Log<K>>))
    ensures |r.0| == |frames| && |r.1| == |pools|
    ensures forall k :: 0 <= k < |frames| ==> |r.0[k].wedges| == |frames[k].wedges|
  {
    if entries == [] then (frames, pools, [])
    else
      var acc := TornDown(frames, entries[..|entries| - 1], kind, p, pools);
      TearDownStep(acc.0, acc.1, acc.2, entries[|entries| - 1], kind, p)
  }

  /** The wedge numbers 0 .. n-1. */
  function Upto(n: nat): (r: seq<nat>)
    ensures |r| == n && forall j :: 0 <= j < n ==> r[j] == j
  {
    seq(n, j requires 0 <= j < n => j as nat)
  }

  /** Every wedge of the given frames, frame by frame, in wedge order. */
  function AllWedges<K>(frames: seq<Frame<K>>, fs: seq<nat>): seq<Entry>
  {
    if fs == [] then []
    else
      var f := fs[|fs| - 1];
      AllWedges(frames, fs[..|fs| - 1]) + (if f < |frames| then Entries(f, Upto(|frames[f].wedges|)) else [])
  }

  lemma {:induction false} AllWedgesMembers<K>(frames: seq<Frame<K>>, fs: seq<nat>)
    ensures forall e :: e in AllWedges(frames, fs) <==> e.frame in fs && InRange(frames, e)
  {
    if fs != [] {
      var front, f := fs[..|fs| - 1], fs[|fs| - 1];
      AllWedgesMembers(frames, front);
      assert fs == front + [f];
      if f < |frames| {
        var more := Entries(f, Upto(|frames[f].wedges|));
        forall e: Entry | e.frame == f && InRange(frames, e) ensures e in more {
          assert more[e.wedge] == e;
        }
      }
    }
  }

  lemma {:induction false} TornDownLayout<K>(frames: seq<Frame<K>>, entries: seq<Entry>, kind: K, p: PoolRef, pools: seq<seq<Handle>>)
    ensures Layout(TornDown(frames, entries, kind, p, pools).0) == Layout(frames)
  {
    if entries != [] {
      TornDownLayout(frames, entries[..|entries| - 1], kind, p, pools);
      var acc := TornDown(frames, entries[..|entries| - 1], kind, p, pools);
      var e := entries[|entries| - 1];
      if InRange(acc.0, e) {
        SetWedgeLayout(acc.0, e, Emptied(acc.0[e.frame].wedges[e.wedge], kind));
      }
    }
  }

  /** Teardown moves the held models of the kind from the wedges to the pool: none is lost or made. */
  lemma {:induction false} TornDownConserves<K>(frames: seq<Frame<K>>, entries: seq<Entry>, kind: K, p: PoolRef, pools: seq<seq<Handle>>)
    ensures var r := TornDown(frames, entries, kind, p, pools); FramesModels(r.0) + Pooled(r.1) == FramesModels(frames) + Pooled(pools)
  {
    if entries != [] {
      TornDownConserves(frames, entries[..|entries| - 1], kind, p, pools);
      var acc := TornDown(frames, entries[..|entries| - 1], kind, p, pools);
      TearDownStepConserves(acc.0, acc.1, acc.2, entries[|entries| - 1], kind, p);
    }
  }

  /** One teardown step moves models between one wedge and one pool. */
  lemma TearDownStepConserves<K>(frames: seq<Frame<K>>, pools: seq<seq<Handle>>, log: seq<Log<K>>, e: Entry, kind: K, p: PoolRef)
    ensures var r := TearDownStep(frames, pools, log, e, kind, p); FramesModels(r.0) + Pooled(r.1) == FramesModels(frames) + Pooled(pools)
  {
    if InRange(frames, e) && p < |pools| && HasKind(frames[e.frame].wedges[e.wedge], kind) {
      var w := frames[e.frame].wedges[e.wedge];
      var held := HeldOfKind(w, kind);
      var pools' := pools[p := pools[p] + held];
      EmptiedModels(w, kind);
      SetWedgeModels(frames, e, Emptied(w, kind));
      PushedPooled(pools, p, held);
      Exchange(FramesModels(SetWedge(frames, e, Emptied(w, kind))), FramesModels(frames), WedgeModels(w), WedgeModels(Emptied(w, kind)),
               Pooled(pools), Pooled(pools'), multiset{});
    }
  }

  /** Pushing a run of models onto one pool adds exactly those models to the table. */
  lemma PushedPooled(pools: seq<seq<Handle>>, p: PoolRef, held: seq<Handle>)
    requires p < |pools|
    ensures Pooled(pools[p := pools[p] + held]) == Pooled(pools) + multiset(held)
  {
    PooledUpdate(pools, p, pools[p] + held);
    assert multiset(pools[p] + held) == multiset(pools[p]) + multiset(held);
    Cancel(Pooled(pools[p := pools[p] + held]), Pooled(pools) + multiset(held), multiset(pools[p]));
  }

  /**
   * After the teardown every list of the kind in a listed wedge is empty,
   * every list of another kind is as it was, and wedges not listed are
   * untouched.
   */
  lemma {:induction false} TornDownEffect<K>(frames: seq<Frame<K>>, entries: seq<Entry>, kind: K, p: PoolRef, pools: seq<seq<Handle>>)
    requires p < |pools|
    ensures var r := TornDown(frames, entries, kind, p, pools);
      (forall e :: e in entries && InRange(frames, e) ==> r.0[e.frame].wedges[e.wedge] == Emptied(frames[e.frame].wedges[e.wedge], kind))
      && (forall k, j :: 0 <= k < |frames| && 0 <= j < |frames[k].wedges| && Entry(k, j) !in entries ==>
            r.0[k].wedges[j] == frames[k].wedges[j])
  {
    if entries != [] {
      var front, last := entries[..|entries| - 1], entries[|entries| - 1];
      TornDownEffect(frames, front, kind, p, pools);
      TornDownLayout(frames, front, kind, p, pools);
      var acc := TornDown(frames, front, kind, p, pools);
      var r := TornDown(frames, entries, kind, p, pools);
      assert r == TearDownStep(acc.0, acc.1, acc.2, last, kind, p);
      LayoutInRange(frames, acc.0, last);
      if InRange(acc.0, last) && HasKind(acc.0[last.frame].wedges[last.wedge], kind) {
        var w := acc.0[last.frame].wedges[last.wedge];
        forall e | e in entries && InRange(frames, e)
          ensures r.0[e.frame].wedges[e.wedge] == Emptied(frames[e.frame].wedges[e.wedge], kind)
        {
          LayoutInRange(frames, acc.0, e);
          SetWedgeAt(acc.0, last, Emptied(w, kind), e.frame, e.wedge);
          if e == last {
            if last in front {
              EmptiedTwice(frames[e.frame].wedges[e.wedge], kind);
            }
          } else {
            assert e in front;
          }
        }
        forall k, j | 0 <= k < |frames| && 0 <= j < |frames[k].wedges| && Entry(k, j) !in entries
          ensures r.0[k].wedges[j] == frames[k].wedges[j]
        {
          LayoutInRange(frames, acc.0, Entry(k, j));
          SetWedgeAt(acc.0, last, Emptied(w, kind), k, j);
        }
      } else if InRange(acc.0, last) {
        var w := acc.0[last.frame].wedges[last.wedge];
        assert Emptied(w, kind) == w;
        forall e | e in entries && InRange(frames, e)
          ensures r.0[e.frame].wedges[e.wedge] == Emptied(frames[e.frame].wedges[e.wedge], kind)
        {
          if e == last && last !in front {
            assert frames[e.frame].wedges[e.wedge] == w;
          }
        }
      }
    }
  }

  // ---------------------------------------------------------------- insertion

  /** A new object to be pushed onto the list of `kind` in the wedge named by `entry`. */
  datatype Item<K> = Item(entry: Entry, kind: K, obj: VirtualObject)

  /** The wedge with `o` appended to every list of `kind`. */
  function AddTo<K(==)>(w: Wedge<K>, kind: K, o: VirtualObject): (r: Wedge<K>)
    ensures |r| == |w| && forall i :: 0 <= i < |w| ==> r[i] == if w[i].kind == kind then KindList(kind, w[i].objects + [o]) else w[i]
  {
    if w == [] then []
    else
      var n := |w| - 1;
      AddTo(w[..n], kind, o) + [if w[n].kind == kind then KindList(kind, w[n].objects + [o]) else w[n]]
  }

  /** A new object holds no model, so adding it changes no wedge's models. */
  lemma {:induction false} AddToModels<K>(w: Wedge<K>, kind: K, o: VirtualObject)
    requires o.model.None?
    ensures WedgeModels(AddTo(w, kind, o)) == WedgeModels(w)
  {
    if w != [] {
      var n := |w| - 1;
      AddToModels(w[..n], kind, o);
      WedgeModelsAppend(AddTo(w[..n], kind, o), if w[n].kind == kind then KindList(kind, w[n].objects + [o]) else w[n]);
      ModelsOfAppend(w[n].objects, o);
    }
  }

  function InsertStep<K(==)>(frames: seq<Frame<K>>, it: Item<K>): (r: seq<Frame<K>>)
    ensures |r| == |frames| && forall k :: 0 <= k < |frames| ==> |r[k].wedges| == |frames[k].wedges|
  {
    if InRange(frames, it.entry) then SetWedge(frames, it.entry, AddTo(frames[it.entry.frame].wedges[it.entry.wedge], it.kind, it.obj))
    else frames
  }

  /** Pushing every item, in order. */
  function Inserted<K(==)>(frames: seq<Frame<K>>, items: seq<Item<K>>): (r: seq<Frame<K>>)
    ensures |r| == |frames| && forall k :: 0 <= k < |frames| ==> |r[k].wedges| == |frames[k].wedges|
  {
    if items == [] then frames else InsertStep(Inserted(frames, items[..|items| - 1]), items[|items| - 1])
  }

  /** The objects of the items bound for the list of `kind` in the wedge named by e, in order. */
  function ObjectsFor<K(==)>(items: seq<Item<K>>, e: Entry, kind: K): seq<VirtualObject>
  {
    if items == [] then []
    else
      var it := items[|items| - 1];
      ObjectsFor(items[..|items| - 1], e, kind) + (if it.entry == e && it.kind == kind then [it.obj] else [])
  }

  lemma {:induction false} InsertedLayout<K>(frames: seq<Frame<K>>, items: seq<Item<K>>)
    ensures Layout(Inserted(frames, items)) == Layout(frames)
  {
    if items != [] {
      InsertedLayout(frames, items[..|items| - 1]);
      var acc := Inserted(frames, items[..|items| - 1]);
      var it := items[|items| - 1];
      if InRange(acc, it.entry) {
        SetWedgeLayout(acc, it.entry, AddTo(acc[it.entry.frame].wedges[it.entry.wedge], it.kind, it.obj));
      }
    }
  }

  /** Inserting new objects, which hold no models, changes no frame's models. */
  lemma {:induction false} InsertedModels<K>(frames: seq<Frame<K>>, items: seq<Item<K>>)
    requires forall n :: 0 <= n < |items| ==> items[n].obj.model.None?
    ensures FramesModels(Inserted(frames, items)) == FramesModels(frames)
  {
    if items != [] {
      var front, it := items[..|items| - 1], items[|items| - 1];
      assert forall n :: 0 <= n < |front| ==> front[n] == items[n];
      InsertedModels(frames, front);
      var acc := Inserted(frames, front);
      if InRange(acc, it.entry) {
        var w := acc[it.entry.frame].wedges[it.entry.wedge];
        AddToModels(w, it.kind, it.obj);
        SetWedgeModels(acc, it.entry, AddTo(w, it.kind, it.obj));
        forall h ensures FramesModels(SetWedge(acc, it.entry, AddTo(w, it.kind, it.obj)))[h] == FramesModels(acc)[h] {
          assert (FramesModels(SetWedge(acc, it.entry, AddTo(w, it.kind, it.obj))) + WedgeModels(w))[h]
              == (FramesModels(acc) + WedgeModels(w))[h];
        }
      }
    }
  }

  /**
   * After inserting, every list of every wedge in range is its old contents
   * followed by exactly the objects of the items bound for it, in item order.
   */
  lemma {:induction false} InsertedLists<K>(frames: seq<Frame<K>>, items: seq<Item<K>>)
    ensures var r := Inserted(frames, items);
      forall k, j :: 0 <= k < |frames| && 0 <= j < |frames[k].wedges| ==>
        |r[k].wedges[j]| == |frames[k].wedges[j]| &&
        forall i :: 0 <= i < |frames[k].wedges[j]| ==>
          r[k].wedges[j][i] == KindList(frames[k].wedges[j][i].kind,
                                        frames[k].wedges[j][i].objects + ObjectsFor(items, Entry(k, j), frames[k].wedges[j][i].kind))
  {
    if items != [] {
      var front, it := items[..|items| - 1], items[|items| - 1];
      InsertedLists(frames, front);
      var acc := Inserted(frames, front);
      var r := Inserted(frames, items);
      forall k, j | 0 <= k < |frames| && 0 <= j < |frames[k].wedges|
        ensures |r[k].wedges[j]| == |frames[k].wedges[j]| &&
          forall i :: 0 <= i < |frames[k].wedges[j]| ==>
            r[k].wedges[j][i] == KindList(frames[k].wedges[j][i].kind,
                                          frames[k].wedges[j][i].objects + ObjectsFor(items, Entry(k, j), frames[k].wedges[j][i].kind))
      {
        if InRange(acc, it.entry) {
          SetWedgeAt(acc, it.entry, AddTo(acc[it.entry.frame].wedges[it.entry.wedge], it.kind, it.obj), k, j);
        }
        forall i | 0 <= i < |frames[k].wedges[j]|
          ensures r[k].wedges[j][i] == KindList(frames[k].wedges[j][i].kind,
                                                frames[k].wedges[j][i].objects + ObjectsFor(items, Entry(k, j), frames[k].wedges[j][i].kind))
        {
          var kl := frames[k].wedges[j][i];
          assert ObjectsFor(items, Entry(k, j), kl.kind)
              == ObjectsFor(front, Entry(k, j), kl.kind) + (if it.entry == Entry(k, j) && it.kind == kl.kind then [it.obj] else []);
        }
      }
    }
  }

  /** Clearing the remembered window of the given frames (prevStartWedgeIndex = -1). */
  function ResetHistory<K>(frames: seq<Frame<K>>, fs: seq<nat>): (r: seq<Frame<K>>)
    ensures |r| == |frames|
    ensures forall k :: 0 <= k < |frames| ==>
      r[k] == if k in fs then frames[k].(prev := Window(-1, frames[k].prev.finish)) else frames[k]
  {
    seq(|frames|, k requires 0 <= k < |frames| => if k in fs then frames[k].(prev := Window(-1, frames[k].prev.finish)) else frames[k])
  }

  lemma ResetHistoryModels<K>(frames: seq<Frame<K>>, fs: seq<nat>)
    ensures FramesModels(ResetHistory(frames, fs)) == FramesModels(frames)
  {
    assert FrameTotals(ResetHistory(frames, fs)) == FrameTotals(frames);
  }

  // ---------------------------------------------------------------- methods

  method TearDown<K(==)>(frames: seq<Frame<K>>, entries: seq<Entry>, kind: K, p: PoolRef, pools: seq<seq<Handle>>)
      returns (frames': seq<Frame<K>>, pools': seq<seq<Handle>>, log: seq<Log<K>>)
    ensures (frames', pools', log) == TornDown(frames, entries, kind, p, pools)
  {
    frames', pools', log := frames, pools, [];
    for n := 0 to |entries|
      invariant (frames', pools', log) == TornDown(frames, entries[..n], kind, p, pools)
    {
      assert entries[..n + 1][..n] == entries[..n];
      var e := entries[n];
      if e.frame < |frames'| && e.wedge < |frames'[e.frame].wedges| && p < |pools'| {
        var found, held, w' := ScanWedge(frames'[e.frame].wedges[e.wedge], kind);
        if found {
          frames' := SetWedge(frames', e, w');
          pools' := pools'[p := pools'[p] + held];
        } else {
          log := log + [NotFound(kind, e.wedge, e.frame)];
        }
      }
    }
    assert entries[..|entries|] == entries;
  }

  /** One pass over a wedge's lists: whether the kind has a list there, the models its lists hold, and the wedge with them emptied. */
  method ScanWedge<K(==)>(w: Wedge<K>, kind: K) returns (found: bool, held: seq<Handle>, w': Wedge<K>)
    ensures found == HasKind(w, kind) && held == HeldOfKind(w, kind) && w' == Emptied(w, kind)
  {
    found, held, w' := false, [], [];
    for i := 0 to |w|
      invariant found <==> HasKind(w[..i], kind)
      invariant held == HeldOfKind(w[..i], kind)
      invariant w' == Emptied(w[..i], kind)
    {
      ScanStep(w, kind, i);
      if w[i].kind == kind {
        found := true;
        held := held + HeldSeq(w[i].objects);
        w' := w' + [KindList(kind, [])];
      } else {
        w' := w' + [w[i]];
      }
    }
    assert w[..|w|] == w;
  }

  lemma ScanStep<K>(w: Wedge<K>, kind: K, i: nat)
    requires i < |w|
    ensures HasKind(w[..i + 1], kind) <==> HasKind(w[..i], kind) || w[i].kind == kind
    ensures HeldOfKind(w[..i + 1], kind) == HeldOfKind(w[..i], kind) + if w[i].kind == kind then HeldSeq(w[i].objects) else []
    ensures Emptied(w[..i + 1], kind) == Emptied(w[..i], kind) + [if w[i].kind == kind then KindList(kind, []) else w[i]]
  {
    assert w[..i + 1][..i] == w[..i];
    if HasKind(w[..i], kind) {
      var j :| 0 <= j < i && w[..i][j].kind == kind;
      assert w[..i + 1][j].kind == kind;
    }
    if w[i].kind == kind {
      assert w[..i + 1][i].kind == kind;
    }
  }

  method Insert<K(==)>(frames: seq<Frame<K>>, items: seq<Item<K>>) returns (frames': seq<Frame<K>>)
    ensures frames' == Inserted(frames, items)
  {
    frames' := frames;
    for n := 0 to |items|
      invariant frames' == Inserted(frames, items[..n])
    {
      assert items[..n + 1][..n] == items[..n];
      var it := items[n];
      if it.entry.frame < |frames'| && it.entry.wedge < |frames'[it.entry.frame].wedges| {
        frames' := SetWedge(frames', it.entry, AddTo(frames'[it.entry.frame].wedges[it.entry.wedge], it.kind, it.obj));
      }
    }
    assert items[..|items|] == items;
  }
}
