/*
 * Wedges and the virtual objects they hold, and what the three per-tick passes
 * do to one wedge: release the models of a wedge that went out of view, lend
 * models to the objects of a wedge that came into view, and place the models
 * of a visible wedge.
 */
module Wedges {
  import opened Pools

  /**
   * A virtual object: where it sits on its track or ring (a fraction of a turn,
   * or the launch time for launcher vehicles and sleds), the extra constructor
   * argument some classes take (a ring number, a screw side; 0 when none), the
   * pool it borrows models from (None for objects that own their model
   * outright), and the model it currently holds.
   */
  datatype VirtualObject = VirtualObject(position: real, index: int, pool: Option<PoolRef>, model: Option<Handle>)

  /** The list of one kind of virtual object in a wedge. */
  datatype KindList<K> = KindList(kind: K, objects: seq<VirtualObject>)

  /** A wedge maps kind names to object lists, in the order the kinds were registered. */
  type Wedge<K> = seq<KindList<K>>

  function ModelOf(o: VirtualObject): multiset<Handle>
  {
    if o.model.Some? then multiset{o.model.value} else multiset{}
  }

  /** The models held by a list of objects. */
  function ModelsOf(objs: seq<VirtualObject>): multiset<Handle>
  {
    if objs == [] then multiset{} else ModelsOf(objs[..|objs| - 1]) + ModelOf(objs[|objs| - 1])
  }

  lemma ModelsOfAppend(objs: seq<VirtualObject>, o: VirtualObject)
    ensures ModelsOf(objs + [o]) == ModelsOf(objs) + ModelOf(o)
  {
    assert (objs + [o])[..|objs|] == objs;
  }

  /** The models held by the objects of a wedge. */
  function WedgeModels<K>(w: Wedge<K>): multiset<Handle>
  {
    if w == [] then multiset{} else WedgeModels(w[..|w| - 1]) + ModelsOf(w[|w| - 1].objects)
  }

  lemma WedgeModelsAppend<K>(w: Wedge<K>, kl: KindList<K>)
    ensures WedgeModels(w + [kl]) == WedgeModels(w) + ModelsOf(kl.objects)
  {
    assert (w + [kl])[..|w|] == w;
  }

  lemma {:induction false} ModelsOfConcat(a: seq<VirtualObject>, b: seq<VirtualObject>)
    ensures ModelsOf(a + b) == ModelsOf(a) + ModelsOf(b)
    decreases |b|
  {
    if b == [] {
      assert a + b == a;
    } else {
      var n := |b| - 1;
      var front, last := b[..n], b[n];
      assert b == front + [last];
      calc {
        ModelsOf(a + b);
        == { Associated(a, front, [last]); }
        ModelsOf((a + front) + [last]);
        == { ModelsOfAppend(a + front, last); }
        ModelsOf(a + front) + ModelOf(last);
        == { ModelsOfConcat(a, front); }
        ModelsOf(a) + ModelsOf(front) + ModelOf(last);
        == { ModelsOfAppend(front, last); }
        ModelsOf(a) + ModelsOf(b);
      }
    }
  }

  lemma Associated(a: seq<VirtualObject>, b: seq<VirtualObject>, c: seq<VirtualObject>)
    ensures a + (b + c) == (a + b) + c
  {
  }

  /** Replacing one kind list changes the held models by exactly that list's difference. */
  lemma {:induction false} WedgeModelsUpdate<K>(w: Wedge<K>, i: nat, kl: KindList<K>)
    requires i < |w|
    ensures WedgeModels(w[i := kl]) + ModelsOf(w[i].objects) == WedgeModels(w) + ModelsOf(kl.objects)
    decreases |w|, 1
  {
    var n := |w| - 1;
    if i < n {
      WedgeModelsUpdateFront(w, i, kl);
    } else {
      var w' := w[i := kl];
      assert w'[..n] == w[..n];
      assert WedgeModels(w') == WedgeModels(w[..n]) + ModelsOf(kl.objects);
    }
  }

  lemma {:induction false} WedgeModelsUpdateFront<K>(w: Wedge<K>, i: nat, kl: KindList<K>)
    requires i < |w| - 1
    ensures WedgeModels(w[i := kl]) + ModelsOf(w[i].objects) == WedgeModels(w) + ModelsOf(kl.objects)
    decreases |w|, 0
  {
    var n := |w| - 1;
    var w' := w[i := kl];
    var v, v' := w[..n], w'[..n];
    assert v' == v[i := kl] && v[i] == w[i] && w'[n] == w[n] by {
      forall k | 0 <= k < n ensures v'[k] == v[i := kl][k] {
      }
    }
    assert WedgeModels(w') == WedgeModels(v') + ModelsOf(w[n].objects);
    WedgeModelsUpdate(v, i, kl);
    MultisetSwap(WedgeModels(v'), WedgeModels(v), ModelsOf(w[i].objects), ModelsOf(kl.objects), ModelsOf(w[n].objects));
  }

  lemma MultisetSwap(f': multiset<Handle>, f: multiset<Handle>, x: multiset<Handle>, y: multiset<Handle>, l: multiset<Handle>)
    requires f' + x == f + y
    ensures f' + l + x == f + l + y
  {
    forall e ensures (f' + l + x)[e] == (f + l + y)[e] {
      assert (f' + x)[e] == (f + y)[e];
    }
  }

  /** A wedge of a new frame: an empty list for each kind the frame registers, in order. */
  function EmptyWedge<K>(kinds: seq<K>): (r: Wedge<K>)
    ensures |r| == |kinds| && forall i :: 0 <= i < |kinds| ==> r[i] == KindList(kinds[i], [])
  {
    seq(|kinds|, i requires 0 <= i < |kinds| => KindList(kinds[i], []))
  }

  lemma EmptyWedgeModels<K>(kinds: seq<K>)
    ensures WedgeModels(EmptyWedge(kinds)) == multiset{}
  {
    var w := EmptyWedge(kinds);
    forall n | 0 <= n <= |w| ensures WedgeModels(w[..n]) == multiset{} {
      EmptyPrefix(w, n);
    }
    assert w[..|w|] == w;
  }

  lemma {:induction false} EmptyPrefix<K>(w: Wedge<K>, n: nat)
    requires n <= |w| && forall i :: 0 <= i < |w| ==> w[i].objects == []
    ensures WedgeModels(w[..n]) == multiset{}
  {
    if n > 0 {
      EmptyPrefix(w, n - 1);
      assert w[..n][..n - 1] == w[..n - 1];
    }
  }

  function WedgeTotals<K>(ws: seq<Wedge<K>>): (r: seq<multiset<Handle>>)
    ensures |r| == |ws| && forall k :: 0 <= k < |ws| ==> r[k] == WedgeModels(ws[k])
  {
    seq(|ws|, k requires 0 <= k < |ws| => WedgeModels(ws[k]))
  }

  /** The models held by the objects of a sequence of wedges. */
  function WedgesModels<K>(ws: seq<Wedge<K>>): multiset<Handle>
  {
    Sum(WedgeTotals(ws))
  }

  lemma WedgesModelsUpdate<K>(ws: seq<Wedge<K>>, i: nat, w: Wedge<K>)
    requires i < |ws|
    ensures WedgesModels(ws[i := w]) + WedgeModels(ws[i]) == WedgesModels(ws) + WedgeModels(w)
  {
    assert WedgeTotals(ws[i := w]) == WedgeTotals(ws)[i := WedgeModels(w)];
    SumUpdate(WedgeTotals(ws), i, WedgeModels(w));
  }

  /** The object refers to a pool of the table (in the source: its `unallocatedModels` is an array). */
  predicate HasPool(o: VirtualObject, pools: seq<seq<Handle>>)
  {
    o.pool.Some? && o.pool.value < |pools|
  }

  // ---------------------------------------------------------------- release

  /**
   * Releasing one object of a wedge that left the view: a held model goes back
   * on the object's own pool and the object forgets it.  An object without a
   * pool keeps its model.
   */
  function Release(o: VirtualObject, pools: seq<seq<Handle>>): (r: (VirtualObject, seq<seq<Handle>>))
    ensures |r.1| == |pools|
    ensures r.0 == (if HasPool(o, pools) then o.(model := None) else o)
  {
    if o.model.Some? && HasPool(o, pools) then (o.(model := None), Push(pools, o.pool.value, o.model.value))
    else (o, pools)
  }

  lemma ReleaseConserves(o: VirtualObject, pools: seq<seq<Handle>>)
    ensures var r := Release(o, pools); ModelOf(r.0) + Pooled(r.1) == ModelOf(o) + Pooled(pools)
  {
    if o.model.Some? && HasPool(o, pools) {
      PushPooled(pools, o.pool.value, o.model.value);
    }
  }

  /** Releasing every object of a list, in order. */
  function Released(objs: seq<VirtualObject>, pools: seq<seq<Handle>>): (r: (seq<VirtualObject>, seq<seq<Handle>>))
    ensures |r.0| == |objs| && |r.1| == |pools|
  {
    if objs == [] then ([], pools)
    else
      var (done, pl) := Released(objs[..|objs| - 1], pools);
      var (o, pl') := Release(objs[|objs| - 1], pl);
      (done + [o], pl')
  }

  /** After a release every object that has a pool holds no model, and nothing else about it changed. */
  lemma {:induction false} ReleasedEach(objs: seq<VirtualObject>, pools: seq<seq<Handle>>)
    ensures var r := Released(objs, pools);
      forall i :: 0 <= i < |objs| ==> r.0[i] == (if HasPool(objs[i], pools) then objs[i].(model := None) else objs[i])
  {
    if objs != [] {
      ReleasedEach(objs[..|objs| - 1], pools);
    }
  }

  /** Releasing moves models from the objects to the pools: none is lost or made. */
  lemma {:induction false} ReleasedConserves(objs: seq<VirtualObject>, pools: seq<seq<Handle>>)
    ensures var r := Released(objs, pools); ModelsOf(r.0) + Pooled(r.1) == ModelsOf(objs) + Pooled(pools)
  {
    if objs != [] {
      var front := objs[..|objs| - 1];
      ReleasedConserves(front, pools);
      var (done, pl) := Released(front, pools);
      var (o, pl') := Release(objs[|objs| - 1], pl);
      ReleaseConserves(objs[|objs| - 1], pl);
      ModelsOfAppend(done, o);
      Chain0(ModelsOf(done), ModelOf(o), ModelsOf(front), ModelOf(objs[|objs| - 1]), Pooled(pools), Pooled(pl), Pooled(pl'));
    }
  }

  /** Releasing every object of every list of a wedge, list by list. */
  function ReleasedWedge<K>(w: Wedge<K>, pools: seq<seq<Handle>>): (r: (Wedge<K>, seq<seq<Handle>>))
    ensures |r.0| == |w| && |r.1| == |pools|
  {
    if w == [] then ([], pools)
    else
      var kl := w[|w| - 1];
      var (done, pl) := ReleasedWedge(w[..|w| - 1], pools);
      var (objs, pl') := Released(kl.objects, pl);
      (done + [KindList(kl.kind, objs)], pl')
  }

  /** After the remove pass on a wedge its kind lists are the same, and no object with a pool holds a model. */
  lemma {:induction false} ReleasedWedgeEach<K>(w: Wedge<K>, pools: seq<seq<Handle>>)
    ensures var r := ReleasedWedge(w, pools);
      forall i :: 0 <= i < |w| ==> (r.0[i].kind == w[i].kind && |r.0[i].objects| == |w[i].objects| &&
        forall j :: 0 <= j < |w[i].objects| ==>
          r.0[i].objects[j] == (if HasPool(w[i].objects[j], pools) then w[i].objects[j].(model := None) else w[i].objects[j]))
  {
    if w != [] {
      var front, kl := w[..|w| - 1], w[|w| - 1];
      ReleasedWedgeEach(front, pools);
      var (done, pl) := ReleasedWedge(front, pools);
      ReleasedEach(kl.objects, pl);
    }
  }

  lemma {:induction false} ReleasedWedgeConserves<K>(w: Wedge<K>, pools: seq<seq<Handle>>)
    ensures var r := ReleasedWedge(w, pools); WedgeModels(r.0) + Pooled(r.1) == WedgeModels(w) + Pooled(pools)
  {
    if w != [] {
      var front, kl := w[..|w| - 1], w[|w| - 1];
      ReleasedWedgeConserves(front, pools);
      var (done, pl) := ReleasedWedge(front, pools);
      var (objs, pl') := Released(kl.objects, pl);
      ReleasedConserves(kl.objects, pl);
      WedgeModelsAppend(done, KindList(kl.kind, objs));
      Chain0(WedgeModels(done), ModelsOf(objs), WedgeModels(front), ModelsOf(kl.objects), Pooled(pools), Pooled(pl), Pooled(pl'));
    }
  }

  method ReleaseObjects(objs: seq<VirtualObject>, pools: seq<seq<Handle>>) returns (objs': seq<VirtualObject>, pools': seq<seq<Handle>>)
    ensures (objs', pools') == Released(objs, pools)
  {
    objs', pools' := [], pools;
    for i := 0 to |objs|
      invariant (objs', pools') == Released(objs[..i], pools)
    {
      assert objs[..i + 1][..i] == objs[..i];
      var o := objs[i];
      if o.model.Some? && HasPool(o, pools') {
        pools' := Push(pools', o.pool.value, o.model.value);
        o := o.(model := None);
      }
      objs' := objs' + [o];
    }
    assert objs[..|objs|] == objs;
  }

  /** The remove pass on one wedge: every kind list, every object. */
  method ReleaseWedge<K>(w: Wedge<K>, pools: seq<seq<Handle>>) returns (w': Wedge<K>, pools': seq<seq<Handle>>)
    ensures (w', pools') == ReleasedWedge(w, pools)
  {
    w', pools' := [], pools;
    for i := 0 to |w|
      invariant (w', pools') == ReleasedWedge(w[..i], pools)
    {
      assert w[..i + 1][..i] == w[..i];
      var objs;
      objs, pools' := ReleaseObjects(w[i].objects, pools');
      w' := w' + [KindList(w[i].kind, objs)];
    }
    assert w[..|w|] == w;
  }

  // ---------------------------------------------------------------- assign

  datatype ObjectAssign = ObjectAssign(obj: VirtualObject, pools: seq<seq<Handle>>, next: Handle, duplicated: bool, short: bool)

  /**
   * Assigning one object of a wedge that came into view: an object without a
   * model borrows one from its pool (see Acquire); an object that already holds
   * one, or that has no pool, is left as it is.
   */
  function AssignObject(o: VirtualObject, pools: seq<seq<Handle>>, next: Handle): (r: ObjectAssign)
    ensures |r.pools| == |pools|
  {
    if o.model.Some? || !HasPool(o, pools) then ObjectAssign(o, pools, next, false, false)
    else
      var a := Acquire(pools, o.pool.value, next);
      ObjectAssign(o.(model := a.model), a.pools, a.next, a.duplicated, a.model.None?)
  }

  lemma AssignObjectFacts(o: VirtualObject, pools: seq<seq<Handle>>, next: Handle)
    ensures var r := AssignObject(o, pools, next);
      r.next >= next && r.obj == o.(model := r.obj.model)
      && (o.model.Some? || !HasPool(o, pools) ==> r.obj == o && r.pools == pools && r.next == next && !r.short && !r.duplicated)
      // the object is short of a model exactly when it needed one and its pool was empty
      && (r.short <==> o.model.None? && HasPool(o, pools) && |pools[o.pool.value]| == 0)
      && (r.short <==> r.obj.model.None? && HasPool(o, pools))
  {
    if o.model.None? && HasPool(o, pools) {
      AcquireFacts(pools, o.pool.value, next);
    }
  }

  lemma AssignObjectConserves(o: VirtualObject, pools: seq<seq<Handle>>, next: Handle)
    ensures var r := AssignObject(o, pools, next);
      ModelOf(r.obj) + Pooled(r.pools) == ModelOf(o) + Pooled(pools) + Ids(next, r.next)
  {
    if o.model.Some? || !HasPool(o, pools) {
      assert Ids(next, next) == multiset{};
    } else {
      var a := Acquire(pools, o.pool.value, next);
      AcquireConserves(pools, o.pool.value, next);
      var o' := o.(model := a.model);
      assert ModelOf(o') + Pooled(a.pools) == Pooled(a.pools) + ModelOf(o');
    }
  }

  /** The outcome of assigning a list: the number of clones made and of objects left without a model. */
  datatype ListAssign = ListAssign(objects: seq<VirtualObject>, pools: seq<seq<Handle>>, next: Handle, duplicates: nat, shortage: nat)

  /** Assigning every object of a list, in order. */
  function AssignedList(objs: seq<VirtualObject>, pools: seq<seq<Handle>>, next: Handle): (r: ListAssign)
    ensures |r.objects| == |objs| && |r.pools| == |pools|
  {
    if objs == [] then ListAssign([], pools, next, 0, 0)
    else
      var a := AssignedList(objs[..|objs| - 1], pools, next);
      var b := AssignObject(objs[|objs| - 1], a.pools, a.next);
      ListAssign(a.objects + [b.obj], b.pools, b.next,
                 a.duplicates + (if b.duplicated then 1 else 0), a.shortage + (if b.short then 1 else 0))
  }

  /** Assignment only ever gives models: positions, pools and models already held stay as they were. */
  lemma {:induction false} AssignedListEach(objs: seq<VirtualObject>, pools: seq<seq<Handle>>, next: Handle)
    ensures var r := AssignedList(objs, pools, next);
      forall i :: 0 <= i < |objs| ==> (r.objects[i] == objs[i].(model := r.objects[i].model) &&
        (objs[i].model.Some? ==> r.objects[i] == objs[i]))
  {
    if objs != [] {
      var front := objs[..|objs| - 1];
      AssignedListEach(front, pools, next);
      var a := AssignedList(front, pools, next);
      AssignObjectFacts(objs[|objs| - 1], a.pools, a.next);
    }
  }

  lemma {:induction false} AssignedListNext(objs: seq<VirtualObject>, pools: seq<seq<Handle>>, next: Handle)
    ensures AssignedList(objs, pools, next).next >= next
  {
    if objs != [] {
      var front := objs[..|objs| - 1];
      AssignedListNext(front, pools, next);
      var a := AssignedList(front, pools, next);
      AssignObjectFacts(objs[|objs| - 1], a.pools, a.next);
    }
  }

  /** Models lent to the objects are exactly those that left the pools, plus the fresh clones. */
  lemma {:induction false} AssignedListConserves(objs: seq<VirtualObject>, pools: seq<seq<Handle>>, next: Handle)
    ensures var r := AssignedList(objs, pools, next);
      ModelsOf(r.objects) + Pooled(r.pools) == ModelsOf(objs) + Pooled(pools) + Ids(next, r.next)
  {
    if objs == [] {
      IdsEmpty(next);
    } else {
      var front := objs[..|objs| - 1];
      AssignedListConserves(front, pools, next);
      var a := AssignedList(front, pools, next);
      var b := AssignObject(objs[|objs| - 1], a.pools, a.next);
      AssignedListNext(front, pools, next);
      AssignObjectFacts(objs[|objs| - 1], a.pools, a.next);
      AssignObjectConserves(objs[|objs| - 1], a.pools, a.next);
      ModelsOfAppend(a.objects, b.obj);
      IdsSplit(next, a.next, b.next);
      Chain(ModelsOf(a.objects), ModelOf(b.obj), ModelsOf(front), ModelOf(objs[|objs| - 1]),
            Pooled(pools), Pooled(a.pools), Pooled(b.pools), Ids(next, a.next), Ids(a.next, b.next));
    }
  }

  /** The number of objects of a list that hold no model. */
  function Unheld(objs: seq<VirtualObject>): nat
  {
    if objs == [] then 0 else Unheld(objs[..|objs| - 1]) + (if objs[|objs| - 1].model.None? then 1 else 0)
  }

  /** Every object of the list borrows from pool p (the objects of one kind share one pool). */
  predicate SharePool(objs: seq<VirtualObject>, p: PoolRef)
  {
    forall i :: 0 <= i < |objs| ==> objs[i].pool == Some(p)
  }

  /**
   * Assigning a list whose objects share pool p: when the pool holds at least
   * one model every object ends up holding one, nobody is short and the pool
   * still holds a model; when the pool is empty nothing changes and every
   * object without a model counts towards the shortage.
   */
  lemma {:induction false} AssignSharedPool(objs: seq<VirtualObject>, pools: seq<seq<Handle>>, next: Handle, p: PoolRef)
    requires p < |pools| && SharePool(objs, p)
    ensures var r := AssignedList(objs, pools, next);
      (|pools[p]| >= 1 ==> r.shortage == 0 && |r.pools[p]| >= 1 && forall i :: 0 <= i < |objs| ==> r.objects[i].model.Some?)
      && (|pools[p]| == 0 ==> r.shortage == Unheld(objs) && r.objects == objs && r.pools == pools && r.next == next)
  {
    if objs != [] {
      var front, o := objs[..|objs| - 1], objs[|objs| - 1];
      assert SharePool(front, p);
      AssignSharedPool(front, pools, next, p);
      var a := AssignedList(front, pools, next);
      AssignObjectFacts(o, a.pools, a.next);
      if o.model.None? {
        AcquireFacts(a.pools, p, a.next);
      }
      if |pools[p]| == 0 {
        assert a.objects + [o] == objs;
      }
    }
  }

  /** A model placement: the object at index `obj` in the list of `kind` is placed using `model`. */
  datatype Placed<K> = Placed(kind: K, obj: nat, model: Handle)

  /** Placing every object of a list that holds a model, in order. */
  function PlacedIn<K>(kind: K, objs: seq<VirtualObject>): seq<Placed<K>>
  {
    if objs == [] then []
    else
      var n := |objs| - 1;
      PlacedIn(kind, objs[..n]) + (if objs[n].model.Some? then [Placed(kind, n, objs[n].model.value)] else [])
  }

  /** Exactly the objects holding a model are placed, each with the model it holds. */
  lemma {:induction false} PlacedInExact<K>(kind: K, objs: seq<VirtualObject>)
    ensures forall q :: q in PlacedIn(kind, objs) <==>
      q.kind == kind && q.obj < |objs| && objs[q.obj].model == Some(q.model)
  {
    if objs != [] {
      var n := |objs| - 1;
      PlacedInExact(kind, objs[..n]);
      assert forall i :: 0 <= i < n ==> objs[..n][i] == objs[i];
    }
  }

  lemma PlacedInMember<K>(kind: K, objs: seq<VirtualObject>, q: Placed<K>)
    ensures q in PlacedIn(kind, objs) <==> q.kind == kind && q.obj < |objs| && objs[q.obj].model == Some(q.model)
  {
    PlacedInExact(kind, objs);
  }

  /** `n` copies of `k` (one log line "Duplicating model for k" each). */
  function Repeat<K>(k: K, n: nat): (r: seq<K>)
    ensures |r| == n && forall i :: 0 <= i < n ==> r[i] == k
  {
    if n == 0 then [] else Repeat(k, n - 1) + [k]
  }

  datatype WedgeAssign<K> = WedgeAssign(wedge: Wedge<K>, pools: seq<seq<Handle>>, next: Handle,
                                        duplicated: seq<K>, ranOut: seq<(K, nat)>, placed: seq<Placed<K>>)

  /**
   * The assign pass on one wedge: each non-empty kind list is assigned, and if
   * `placeNow` holds for the kind (its class is static and unchanged) its
   * objects that now hold a model are placed straight away.  Clones and
   * shortages are reported per kind.
   */
  function AssignedWedge<K>(w: Wedge<K>, pools: seq<seq<Handle>>, next: Handle, placeNow: K -> bool): (r: WedgeAssign<K>)
    ensures |r.wedge| == |w| && |r.pools| == |pools|
  {
    if w == [] then WedgeAssign([], pools, next, [], [], [])
    else
      var kl := w[|w| - 1];
      var a := AssignedWedge(w[..|w| - 1], pools, next, placeNow);
      if |kl.objects| == 0 then
        WedgeAssign(a.wedge + [kl], a.pools, a.next, a.duplicated, a.ranOut, a.placed)
      else
        var b := AssignedList(kl.objects, a.pools, a.next);
        WedgeAssign(a.wedge + [KindList(kl.kind, b.objects)], b.pools, b.next,
                    a.duplicated + Repeat(kl.kind, b.duplicates),
                    a.ranOut + (if b.shortage > 0 then [(kl.kind, b.shortage)] else []),
                    a.placed + (if placeNow(kl.kind) then PlacedIn(kl.kind, b.objects) else []))
  }

  /** The assign pass keeps every kind list's kind and length. */
  lemma {:induction false} AssignedWedgeKinds<K>(w: Wedge<K>, pools: seq<seq<Handle>>, next: Handle, placeNow: K -> bool)
    ensures var r := AssignedWedge(w, pools, next, placeNow);
      forall i :: 0 <= i < |w| ==> r.wedge[i].kind == w[i].kind && |r.wedge[i].objects| == |w[i].objects|
  {
    if w != [] {
      var n := |w| - 1;
      AssignedWedgeKinds(w[..n], pools, next, placeNow);
      var a := AssignedWedge(w[..n], pools, next, placeNow);
      var r := AssignedWedge(w, pools, next, placeNow);
      forall i | 0 <= i < n ensures r.wedge[i] == a.wedge[i] && w[..n][i] == w[i] {
      }
    }
  }

  /**
   * What the assign pass reports about a wedge: only kinds meant to be placed
   * now are placed, each with a model its object holds, and every shortage line
   * names a positive count.
   */
  lemma {:induction false} AssignedWedgeReports<K>(w: Wedge<K>, pools: seq<seq<Handle>>, next: Handle, placeNow: K -> bool)
    ensures var r := AssignedWedge(w, pools, next, placeNow);
      (forall q :: q in r.placed ==> placeNow(q.kind))
      && (forall s :: s in r.ranOut ==> s.1 > 0)
  {
    if w != [] {
      var kl := w[|w| - 1];
      AssignedWedgeReports(w[..|w| - 1], pools, next, placeNow);
      var a := AssignedWedge(w[..|w| - 1], pools, next, placeNow);
      var r := AssignedWedge(w, pools, next, placeNow);
      if |kl.objects| > 0 {
        var b := AssignedList(kl.objects, a.pools, a.next);
        PlacedInExact(kl.kind, b.objects);
        assert r.placed == a.placed + (if placeNow(kl.kind) then PlacedIn(kl.kind, b.objects) else []);
        forall q | q in r.placed ensures placeNow(q.kind) {
          if q in a.placed {
            assert placeNow(q.kind);
          } else {
            assert placeNow(kl.kind) && q in PlacedIn(kl.kind, b.objects);
            PlacedInMember(kl.kind, b.objects, q);
          }
        }
        forall s | s in r.ranOut ensures s.1 > 0 {
          if s !in a.ranOut {
            assert s == (kl.kind, b.shortage);
          }
        }
      }
    }
  }

  lemma {:induction false} AssignedWedgeNext<K>(w: Wedge<K>, pools: seq<seq<Handle>>, next: Handle, placeNow: K -> bool)
    ensures AssignedWedge(w, pools, next, placeNow).next >= next
  {
    if w != [] {
      var front, kl := w[..|w| - 1], w[|w| - 1];
      AssignedWedgeNext(front, pools, next, placeNow);
      var a := AssignedWedge(front, pools, next, placeNow);
      AssignedListNext(kl.objects, a.pools, a.next);
    }
  }

  lemma {:induction false} AssignedWedgeConserves<K>(w: Wedge<K>, pools: seq<seq<Handle>>, next: Handle, placeNow: K -> bool)
    ensures var r := AssignedWedge(w, pools, next, placeNow);
      WedgeModels(r.wedge) + Pooled(r.pools) == WedgeModels(w) + Pooled(pools) + Ids(next, r.next)
  {
    if w == [] {
      IdsEmpty(next);
    } else {
      var front, kl := w[..|w| - 1], w[|w| - 1];
      AssignedWedgeConserves(front, pools, next, placeNow);
      AssignedWedgeNext(front, pools, next, placeNow);
      var a := AssignedWedge(front, pools, next, placeNow);
      assert w == front + [kl];
      WedgeModelsAppend(front, kl);
      if |kl.objects| == 0 {
        WedgeModelsAppend(a.wedge, kl);
        IdsEmpty(a.next);
        IdsSplit(next, a.next, a.next);
        Chain(WedgeModels(a.wedge), ModelsOf(kl.objects), WedgeModels(front), ModelsOf(kl.objects),
              Pooled(pools), Pooled(a.pools), Pooled(a.pools), Ids(next, a.next), Ids(a.next, a.next));
      } else {
        var b := AssignedList(kl.objects, a.pools, a.next);
        AssignedListConserves(kl.objects, a.pools, a.next);
        AssignedListNext(kl.objects, a.pools, a.next);
        var kl' := KindList(kl.kind, b.objects);
        WedgeModelsAppend(a.wedge, kl');
        IdsSplit(next, a.next, b.next);
        Chain(WedgeModels(a.wedge), ModelsOf(b.objects), WedgeModels(front), ModelsOf(kl.objects),
              Pooled(pools), Pooled(a.pools), Pooled(b.pools), Ids(next, a.next), Ids(a.next, b.next));
      }
    }
  }

  /** Every object of the list borrows from a pool numbered below m, or from none. */
  predicate ListRefsBelow(objs: seq<VirtualObject>, m: nat)
  {
    forall i :: 0 <= i < |objs| ==> objs[i].pool.None? || objs[i].pool.value < m
  }

  /** Every object of the wedge borrows from a pool numbered below m, or from none. */
  predicate RefsBelow<K>(w: Wedge<K>, m: nat)
  {
    forall i :: 0 <= i < |w| ==> ListRefsBelow(w[i].objects, m)
  }

  /** Assigning a list leaves alone every pool none of its objects borrows from, and keeps the objects' pools. */
  lemma {:induction false} AssignedListAbove(objs: seq<VirtualObject>, pools: seq<seq<Handle>>, next: Handle, m: nat)
    requires ListRefsBelow(objs, m)
    ensures var r := AssignedList(objs, pools, next);
      ListRefsBelow(r.objects, m) && forall q :: m <= q < |pools| ==> r.pools[q] == pools[q]
  {
    AssignedListEach(objs, pools, next);
    if objs != [] {
      var front, o := objs[..|objs| - 1], objs[|objs| - 1];
      AssignedListAbove(front, pools, next, m);
      var a := AssignedList(front, pools, next);
      if o.model.None? && HasPool(o, a.pools) {
        AcquireFacts(a.pools, o.pool.value, a.next);
      }
    }
  }

  /** Assigning a wedge leaves alone every pool none of its objects borrows from, and keeps the objects' pools. */
  lemma {:induction false} AssignedWedgeAbove<K>(w: Wedge<K>, pools: seq<seq<Handle>>, next: Handle, placeNow: K -> bool, m: nat)
    requires RefsBelow(w, m)
    ensures var r := AssignedWedge(w, pools, next, placeNow);
      RefsBelow(r.wedge, m) && forall q :: m <= q < |pools| ==> r.pools[q] == pools[q]
  {
    if w != [] {
      var n := |w| - 1;
      var front, kl := w[..n], w[n];
      assert forall i :: 0 <= i < n ==> front[i] == w[i];
      AssignedWedgeAbove(front, pools, next, placeNow, m);
      var a := AssignedWedge(front, pools, next, placeNow);
      var r := AssignedWedge(w, pools, next, placeNow);
      if |kl.objects| > 0 {
        AssignedListAbove(kl.objects, a.pools, a.next, m);
      }
      assert forall i :: 0 <= i < n ==> r.wedge[i] == a.wedge[i];
    }
  }

  method AssignObjects(objs: seq<VirtualObject>, pools: seq<seq<Handle>>, next: Handle) returns (r: ListAssign)
    ensures r == AssignedList(objs, pools, next)
  {
    r := ListAssign([], pools, next, 0, 0);
    for i := 0 to |objs|
      invariant r == AssignedList(objs[..i], pools, next)
    {
      assert objs[..i + 1][..i] == objs[..i];
      var o := objs[i];
      var duplicated, short := false, false;
      var pools', next' := r.pools, r.next;
      if o.model.None? && HasPool(o, pools') {
        var p := o.pool.value;
        if |pools'[p]| == 1 {
          // the last model of a pool is cloned before it is lent
          pools' := Push(pools', p, next');
          next' := next' + 1;
          duplicated := true;
        }
        if |pools'[p]| > 0 {
          var pool := pools'[p];
          o := o.(model := Some(pool[|pool| - 1]));
          pools' := pools'[p := pool[..|pool| - 1]];
        } else {
          short := true;
        }
      }
      r := ListAssign(r.objects + [o], pools', next',
                      r.duplicates + (if duplicated then 1 else 0), r.shortage + (if short then 1 else 0));
    }
    assert objs[..|objs|] == objs;
  }

  /** The assign pass on one wedge. */
  method AssignWedge<K>(w: Wedge<K>, pools: seq<seq<Handle>>, next: Handle, placeNow: K -> bool) returns (r: WedgeAssign<K>)
    ensures r == AssignedWedge(w, pools, next, placeNow)
  {
    r := WedgeAssign([], pools, next, [], [], []);
    for i := 0 to |w|
      invariant r == AssignedWedge(w[..i], pools, next, placeNow)
    {
      assert w[..i + 1][..i] == w[..i];
      var kl := w[i];
      if |kl.objects| == 0 {
        r := r.(wedge := r.wedge + [kl]);
      } else {
        var b := AssignObjects(kl.objects, r.pools, r.next);
        var placed := r.placed;
        if placeNow(kl.kind) {
          placed := placed + PlacedIn(kl.kind, b.objects);
        }
        r := WedgeAssign(r.wedge + [KindList(kl.kind, b.objects)], b.pools, b.next,
                         r.duplicated + Repeat(kl.kind, b.duplicates),
                         r.ranOut + (if b.shortage > 0 then [(kl.kind, b.shortage)] else []),
                         placed);
      }
    }
    assert w[..|w|] == w;
  }

  // ---------------------------------------------------------------- update

  /** The update pass on one wedge: the kinds for which `placeNow` holds get every held model placed. */
  function PlacedWedge<K>(w: Wedge<K>, placeNow: K -> bool): seq<Placed<K>>
  {
    if w == [] then []
    else
      var kl := w[|w| - 1];
      PlacedWedge(w[..|w| - 1], placeNow) + (if |kl.objects| > 0 && placeNow(kl.kind) then PlacedIn(kl.kind, kl.objects) else [])
  }

  /** The update pass places only kinds for which `placeNow` holds, each object with the model it holds. */
  lemma {:induction false} PlacedWedgeSound<K>(w: Wedge<K>, placeNow: K -> bool)
    ensures forall q :: q in PlacedWedge(w, placeNow) ==> (placeNow(q.kind) &&
      exists i :: 0 <= i < |w| && w[i].kind == q.kind && q.obj < |w[i].objects| && w[i].objects[q.obj].model == Some(q.model))
  {
    if w != [] {
      var n := |w| - 1;
      PlacedWedgeSound(w[..n], placeNow);
      PlacedInExact(w[n].kind, w[n].objects);
      forall q | q in PlacedWedge(w, placeNow)
        ensures placeNow(q.kind) &&
          exists i :: 0 <= i < |w| && w[i].kind == q.kind && q.obj < |w[i].objects| && w[i].objects[q.obj].model == Some(q.model)
      {
        if q in PlacedWedge(w[..n], placeNow) {
          var i :| 0 <= i < n && w[..n][i].kind == q.kind && q.obj < |w[..n][i].objects| && w[..n][i].objects[q.obj].model == Some(q.model);
          assert w[..n][i] == w[i];
        } else {
          assert PlacedWedge(w, placeNow) == PlacedWedge(w[..n], placeNow) + (if |w[n].objects| > 0 && placeNow(w[n].kind) then PlacedIn(w[n].kind, w[n].objects) else []);
          assert |w[n].objects| > 0 && placeNow(w[n].kind);
          assert q in PlacedIn(w[n].kind, w[n].objects);
          PlacedInMember(w[n].kind, w[n].objects, q);
          assert 0 <= n < |w| && w[n].kind == q.kind && q.obj < |w[n].objects| && w[n].objects[q.obj].model == Some(q.model);
        }
      }
    }
  }

  /** The update pass places every held model of every kind for which `placeNow` holds. */
  lemma {:induction false} PlacedWedgeComplete<K>(w: Wedge<K>, placeNow: K -> bool)
    ensures forall i, j :: 0 <= i < |w| && placeNow(w[i].kind) && 0 <= j < |w[i].objects| && w[i].objects[j].model.Some? ==>
      Placed(w[i].kind, j, w[i].objects[j].model.value) in PlacedWedge(w, placeNow)
  {
    if w != [] {
      var n := |w| - 1;
      var front := PlacedWedge(w[..n], placeNow);
      var tail := if |w[n].objects| > 0 && placeNow(w[n].kind) then PlacedIn(w[n].kind, w[n].objects) else [];
      assert PlacedWedge(w, placeNow) == front + tail;
      PlacedWedgeComplete(w[..n], placeNow);
      PlacedInExact(w[n].kind, w[n].objects);
      forall i, j | 0 <= i < |w| && placeNow(w[i].kind) && 0 <= j < |w[i].objects| && w[i].objects[j].model.Some?
        ensures Placed(w[i].kind, j, w[i].objects[j].model.value) in front + tail
      {
        if i < n {
          assert w[..n][i] == w[i];
          assert Placed(w[i].kind, j, w[i].objects[j].model.value) in front;
        } else {
          assert Placed(w[i].kind, j, w[i].objects[j].model.value) in tail;
        }
      }
    }
  }

  method PlaceWedge<K>(w: Wedge<K>, placeNow: K -> bool) returns (placed: seq<Placed<K>>)
    ensures placed == PlacedWedge(w, placeNow)
  {
    placed := [];
    for i := 0 to |w|
      invariant placed == PlacedWedge(w[..i], placeNow)
    {
      assert w[..i + 1][..i] == w[..i];
      if |w[i].objects| > 0 && placeNow(w[i].kind) {
        var objs := w[i].objects;
        var more: seq<Placed<K>> := [];
        for j := 0 to |objs|
          invariant more == PlacedIn(w[i].kind, objs[..j])
        {
          assert objs[..j + 1][..j] == objs[..j];
          if objs[j].model.Some? {
            more := more + [Placed(w[i].kind, j, objs[j].model.value)];
          }
        }
        assert objs[..|objs|] == objs;
        placed := placed + more;
      }
    }
    assert w[..|w|] == w;
  }
}
