/*
 * Model pools: the arrays of renderable models that are not currently lent to a
 * virtual object.  A pool table stands for all such arrays at once; a virtual
 * object refers to "its" array by an index into the table, so two objects that
 * share an array share an index.
 */
module Pools {

  datatype Option<T> = None | Some(value: T)

  /** A renderable model.  Models are numbered in the order they are created. */
  type Handle = nat

  /** A reference to one pool array, as an index into the pool table. */
  type PoolRef = nat

  /** The run of `n` models numbered from `next`, in creation order. */
  function Fresh(next: Handle, n: nat): (r: seq<Handle>)
    ensures |r| == n
  {
    seq(n, i requires 0 <= i < n => next + i)
  }

  /** The models numbered lo .. hi-1, each once. */
  function Ids(lo: nat, hi: nat): multiset<Handle>
  {
    multiset(Fresh(lo, if lo <= hi then hi - lo else 0))
  }

  lemma IdsEmpty(lo: nat)
    ensures Ids(lo, lo) == multiset{}
  {
  }

  lemma IdsOne(lo: nat)
    ensures Ids(lo, lo + 1) == multiset{lo}
  {
    assert Fresh(lo, 1) == [lo];
  }

  lemma IdsSplit(lo: nat, mid: nat, hi: nat)
    requires lo <= mid <= hi
    ensures Ids(lo, mid) + Ids(mid, hi) == Ids(lo, hi)
  {
    assert Fresh(lo, mid - lo) + Fresh(mid, hi - mid) == Fresh(lo, hi - lo);
  }

  lemma {:induction false} IdsCount(lo: nat, hi: nat, h: Handle)
    ensures Ids(lo, hi)[h] == if lo <= h < hi then 1 else 0
    decreases hi
  {
    if hi <= lo {
      IdsEmpty(lo);
      assert Fresh(lo, if lo <= hi then hi - lo else 0) == [];
    } else {
      IdsCount(lo, hi - 1, h);
      IdsSplit(lo, hi - 1, hi);
      IdsOne(hi - 1);
    }
  }

  /**
   * Multiset bookkeeping of two exchanges in a row: if the first turned y0 and q
   * into x0 and p0 (creating c0) and the second turned y1 and p0 into x1 and p1
   * (creating c1), together they turned y0, y1 and q into x0, x1 and p1.
   */
  lemma Chain(x0: multiset<Handle>, x1: multiset<Handle>, y0: multiset<Handle>, y1: multiset<Handle>,
              q: multiset<Handle>, p0: multiset<Handle>, p1: multiset<Handle>, c0: multiset<Handle>, c1: multiset<Handle>)
    requires x0 + p0 == y0 + q + c0
    requires x1 + p1 == y1 + p0 + c1
    ensures (x0 + x1) + p1 == (y0 + y1) + q + (c0 + c1)
  {
    forall e ensures ((x0 + x1) + p1)[e] == ((y0 + y1) + q + (c0 + c1))[e] {
      assert (x0 + p0)[e] == (y0 + q + c0)[e];
      assert (x1 + p1)[e] == (y1 + p0 + c1)[e];
    }
  }

  /** Chain without creation. */
  lemma Chain0(x0: multiset<Handle>, x1: multiset<Handle>, y0: multiset<Handle>, y1: multiset<Handle>,
               q: multiset<Handle>, p0: multiset<Handle>, p1: multiset<Handle>)
    requires x0 + p0 == y0 + q
    requires x1 + p1 == y1 + p0
    ensures (x0 + x1) + p1 == (y0 + y1) + q
  {
    forall e ensures ((x0 + x1) + p1)[e] == ((y0 + y1) + q)[e] {
      assert (x0 + p0)[e] == (y0 + q)[e];
      assert (x1 + p1)[e] == (y1 + p0)[e];
    }
  }

  /** The union of a sequence of multisets. */
  function Sum(ms: seq<multiset<Handle>>): multiset<Handle>
  {
    if ms == [] then multiset{} else Sum(ms[..|ms| - 1]) + ms[|ms| - 1]
  }

  lemma {:induction false} SumUpdate(ms: seq<multiset<Handle>>, i: nat, m: multiset<Handle>)
    requires i < |ms|
    ensures Sum(ms[i := m]) + ms[i] == Sum(ms) + m
  {
    var n := |ms|;
    var front := ms[..n - 1];
    var u := ms[i := m];
    if i == n - 1 {
      assert u[..n - 1] == front;
    } else {
      assert u[..n - 1] == front[i := m];
      SumUpdate(front, i, m);
      forall e ensures (Sum(u) + ms[i])[e] == (Sum(ms) + m)[e] {
        assert (Sum(front[i := m]) + front[i])[e] == (Sum(front) + m)[e];
      }
    }
  }

  lemma SumAppend(ms: seq<multiset<Handle>>, m: multiset<Handle>)
    ensures Sum(ms + [m]) == Sum(ms) + m
  {
    assert (ms + [m])[..|ms|] == ms;
  }

  function PoolTotals(pools: seq<seq<Handle>>): (r: seq<multiset<Handle>>)
    ensures |r| == |pools| && forall k :: 0 <= k < |pools| ==> r[k] == multiset(pools[k])
  {
    seq(|pools|, k requires 0 <= k < |pools| => multiset(pools[k]))
  }

  /** Every model waiting in some pool of the table. */
  function Pooled(pools: seq<seq<Handle>>): multiset<Handle>
  {
    Sum(PoolTotals(pools))
  }

  lemma PooledAppend(pools: seq<seq<Handle>>, s: seq<Handle>)
    ensures Pooled(pools + [s]) == Pooled(pools) + multiset(s)
  {
    assert PoolTotals(pools + [s]) == PoolTotals(pools) + [multiset(s)];
    SumAppend(PoolTotals(pools), multiset(s));
  }

  lemma {:induction false} SumEmpty(ms: seq<multiset<Handle>>)
    requires forall i :: 0 <= i < |ms| ==> ms[i] == multiset{}
    ensures Sum(ms) == multiset{}
  {
    if ms != [] {
      SumEmpty(ms[..|ms| - 1]);
    }
  }

  lemma {:induction false} PooledEmpty(n: nat)
    ensures Pooled(seq(n, _ => [])) == multiset{}
  {
    SumEmpty(PoolTotals(seq(n, _ => [])));
  }

  /** Replacing one pool changes the pooled models by exactly that pool's difference. */
  lemma PooledUpdate(pools: seq<seq<Handle>>, p: nat, s: seq<Handle>)
    requires p < |pools|
    ensures Pooled(pools[p := s]) + multiset(pools[p]) == Pooled(pools) + multiset(s)
  {
    assert PoolTotals(pools[p := s]) == PoolTotals(pools)[p := multiset(s)];
    SumUpdate(PoolTotals(pools), p, multiset(s));
  }

  /** Filling pool p with n fresh clones adds exactly the models numbered next .. next+n-1. */
  lemma SeedConserves(pools: seq<seq<Handle>>, p: nat, next: Handle, n: nat)
    requires p < |pools|
    ensures Pooled(pools[p := pools[p] + Fresh(next, n)]) == Pooled(pools) + Ids(next, next + n)
  {
    PooledUpdate(pools, p, pools[p] + Fresh(next, n));
    Cancel(Pooled(pools[p := pools[p] + Fresh(next, n)]), Pooled(pools) + Ids(next, next + n), multiset(pools[p]));
  }

  /** If the models held elsewhere and the pooled ones are exactly those numbered below next, a fill keeps that so. */
  lemma SeedBalanced(held: multiset<Handle>, pools: seq<seq<Handle>>, p: nat, next: Handle, n: nat)
    requires p < |pools| && held + Pooled(pools) == Ids(0, next)
    ensures held + Pooled(pools[p := pools[p] + Fresh(next, n)]) == Ids(0, next + n)
  {
    SeedConserves(pools, p, next, n);
    IdsSplit(0, next, next + n);
    assert held + (Pooled(pools) + Ids(next, next + n)) == (held + Pooled(pools)) + Ids(next, next + n);
  }

  lemma Cancel<T>(a: multiset<T>, b: multiset<T>, x: multiset<T>)
    requires a + x == b + x
    ensures a == b
  {
    forall e ensures a[e] == b[e] {
      assert (a + x)[e] == (b + x)[e];
    }
  }

  /**
   * Bookkeeping of replacing a part x of a whole by y (a + x == b + y) while the
   * pools went from q to q' creating c (y + q' == x + q + c): the whole and the
   * pools together gained exactly c.
   */
  lemma Exchange(a: multiset<Handle>, b: multiset<Handle>, x: multiset<Handle>, y: multiset<Handle>,
                 q: multiset<Handle>, q': multiset<Handle>, c: multiset<Handle>)
    requires a + x == b + y
    requires y + q' == x + q + c
    ensures a + q' == b + q + c
  {
    forall e ensures (a + q')[e] == (b + q + c)[e] {
      assert (a + x)[e] == (b + y)[e];
      assert (y + q')[e] == (x + q + c)[e];
    }
  }

  /** `pool.push(h)` on the pool p of the table. */
  function Push(pools: seq<seq<Handle>>, p: PoolRef, h: Handle): (r: seq<seq<Handle>>)
    requires p < |pools|
    ensures |r| == |pools|
  {
    pools[p := pools[p] + [h]]
  }

  lemma PushPooled(pools: seq<seq<Handle>>, p: PoolRef, h: Handle)
    requires p < |pools|
    ensures Pooled(Push(pools, p, h)) == Pooled(pools) + multiset{h}
  {
    PooledUpdate(pools, p, pools[p] + [h]);
    assert multiset(pools[p] + [h]) == multiset(pools[p]) + multiset{h};
    Cancel(Pooled(pools[p := pools[p] + [h]]), Pooled(pools) + multiset{h}, multiset(pools[p]));
  }

  /**
   * The loader callbacks and the constructor's seeding loops: `n` clones of a
   * template model are created and pushed onto one pool, in order.
   */
  method SeedPool(pool: seq<Handle>, next: Handle, n: nat) returns (seeded: seq<Handle>, next': Handle)
    ensures seeded == pool + Fresh(next, n)
    ensures next' == next + n
  {
    seeded, next' := pool, next;
    for i := 0 to n
      invariant seeded == pool + Fresh(next, i)
      invariant next' == next + i
    {
      assert Fresh(next, i + 1) == Fresh(next, i) + [next + i];
      seeded := seeded + [next'];
      next' := next' + 1;
    }
  }

  /** The outcome of one attempt to lend a model from a pool to an object that holds none. */
  datatype Acquisition = Acquisition(pools: seq<seq<Handle>>, next: Handle, model: Option<Handle>, duplicated: bool)

  /**
   * Lending a model from pool p.  A pool holding exactly one model first gets a
   * fresh clone of it pushed (so the pool never drains); then, if the pool is
   * non-empty, its last element is popped and lent.  An empty pool lends nothing.
   */
  function Acquire(pools: seq<seq<Handle>>, p: PoolRef, next: Handle): (r: Acquisition)
    requires p < |pools|
    ensures |r.pools| == |pools|
  {
    var duplicated := |pools[p]| == 1;
    var grown := if duplicated then Push(pools, p, next) else pools;
    var next' := if duplicated then next + 1 else next;
    if |grown[p]| > 0 then
      var pool := grown[p];
      Acquisition(grown[p := pool[..|pool| - 1]], next', Some(pool[|pool| - 1]), duplicated)
    else
      Acquisition(grown, next', None, duplicated)
  }

  /** What lending does to the pool it lends from, and to no other pool. */
  lemma AcquireFacts(pools: seq<seq<Handle>>, p: PoolRef, next: Handle)
    requires p < |pools|
    ensures var r := Acquire(pools, p, next);
      (forall q :: 0 <= q < |pools| && q != p ==> r.pools[q] == pools[q])
      // an object is left without a model exactly when the pool was empty
      && (r.model.None? <==> |pools[p]| == 0)
      // a clone is made exactly when the pool held one model, and that clone is what is lent
      && (r.duplicated <==> |pools[p]| == 1)
      && r.next == (if r.duplicated then next + 1 else next)
      && (r.duplicated ==> r.model == Some(next) && r.pools[p] == pools[p])
      // a pool that held a model still holds one afterwards
      && (|pools[p]| >= 1 ==> |r.pools[p]| >= 1)
      && (|pools[p]| >= 2 ==> |r.pools[p]| == |pools[p]| - 1 && r.model == Some(pools[p][|pools[p]| - 1]))
  {
  }

  /** Popping the last model of a pool takes exactly that model out of the table. */
  lemma PopPooled(pools: seq<seq<Handle>>, p: PoolRef)
    requires p < |pools| && |pools[p]| > 0
    ensures var pool := pools[p];
      Pooled(pools[p := pool[..|pool| - 1]]) + multiset{pool[|pool| - 1]} == Pooled(pools)
  {
    var pool := pools[p];
    var rest, lent := pool[..|pool| - 1], pool[|pool| - 1];
    PooledUpdate(pools, p, rest);
    assert pool == rest + [lent];
    assert multiset(pool) == multiset(rest) + multiset{lent};
    Cancel(Pooled(pools[p := rest]) + multiset{lent}, Pooled(pools), multiset(rest));
  }

  /** Lending conserves models: what left the pools is what is lent, plus any fresh clone. */
  lemma AcquireConserves(pools: seq<seq<Handle>>, p: PoolRef, next: Handle)
    requires p < |pools|
    ensures var r := Acquire(pools, p, next);
      Pooled(r.pools) + (if r.model.Some? then multiset{r.model.value} else multiset{}) == Pooled(pools) + Ids(next, r.next)
  {
    if |pools[p]| == 1 {
      PushPooled(pools, p, next);
      PopPooled(Push(pools, p, next), p);
      IdsOne(next);
    } else if |pools[p]| > 1 {
      PopPooled(pools, p);
      IdsEmpty(next);
    } else {
      IdsEmpty(next);
    }
  }
}
