/*
 * The launcher's share of the model reallocation: one reference frame whose
 * single wedge holds every launch sled, launch vehicle and mass-driver part,
 * the two pools of sled and vehicle models, and an animate that keeps the
 * whole launcher in view.
 */
module Launchers {
  import opened Pools
  import opened Wedges
  import opened Windows
  import opened Frames

  /** The kind lists of a launcher wedge, one per virtual class. */
  datatype LaunchKind =
    | LaunchVehicles | LaunchSleds | MassDriverTubes | MassDriverRails
    | MassDriverBrackets | MassDriverScrews | EvacuatedTubes

  /** The order referenceFrame registers the kind lists in. */
  const LaunchKinds: seq<LaunchKind> :=
    [LaunchVehicles, LaunchSleds, MassDriverTubes, MassDriverRails, MassDriverBrackets, MassDriverScrews, EvacuatedTubes]

  /** The launcher's frames have a single wedge. */
  const NumWedges: nat := 1
  /** The constructor makes at most this many sled and vehicle pairs. */
  const MaxPairs: nat := 50
  /** Only this many screw segments get screw and bracket models. */
  const ScrewLimit: nat := 20
  /** The launch-time loop starts at t = -0.02 s. */
  const StartTime: real := -0.02

  /** The pools the constructor makes, in the order it makes them. */
  const VehiclePool: PoolRef := 0
  const SledPool: PoolRef := 1

  /** The classes whose hasChanged flag animate lowers: every one but the evacuated tube's. */
  const ClearedKinds: set<LaunchKind> :=
    {MassDriverTubes, MassDriverRails, MassDriverBrackets, MassDriverScrews, LaunchVehicles, LaunchSleds}

  /** Where the list of a kind sits in a launcher wedge. */
  function KindIndex(k: LaunchKind): (i: nat)
    ensures i < |LaunchKinds| && LaunchKinds[i] == k
  {
    match k
    case LaunchVehicles => 0
    case LaunchSleds => 1
    case MassDriverTubes => 2
    case MassDriverRails => 3
    case MassDriverBrackets => 4
    case MassDriverScrews => 5
    case EvacuatedTubes => 6
  }

  /** A wedge laid out as referenceFrame lays it out: the seven kind lists in order. */
  predicate LaunchShaped(w: Wedge<LaunchKind>)
  {
    |w| == |LaunchKinds| && forall i :: 0 <= i < |w| ==> w[i].kind == LaunchKinds[i]
  }

  // ---------------------------------------------------------------- the reference frame

  /**
   * new referenceFrame(W): nothing in view and nothing remembered (all four
   * wedge indices -1), and W wedges of seven empty kind lists.  The launcher's
   * frames have no phase and no camera range; both are left at 0.
   */
  function NewReferenceFrame(W: nat): Frame<LaunchKind>
  {
    Frame(0.0, 0.0, seq(W, _ => EmptyWedge(LaunchKinds)), Window(-1, -1), Window(-1, -1))
  }

  /** A new frame shows nothing, remembers nothing, and its W wedges hold no objects and so no models. */
  lemma NewReferenceFrameEmpty(W: nat)
    ensures var f := NewReferenceFrame(W);
      !Visible(f.window) && !Visible(f.prev) && |f.wedges| == W && FramesModels([f]) == multiset{}
      && forall j :: 0 <= j < W ==> LaunchShaped(f.wedges[j]) && forall i :: 0 <= i < |LaunchKinds| ==> f.wedges[j][i].objects == []
  {
    var f := NewReferenceFrame(W);
    EmptyWedgeModels(LaunchKinds);
    SumEmpty(WedgeTotals(f.wedges));
    SumEmpty(FrameTotals([f]));
  }

  // ---------------------------------------------------------------- populating the wedge

  /** The launch time t after i steps of the loop. */
  function PairTime(i: nat, tInc: real): real
  {
    if i == 0 then StartTime else PairTime(i - 1, tInc) + tInc
  }

  /** Each step of the loop adds the spacing to t. */
  lemma PairTimeNext(i: nat, tInc: real)
    ensures PairTime(i + 1, tInc) == PairTime(i, tInc) + tInc
  {
  }

  /**
   * How many sled and vehicle pairs the loop has made once it stops, counting
   * from step i: it goes on while t is below the trajectory's duration and
   * fewer than MaxPairs pairs exist.
   */
  function PairsFrom(i: nat, duration: real, tInc: real): (n: nat)
    requires i <= MaxPairs
    ensures i <= n <= MaxPairs
    ensures forall j :: i <= j < n ==> PairTime(j, tInc) < duration
    ensures n < MaxPairs ==> PairTime(n, tInc) >= duration
    decreases MaxPairs - i
  {
    if i < MaxPairs && PairTime(i, tInc) < duration then PairsFrom(i + 1, duration, tInc) else i
  }

  /**
   * How many sled and vehicle pairs the constructor makes: every pair starts
   * before the trajectory ends, and unless the MaxPairs cap stopped the loop,
   * the next launch time has reached the duration.
   */
  function PairCount(duration: real, tInc: real): (n: nat)
    ensures n <= MaxPairs
    ensures forall j :: 0 <= j < n ==> PairTime(j, tInc) < duration
    ensures n < MaxPairs ==> PairTime(n, tInc) >= duration
  {
    PairsFrom(0, duration, tInc)
  }

  /** The pair count is the only count with those properties. */
  lemma PairCountUnique(duration: real, tInc: real, m: nat)
    requires m <= MaxPairs && forall j :: 0 <= j < m ==> PairTime(j, tInc) < duration
    requires m < MaxPairs ==> PairTime(m, tInc) >= duration
    ensures m == PairCount(duration, tInc)
  {
    var n := PairCount(duration, tInc);
    if m < n {
      assert false;
    } else if n < m {
      assert false;
    }
  }

  /**
   * With the trajectory ending before the first launch time no pair is made;
   * with a spacing that is not positive, t never grows and the MaxPairs cap is
   * what ends the loop.
   */
  lemma PairCountEdges(duration: real, tInc: real)
    ensures duration <= StartTime ==> PairCount(duration, tInc) == 0
    ensures tInc <= 0.0 && StartTime < duration ==> PairCount(duration, tInc) == MaxPairs
  {
    var n := PairCount(duration, tInc);
    if tInc <= 0.0 && StartTime < duration && n < MaxPairs {
      PairTimeAtMost(n, tInc);
    }
  }

  /** With a spacing that is not positive, t never rises above its start. */
  lemma {:induction false} PairTimeAtMost(i: nat, tInc: real)
    requires tInc <= 0.0
    ensures PairTime(i, tInc) <= StartTime
  {
    if i > 0 {
      PairTimeAtMost(i - 1, tInc);
      PairTimeNext(i - 1, tInc);
    }
  }

  /** The i-th sled or vehicle: launched at time -t, borrowing from pool p, holding no model yet. */
  function Launched(n: nat, tInc: real, p: PoolRef): (r: seq<VirtualObject>)
    ensures |r| == n
  {
    seq(n, i requires 0 <= i < n => VirtualObject(-PairTime(i, tInc), 0, Some(p), None))
  }

  lemma LaunchedNext(n: nat, tInc: real, p: PoolRef, t: real)
    requires t == PairTime(n, tInc)
    ensures Launched(n + 1, tInc, p) == Launched(n, tInc, p) + [VirtualObject(-t, 0, Some(p), None)]
  {
  }

  /** The (i + 0.5) / n spread of n parts along the mass driver or tube. */
  function Spread(i: nat, n: nat): real
    requires i < n
  {
    (i as real + 0.5) / n as real
  }

  /** The first i tube segments of n, each owning the model numbered next + 2i. */
  function Tubes(i: nat, n: nat, next: Handle): (r: seq<VirtualObject>)
    requires i <= n
    ensures |r| == i
  {
    seq(i, j requires 0 <= j < i => VirtualObject(Spread(j, n), 0, None, Some(next + 2 * j)))
  }

  /** The first i rail segments of n, each owning the model made right after its tube's. */
  function Rails(i: nat, n: nat, next: Handle): (r: seq<VirtualObject>)
    requires i <= n
    ensures |r| == i
  {
    seq(i, j requires 0 <= j < i => VirtualObject(Spread(j, n), 0, None, Some(next + 2 * j + 1)))
  }

  /** The left (-1) and right (+1) screws of c sides at position d, owning consecutive models from next. */
  function Sides(d: real, c: nat, next: Handle): (r: seq<VirtualObject>)
    ensures |r| == c
  {
    seq(c, j requires 0 <= j < c => VirtualObject(d, 2 * j - 1, None, Some(next + j)))
  }

  /** The screw position of segment i of n, shifted back by half a bracket. */
  function ScrewAt(i: nat, n: nat, half: real): real
    requires i < n
  {
    Spread(i, n) - half
  }

  /** The screws of the first i segments: left then right, three models per segment from next. */
  function Screws(i: nat, n: nat, half: real, next: Handle): (r: seq<VirtualObject>)
    requires i <= n
    ensures |r| == 2 * i
  {
    seq(2 * i, j requires 0 <= j < 2 * i => VirtualObject(ScrewAt(j / 2, n, half), 2 * (j % 2) - 1, None, Some(next + 3 * (j / 2) + j % 2)))
  }

  /** The brackets of the first i segments, each owning the third model of its segment. */
  function Brackets(i: nat, n: nat, half: real, next: Handle): (r: seq<VirtualObject>)
    requires i <= n
    ensures |r| == i
  {
    seq(i, j requires 0 <= j < i => VirtualObject(ScrewAt(j, n, half), 0, None, Some(next + 3 * j + 2)))
  }

  /** The first i evacuated-tube segments of n, each owning the model numbered next + i. */
  function Evacuated(i: nat, n: nat, next: Handle): (r: seq<VirtualObject>)
    requires i <= n
    ensures |r| == i
  {
    seq(i, j requires 0 <= j < i => VirtualObject(Spread(j, n), 0, None, Some(next + j)))
  }

  function Min(a: nat, b: nat): nat
  {
    if a <= b then a else b
  }

  /** How many models the constructor makes for n pairs, t tube segments, s screw segments and e evacuated-tube segments. */
  function ModelTotal(n: nat, t: nat, s: nat, e: nat): nat
  {
    2 * n + 2 * t + 3 * Min(ScrewLimit, s) + e
  }

  /**
   * The wedge the constructor fills: n vehicles and n sleds borrowing from
   * their pools, then the tubes and rails, screws and brackets and evacuated
   * tubes, each owning its model.  The models are numbered in the order they
   * are made: the sled clones, the vehicle clones, then part by part.
   */
  function Populated(n: nat, tInc: real, tubes: nat, segments: nat, half: real, evacuated: nat): (w: Wedge<LaunchKind>)
    ensures LaunchShaped(w)
  {
    var m := Min(ScrewLimit, segments);
    var tubesFrom := 2 * n;
    var screwsFrom := tubesFrom + 2 * tubes;
    var evacuatedFrom := screwsFrom + 3 * m;
    Seven(Launched(n, tInc, VehiclePool), Launched(n, tInc, SledPool),
          Tubes(tubes, tubes, tubesFrom), Rails(tubes, tubes, tubesFrom),
          Brackets(m, segments, half, screwsFrom), Screws(m, segments, half, screwsFrom),
          Evacuated(evacuated, evacuated, evacuatedFrom))
  }

  /** A launcher wedge from its seven lists, in referenceFrame's order. */
  function Seven(v: seq<VirtualObject>, s: seq<VirtualObject>, t: seq<VirtualObject>, r: seq<VirtualObject>,
                 b: seq<VirtualObject>, c: seq<VirtualObject>, e: seq<VirtualObject>): (w: Wedge<LaunchKind>)
    ensures LaunchShaped(w)
  {
    [KindList(LaunchVehicles, v), KindList(LaunchSleds, s), KindList(MassDriverTubes, t), KindList(MassDriverRails, r),
     KindList(MassDriverBrackets, b), KindList(MassDriverScrews, c), KindList(EvacuatedTubes, e)]
  }

  /**
   * The sled and vehicle loop: while t is below the trajectory's duration and
   * fewer than MaxPairs pairs exist, a sled and a vehicle launched at -t join
   * their lists, each borrowing from its own pool; n is the number of pairs.
   */
  method AddPairs(duration: real, tInc: real) returns (vehicles: seq<VirtualObject>, sleds: seq<VirtualObject>, n: nat)
    ensures n == PairCount(duration, tInc)
    ensures sleds == Launched(n, tInc, SledPool) && vehicles == Launched(n, tInc, VehiclePool)
  {
    var t := StartTime;
    n, vehicles, sleds := 0, [], [];
    while t < duration && n < MaxPairs
      invariant n <= MaxPairs && t == PairTime(n, tInc)
      invariant PairsFrom(n, duration, tInc) == PairCount(duration, tInc)
      invariant sleds == Launched(n, tInc, SledPool) && vehicles == Launched(n, tInc, VehiclePool)
      decreases MaxPairs - n
    {
      LaunchedNext(n, tInc, SledPool, t);
      LaunchedNext(n, tInc, VehiclePool, t);
      sleds := sleds + [VirtualObject(-t, 0, Some(SledPool), None)];
      vehicles := vehicles + [VirtualObject(-t, 0, Some(VehiclePool), None)];
      PairTimeNext(n, tInc);
      t, n := t + tInc, n + 1;
    }
  }

  /** The tube loop: segment i gets a tube and then a rail, each with a model of its own. */
  method AddTubes(n: nat, next: Handle) returns (tubes: seq<VirtualObject>, rails: seq<VirtualObject>, next': Handle)
    ensures tubes == Tubes(n, n, next) && rails == Rails(n, n, next)
    ensures next' == next + 2 * n
    ensures ModelsOf(tubes) + ModelsOf(rails) == Ids(next, next')
  {
    tubes, rails, next' := [], [], next;
    IdsEmpty(next);
    for i := 0 to n
      invariant tubes == Tubes(i, n, next) && rails == Rails(i, n, next)
      invariant next' == next + 2 * i
      invariant ModelsOf(tubes) + ModelsOf(rails) == Ids(next, next')
    {
      var d := Spread(i, n);
      var tube, rail := VirtualObject(d, 0, None, Some(next')), VirtualObject(d, 0, None, Some(next' + 1));
      TubesNext(i, n, next, next');
      ModelsOfOwned(tubes, tube, next');
      ModelsOfOwned(rails, rail, next' + 1);
      IdsSplit(next, next', next' + 1);
      IdsOne(next');
      IdsSplit(next, next' + 1, next' + 2);
      IdsOne(next' + 1);
      Grow(ModelsOf(tubes + [tube]), ModelsOf(rails + [rail]), ModelsOf(tubes), ModelsOf(rails),
           multiset{next'}, multiset{next' + 1}, Ids(next, next'), Ids(next, next' + 1), Ids(next, next' + 2));
      tubes, rails := tubes + [tube], rails + [rail];
      next' := next' + 2;
    }
  }

  /** The inner screw loop: for lr = -1 and then lr = 1, a screw at d on that side with a clone of the segment's screw model. */
  method AddScrewPair(d: real, next: Handle) returns (screws: seq<VirtualObject>, next': Handle)
    ensures screws == Sides(d, 2, next) && next' == next + 2
    ensures ModelsOf(screws) == Ids(next, next')
  {
    screws, next' := [], next;
    IdsEmpty(next);
    for k := 0 to 2
      invariant screws == Sides(d, k, next) && next' == next + k
      invariant ModelsOf(screws) == Ids(next, next')
    {
      var lr := 2 * k - 1;
      var screw := VirtualObject(d, lr, None, Some(next'));
      SidesNext(d, k, next, lr, next');
      ModelsOfOwned(screws, screw, next');
      IdsSplit(next, next', next' + 1);
      IdsOne(next');
      screws := screws + [screw];
      next' := next' + 1;
    }
  }

  /**
   * The screw loop over the first min(20, n) segments: the segment's two
   * screws, left then right, then its bracket.
   */
  method AddScrews(n: nat, half: real, next: Handle) returns (screws: seq<VirtualObject>, brackets: seq<VirtualObject>, next': Handle)
    ensures screws == Screws(Min(ScrewLimit, n), n, half, next) && brackets == Brackets(Min(ScrewLimit, n), n, half, next)
    ensures next' == next + 3 * Min(ScrewLimit, n)
    ensures ModelsOf(screws) + ModelsOf(brackets) == Ids(next, next')
  {
    screws, brackets, next' := [], [], next;
    IdsEmpty(next);
    var count := Min(ScrewLimit, n);
    for i := 0 to count
      invariant ScrewsSoFar(i, n, half, next, screws, brackets, next')
    {
      screws, brackets, next' := AddScrewStep(i, n, half, next, screws, brackets, next');
    }
  }

  /** The screw loop after i segments: their screws and brackets, holding the 3i models from next. */
  predicate ScrewsSoFar(i: nat, n: nat, half: real, next: Handle, screws: seq<VirtualObject>, brackets: seq<VirtualObject>, h: Handle)
  {
    i <= n && screws == Screws(i, n, half, next) && brackets == Brackets(i, n, half, next)
    && h == next + 3 * i && ModelsOf(screws) + ModelsOf(brackets) == Ids(next, h)
  }

  /** One turn of the screw loop: two screws and a bracket at screw position i. */
  method AddScrewStep(i: nat, n: nat, half: real, next: Handle, screws: seq<VirtualObject>, brackets: seq<VirtualObject>, h: Handle)
    returns (screws': seq<VirtualObject>, brackets': seq<VirtualObject>, h': Handle)
    requires i < n && ScrewsSoFar(i, n, half, next, screws, brackets, h)
    ensures ScrewsSoFar(i + 1, n, half, next, screws', brackets', h')
  {
    var d := ScrewAt(i, n, half);
    var pair, next1 := AddScrewPair(d, h);
    var bracket := VirtualObject(d, 0, None, Some(next1));
    ScrewsNext(i, n, half, next, d, h);
    BracketsNext(i, n, half, next, next1);
    ModelsOfConcat(screws, pair);
    ModelsOfOwned(brackets, bracket, next1);
    IdsSplit(next, h, next1);
    IdsSplit(next, next1, next1 + 1);
    IdsOne(next1);
    Grow(ModelsOf(screws + pair), ModelsOf(brackets + [bracket]), ModelsOf(screws), ModelsOf(brackets),
         Ids(h, next1), multiset{next1}, Ids(next, h), Ids(next, next1), Ids(next, next1 + 1));
    screws', brackets', h' := screws + pair, brackets + [bracket], next1 + 1;
  }

  lemma ScrewsNext(i: nat, n: nat, half: real, next: Handle, d: real, h: Handle)
    requires i < n && d == ScrewAt(i, n, half) && h == next + 3 * i
    ensures Screws(i + 1, n, half, next) == Screws(i, n, half, next) + Sides(d, 2, h)
  {
    var a, b := Screws(i + 1, n, half, next), Screws(i, n, half, next) + Sides(ScrewAt(i, n, half), 2, next + 3 * i);
    forall j | 0 <= j < 2 * i + 2 ensures a[j] == b[j] {
      if j >= 2 * i {
        assert j / 2 == i && j % 2 == j - 2 * i;
      }
    }
  }

  /** The evacuated-tube loop: segment i gets a tube owning a model of its own. */
  method AddEvacuated(n: nat, next: Handle) returns (tubes: seq<VirtualObject>, next': Handle)
    ensures tubes == Evacuated(n, n, next) && next' == next + n
    ensures ModelsOf(tubes) == Ids(next, next')
  {
    tubes, next' := [], next;
    IdsEmpty(next);
    for i := 0 to n
      invariant tubes == Evacuated(i, n, next) && next' == next + i
      invariant ModelsOf(tubes) == Ids(next, next')
    {
      var tube := VirtualObject(Spread(i, n), 0, None, Some(next'));
      EvacuatedNext(i, n, next, next');
      ModelsOfOwned(tubes, tube, next');
      IdsSplit(next, next', next' + 1);
      IdsOne(next');
      tubes := tubes + [tube];
      next' := next' + 1;
    }
  }

  // ---------------------------------------------------------------- the models the parts own

  /** Objects that hold no model contribute none. */
  lemma {:induction false} UnheldModels(objs: seq<VirtualObject>)
    requires forall i :: 0 <= i < |objs| ==> objs[i].model.None?
    ensures ModelsOf(objs) == multiset{}
  {
    if objs != [] {
      UnheldModels(objs[..|objs| - 1]);
    }
  }

  /** The sleds and vehicles hold no model yet. */
  lemma LaunchedUnheld(n: nat, tInc: real, p: PoolRef)
    ensures ModelsOf(Launched(n, tInc, p)) == multiset{}
  {
    UnheldModels(Launched(n, tInc, p));
  }

  /** Appending an object that owns model h adds exactly h to a list's models. */
  lemma ModelsOfOwned(objs: seq<VirtualObject>, o: VirtualObject, h: Handle)
    requires o.model == Some(h)
    ensures ModelsOf(objs + [o]) == ModelsOf(objs) + multiset{h}
  {
    ModelsOfAppend(objs, o);
  }

  lemma TubesNext(i: nat, n: nat, next: Handle, h: Handle)
    requires i < n && h == next + 2 * i
    ensures Tubes(i + 1, n, next) == Tubes(i, n, next) + [VirtualObject(Spread(i, n), 0, None, Some(h))]
    ensures Rails(i + 1, n, next) == Rails(i, n, next) + [VirtualObject(Spread(i, n), 0, None, Some(h + 1))]
  {
  }

  lemma SidesNext(d: real, k: nat, next: Handle, lr: int, h: Handle)
    requires lr == 2 * k - 1 && h == next + k
    ensures Sides(d, k + 1, next) == Sides(d, k, next) + [VirtualObject(d, lr, None, Some(h))]
  {
  }

  lemma BracketsNext(i: nat, n: nat, half: real, next: Handle, h: Handle)
    requires i < n && h == next + 3 * i + 2
    ensures Brackets(i + 1, n, half, next) == Brackets(i, n, half, next) + [VirtualObject(ScrewAt(i, n, half), 0, None, Some(h))]
  {
  }

  lemma EvacuatedNext(i: nat, n: nat, next: Handle, h: Handle)
    requires i < n && h == next + i
    ensures Evacuated(i + 1, n, next) == Evacuated(i, n, next) + [VirtualObject(Spread(i, n), 0, None, Some(h))]
  {
  }

  /**
   * Two lists that together owned the run i1 of models, and gain dx and dy
   * where i1 + dx is the run i2 and i2 + dy the run i3, together own i3.
   */
  lemma Grow(x: multiset<Handle>, y: multiset<Handle>, x': multiset<Handle>, y': multiset<Handle>,
             dx: multiset<Handle>, dy: multiset<Handle>, i1: multiset<Handle>, i2: multiset<Handle>, i3: multiset<Handle>)
    requires x == x' + dx && y == y' + dy && x' + y' == i1
    requires i1 + dx == i2 && i2 + dy == i3
    ensures x + y == i3
  {
    forall e ensures (x + y)[e] == i3[e] {
      assert (x' + y')[e] == i1[e];
      assert (i1 + dx)[e] == i2[e];
      assert (i2 + dy)[e] == i3[e];
    }
  }

  /** The models of a seven-list wedge, list by list. */
  lemma SevenModels(w: Wedge<LaunchKind>)
    requires |w| == 7
    ensures WedgeModels(w) == ModelsOf(w[0].objects) + ModelsOf(w[1].objects) + ModelsOf(w[2].objects)
      + ModelsOf(w[3].objects) + ModelsOf(w[4].objects) + ModelsOf(w[5].objects) + ModelsOf(w[6].objects)
  {
    assert w[..7] == w;
    PrefixModels(w, 7);
    PrefixModels(w, 6);
    PrefixModels(w, 5);
    PrefixModels(w, 4);
    PrefixModels(w, 3);
    PrefixModels(w, 2);
    PrefixModels(w, 1);
  }

  lemma PrefixModels(w: Wedge<LaunchKind>, k: nat)
    requires 0 < k <= |w|
    ensures WedgeModels(w[..k]) == WedgeModels(w[..k - 1]) + ModelsOf(w[k - 1].objects)
  {
    assert w[..k][..k - 1] == w[..k - 1];
  }

  /**
   * The constructor's wedge: sleds and vehicles hold nothing, tubes and rails
   * own the run i1, brackets and screws the run i2 after it, the evacuated
   * tubes the run i3 after that; together the wedge owns the whole run.
   */
  lemma SevenRuns(v: multiset<Handle>, s: multiset<Handle>, t: multiset<Handle>, r: multiset<Handle>,
                  b: multiset<Handle>, c: multiset<Handle>, e: multiset<Handle>,
                  i1: multiset<Handle>, i2: multiset<Handle>, i3: multiset<Handle>, j1: multiset<Handle>, j2: multiset<Handle>)
    requires v == multiset{} && s == multiset{} && t + r == i1 && c + b == i2 && e == i3
    requires i1 + i2 == j1 && j1 + i3 == j2
    ensures v + s + t + r + b + c + e == j2
  {
    forall h ensures (v + s + t + r + b + c + e)[h] == j2[h] {
      assert (t + r)[h] == i1[h];
      assert (c + b)[h] == i2[h];
      assert (i1 + i2)[h] == j1[h];
      assert (j1 + i3)[h] == j2[h];
    }
  }

  /**
   * The wedge owns the run from 2n, the vehicle pool the run from n and the
   * sled pool the run from 0: everything below the total is accounted for.
   */
  lemma ThreeRuns(w: multiset<Handle>, v: multiset<Handle>, s: multiset<Handle>,
                  i1: multiset<Handle>, i2: multiset<Handle>, i3: multiset<Handle>, j1: multiset<Handle>, j2: multiset<Handle>)
    requires s == i1 && v == i2 && w == i3 && i1 + i2 == j1 && j1 + i3 == j2
    ensures w + (v + s) == j2
  {
    forall h ensures (w + (v + s))[h] == j2[h] {
      assert (i1 + i2)[h] == j1[h];
      assert (j1 + i3)[h] == j2[h];
    }
  }

  // ---------------------------------------------------------------- the invariant

  /** Every frame remembers a well-formed window. */
  predicate PrevFit(frames: seq<Frame<LaunchKind>>)
  {
    forall k :: 0 <= k < |frames| ==> WellFormed(frames[k].prev, NumWedges)
  }

  /**
   * The launcher's invariant: its one frame remembers a well-formed window and
   * has NumWedges wedges, the objects borrow only from the two pools the
   * constructor made, and every model made so far is held by exactly one
   * object or waits in exactly one pool.
   */
  predicate LauncherOK(frames: seq<Frame<LaunchKind>>, pools: seq<seq<Handle>>, next: Handle)
  {
    |frames| == 1 && |frames[0].wedges| == NumWedges && PrevFit(frames) && 2 <= |pools|
    && FramesRefsBelow(frames, 2) && FramesModels(frames) + Pooled(pools) == Ids(0, next)
  }

  lemma OneWedgeModels(f: Frame<LaunchKind>, w: Wedge<LaunchKind>)
    requires f.wedges == [w]
    ensures FramesModels([f]) == WedgeModels(w)
  {
    SumOne(WedgeModels(w));
    assert WedgeTotals(f.wedges) == [WedgeModels(w)];
    SumOne(WedgesModels(f.wedges));
    assert FrameTotals([f]) == [WedgesModels(f.wedges)];
  }

  lemma SumOne(m: multiset<Handle>)
    ensures Sum([m]) == m
  {
    SumAppend([], m);
    assert [] + [m] == [m];
  }

  lemma NoPrefix(s: seq<Handle>)
    ensures [] + s == s
  {
  }

  lemma TwoPoolsPooled(a: seq<Handle>, b: seq<Handle>)
    ensures Pooled([a, b]) == multiset(a) + multiset(b)
  {
    PooledAppend([], a);
    assert [] + [a] == [a];
    PooledAppend([a], b);
    assert [a] + [b] == [a, b];
  }

  /** The constructor's objects borrow from the two pools or from none. */
  lemma PopulatedRefs(n: nat, tInc: real, tubes: nat, segments: nat, half: real, evacuated: nat)
    ensures RefsBelow(Populated(n, tInc, tubes, segments, half, evacuated), 2)
  {
  }

  /**
   * A wedge whose sleds and vehicles hold nothing and whose tubes and rails,
   * brackets and screws and evacuated tubes own three consecutive runs of
   * models owns the whole run.
   */
  lemma WedgeRuns(v: seq<VirtualObject>, s: seq<VirtualObject>, t: seq<VirtualObject>, r: seq<VirtualObject>,
                  b: seq<VirtualObject>, c: seq<VirtualObject>, e: seq<VirtualObject>, lo: nat, m1: nat, m2: nat, hi: nat)
    requires lo <= m1 <= m2 <= hi
    requires ModelsOf(v) == multiset{} && ModelsOf(s) == multiset{}
    requires ModelsOf(t) + ModelsOf(r) == Ids(lo, m1)
    requires ModelsOf(c) + ModelsOf(b) == Ids(m1, m2)
    requires ModelsOf(e) == Ids(m2, hi)
    ensures WedgeModels(Seven(v, s, t, r, b, c, e)) == Ids(lo, hi)
  {
    var w := Seven(v, s, t, r, b, c, e);
    SevenModels(w);
    IdsSplit(lo, m1, m2);
    IdsSplit(lo, m2, hi);
    SevenRuns(ModelsOf(w[0].objects), ModelsOf(w[1].objects), ModelsOf(w[2].objects), ModelsOf(w[3].objects),
              ModelsOf(w[4].objects), ModelsOf(w[5].objects), ModelsOf(w[6].objects),
              Ids(lo, m1), Ids(m1, m2), Ids(m2, hi), Ids(lo, m2), Ids(lo, hi));
  }

  /**
   * One frame whose one wedge owns the models from 2n, beside a vehicle pool
   * of the models from n and a sled pool of those from 0, accounts for every
   * model below hi.
   */
  lemma BuiltAccounts(frames: seq<Frame<LaunchKind>>, pools: seq<seq<Handle>>, w: Wedge<LaunchKind>, n: nat, hi: nat)
    requires |frames| == 1 && frames[0].wedges == [w] && pools == [Fresh(n, n), Fresh(0, n)]
    requires 2 * n <= hi && WedgeModels(w) == Ids(2 * n, hi)
    ensures FramesModels(frames) + Pooled(pools) == Ids(0, hi)
  {
    assert frames == [frames[0]];
    OneWedgeModels(frames[0], w);
    TwoPoolsPooled(Fresh(n, n), Fresh(0, n));
    IdsSplit(0, n, 2 * n);
    IdsSplit(0, 2 * n, hi);
    ThreeRuns(WedgeModels(w), multiset(Fresh(n, n)), multiset(Fresh(0, n)),
              Ids(0, n), Ids(n, 2 * n), Ids(2 * n, hi), Ids(0, 2 * n), Ids(0, hi));
  }

  lemma PopulatedFrom(v: seq<VirtualObject>, s: seq<VirtualObject>, t: seq<VirtualObject>, r: seq<VirtualObject>,
                      b: seq<VirtualObject>, c: seq<VirtualObject>, e: seq<VirtualObject>,
                      n: nat, tInc: real, tubes: nat, segments: nat, half: real, evacuated: nat, o1: nat, o2: nat, o3: nat)
    requires o1 == 2 * n && o2 == o1 + 2 * tubes && o3 == o2 + 3 * Min(ScrewLimit, segments)
    requires v == Launched(n, tInc, VehiclePool) && s == Launched(n, tInc, SledPool)
    requires t == Tubes(tubes, tubes, o1) && r == Rails(tubes, tubes, o1)
    requires b == Brackets(Min(ScrewLimit, segments), segments, half, o2)
    requires c == Screws(Min(ScrewLimit, segments), segments, half, o2)
    requires e == Evacuated(evacuated, evacuated, o3)
    ensures Seven(v, s, t, r, b, c, e) == Populated(n, tInc, tubes, segments, half, evacuated)
  {
  }

  /**
   * The tube, screw and evacuated-tube loops, run after the pools were
   * seeded: the constructor's wedge, whose parts own every model made from
   * 2n on.
   */
  method FillWedge(vehicles: seq<VirtualObject>, sleds: seq<VirtualObject>, n: nat, tInc: real,
                   tubes: nat, segments: nat, half: real, evacuated: nat)
    returns (w: Wedge<LaunchKind>, next: Handle)
    requires vehicles == Launched(n, tInc, VehiclePool) && sleds == Launched(n, tInc, SledPool)
    ensures w == Populated(n, tInc, tubes, segments, half, evacuated)
    ensures next == ModelTotal(n, tubes, segments, evacuated) && WedgeModels(w) == Ids(2 * n, next)
  {
    var tubeList, railList, screwList, bracketList, evacuatedList;
    var tubesFrom := 2 * n;
    tubeList, railList, next := AddTubes(tubes, tubesFrom);
    var screwsFrom := next;
    screwList, bracketList, next := AddScrews(segments, half, next);
    var evacuatedFrom := next;
    evacuatedList, next := AddEvacuated(evacuated, next);
    w := Seven(vehicles, sleds, tubeList, railList, bracketList, screwList, evacuatedList);
    LaunchedUnheld(n, tInc, VehiclePool);
    LaunchedUnheld(n, tInc, SledPool);
    WedgeRuns(vehicles, sleds, tubeList, railList, bracketList, screwList, evacuatedList, tubesFrom, screwsFrom, evacuatedFrom, next);
    PopulatedFrom(vehicles, sleds, tubeList, railList, bracketList, screwList, evacuatedList,
                  n, tInc, tubes, segments, half, evacuated, tubesFrom, screwsFrom, evacuatedFrom);
  }

  /**
   * What the constructor builds, on values: one new frame; the sled and
   * vehicle loop; the sled pool and then the vehicle pool get one clone per
   * pair; then the tube, screw and evacuated-tube loops fill the frame's one
   * wedge.
   */
  method Built(duration: real, tInc: real, tubes: nat, segments: nat, half: real, evacuated: nat)
    returns (frames: seq<Frame<LaunchKind>>, pools: seq<seq<Handle>>, next: Handle, n: nat)
    ensures n == PairCount(duration, tInc)
    ensures frames == [NewReferenceFrame(NumWedges).(wedges := [Populated(n, tInc, tubes, segments, half, evacuated)])]
    ensures pools == [Fresh(n, n), Fresh(0, n)] && next == ModelTotal(n, tubes, segments, evacuated)
    ensures LauncherOK(frames, pools, next)
  {
    var f := NewReferenceFrame(NumWedges);
    var vehicles, sleds;
    vehicles, sleds, n := AddPairs(duration, tInc);
    var sledModels, vehicleModels;
    sledModels, next := SeedPool([], 0, n);
    vehicleModels, next := SeedPool([], next, n);
    var w, total := FillWedge(vehicles, sleds, n, tInc, tubes, segments, half, evacuated);
    assert next == 2 * n;
    next := total;
    pools := [vehicleModels, sledModels];
    frames := [f.(wedges := [w])];
    NoPrefix(Fresh(0, n));
    NoPrefix(Fresh(n, n));
    BuiltAccounts(frames, pools, w, n, next);
    PopulatedRefs(n, tInc, tubes, segments, half, evacuated);
  }
}
