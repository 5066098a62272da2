/*
 * The circular wedge window of a reference frame and the scratch flag array
 * that classifies wedges each tick.  A window runs from a start wedge to a
 * finish wedge inclusive, going up and wrapping from numWedges - 1 back to 0;
 * a start of -1 means no wedge is in view.  Bit 0 of a wedge's flag marks it
 * as in the current window, bit 1 as in the previous one.
 */
module Windows {

  /** The wedge after i, wrapping at W: the source's `(i + 1) % numWedges`. */
  function Next(i: nat, W: nat): (r: nat)
    requires i < W
    ensures r < W
  {
    if i + 1 == W then 0 else i + 1
  }

  lemma NextIsMod(i: nat, W: nat)
    requires i < W
    ensures Next(i, W) == (i + 1) % W
  {
  }

  /** How many steps of Next lead from i to f. */
  function Dist(i: nat, f: nat, W: nat): nat
    requires i < W && f < W
  {
    if i <= f then f - i else f + W - i
  }

  /** Whether wedge j lies in the circular window from i to f inclusive. */
  predicate InWindow(j: int, i: int, f: int)
  {
    if i <= f then i <= j <= f else i <= j || j <= f
  }

  /** The wedges the source's `for (w = start; ; w = (w + 1) % W) { ...; if (w == finish) break }` visits, in order. */
  function Walk(i: nat, f: nat, W: nat): (r: seq<nat>)
    requires i < W && f < W
    ensures |r| > 0 && r[0] == i
    decreases Dist(i, f, W)
  {
    if i == f then [i] else [i] + Walk(Next(i, W), f, W)
  }

  /** The walk visits exactly the wedges of the window. */
  lemma {:induction false} WalkMembers(i: nat, f: nat, W: nat)
    requires i < W && f < W
    ensures forall j :: j in Walk(i, f, W) <==> 0 <= j < W && InWindow(j, i, f)
    decreases Dist(i, f, W)
  {
    if i != f {
      WalkMembers(Next(i, W), f, W);
    }
  }

  /** The walk visits every wedge of the window once, Dist + 1 wedges in all. */
  lemma {:induction false} WalkDistinct(i: nat, f: nat, W: nat)
    requires i < W && f < W
    ensures |Walk(i, f, W)| == Dist(i, f, W) + 1
    ensures forall a, b :: 0 <= a < b < |Walk(i, f, W)| ==> Walk(i, f, W)[a] != Walk(i, f, W)[b]
    decreases Dist(i, f, W)
  {
    if i != f {
      var n := Next(i, W);
      WalkDistinct(n, f, W);
      WalkMembers(n, f, W);
      var r := Walk(i, f, W);
      forall a, b | 0 <= a < b < |r| ensures r[a] != r[b] {
        if a == 0 {
          // i itself is not in the window from Next(i) to f
          assert r[b] in Walk(n, f, W);
        } else {
          assert r[a] == Walk(n, f, W)[a - 1] && r[b] == Walk(n, f, W)[b - 1];
        }
      }
    }
  }

  /** A window of a frame as the source stores it: a start of -1 stands for "nothing in view". */
  datatype Window = Window(start: int, finish: int)

  predicate Visible(w: Window)
  {
    w.start != -1
  }

  /** A window either shows nothing or names two wedges of 0 .. W-1. */
  predicate WellFormed(w: Window, W: nat)
  {
    w.start == -1 || (0 <= w.start < W && 0 <= w.finish < W)
  }

  /** Wedge j is in the window (and the window shows something). */
  predicate Covers(w: Window, j: int)
  {
    w.start != -1 && w.start >= 0 && w.finish >= 0 && InWindow(j, w.start, w.finish)
  }

  /** The wedges a well-formed window walks over. */
  function Wedges(w: Window, W: nat): (r: seq<nat>)
    requires WellFormed(w, W)
  {
    if w.start == -1 then [] else Walk(w.start, w.finish, W)
  }

  lemma WedgesMembers(w: Window, W: nat)
    requires WellFormed(w, W)
    ensures forall j :: j in Wedges(w, W) <==> 0 <= j < W && Covers(w, j)
  {
    if w.start != -1 {
      WalkMembers(w.start, w.finish, W);
    }
  }

  // ---------------------------------------------------------------- flags

  /** The flag of wedge j once both windows are marked: bit 0 for the current window, bit 1 for the previous one. */
  function FlagOf(j: int, cur: Window, prev: Window): bv8
  {
    (if Covers(cur, j) then 1 else 0) | (if Covers(prev, j) then 2 else 0)
  }

  /** The three tests the passes apply to a flag. */
  datatype Test = ForUpdate | ForAssign | ForRemove

  /**
   * The update test is written `actionFlags[w] & 1 == 1`, which parses as
   * `actionFlags[w] & (1 == 1)`, that is `actionFlags[w] & 1`, taken as a truth
   * value.  The assign test is `== 1`, the remove test `== 2`.
   */
  predicate Passes(t: Test, flag: bv8)
  {
    match t
    case ForUpdate => flag & 1 != 0
    case ForAssign => flag == 1
    case ForRemove => flag == 2
  }

  /** The wedges of a walk whose flag passes a test, in walk order. */
  function Select(walk: seq<nat>, flags: seq<bv8>, t: Test): (r: seq<nat>)
    ensures |r| <= |walk|
  {
    if walk == [] then []
    else
      var rest := Select(walk[..|walk| - 1], flags, t);
      var j := walk[|walk| - 1];
      if j < |flags| && Passes(t, flags[j]) then rest + [j] else rest
  }

  lemma SelectSnoc(walk: seq<nat>, j: nat, flags: seq<bv8>, t: Test)
    ensures Select(walk + [j], flags, t) == Select(walk, flags, t) + (if j < |flags| && Passes(t, flags[j]) then [j] else [])
  {
    assert (walk + [j])[..|walk|] == walk;
  }

  lemma {:induction false} SelectMembers(walk: seq<nat>, flags: seq<bv8>, t: Test)
    ensures forall j :: j in Select(walk, flags, t) <==> j in walk && j < |flags| && Passes(t, flags[j])
  {
    if walk != [] {
      var front := walk[..|walk| - 1];
      SelectMembers(front, flags, t);
      assert walk == front + [walk[|walk| - 1]];
    }
  }

  /** The flag table of all W wedges after marking. */
  function Flags(cur: Window, prev: Window, W: nat): (r: seq<bv8>)
    ensures |r| == W
  {
    seq(W, j requires 0 <= j < W => FlagOf(j, cur, prev))
  }

  /** The update list of a frame: the current window's wedges whose bit 0 is set. */
  function UpdateList(cur: Window, prev: Window, W: nat): seq<nat>
    requires WellFormed(cur, W)
  {
    Select(Wedges(cur, W), Flags(cur, prev, W), ForUpdate)
  }

  /** The assign list: the current window's wedges whose flag is exactly 1. */
  function AssignList(cur: Window, prev: Window, W: nat): seq<nat>
    requires WellFormed(cur, W)
  {
    Select(Wedges(cur, W), Flags(cur, prev, W), ForAssign)
  }

  /** The remove list: the previous window's wedges whose flag is exactly 2. */
  function RemoveList(cur: Window, prev: Window, W: nat): seq<nat>
    requires WellFormed(prev, W)
  {
    Select(Wedges(prev, W), Flags(cur, prev, W), ForRemove)
  }

  /** What each test says about the two windows. */
  lemma FlagTests(j: int, cur: Window, prev: Window)
    ensures Passes(ForUpdate, FlagOf(j, cur, prev)) <==> Covers(cur, j)
    ensures Passes(ForAssign, FlagOf(j, cur, prev)) <==> Covers(cur, j) && !Covers(prev, j)
    ensures Passes(ForRemove, FlagOf(j, cur, prev)) <==> Covers(prev, j) && !Covers(cur, j)
  {
  }

  /**
   * The classification is exact: a wedge is updated exactly when it is in the
   * current window, assigned exactly when it has just come into view, and
   * removed exactly when it has just gone out of view.
   */
  lemma Classification(cur: Window, prev: Window, W: nat)
    requires WellFormed(cur, W) && WellFormed(prev, W)
    ensures forall j :: j in UpdateList(cur, prev, W) <==> 0 <= j < W && Covers(cur, j)
    ensures forall j :: j in AssignList(cur, prev, W) <==> 0 <= j < W && Covers(cur, j) && !Covers(prev, j)
    ensures forall j :: j in RemoveList(cur, prev, W) <==> 0 <= j < W && Covers(prev, j) && !Covers(cur, j)
  {
    var fl := Flags(cur, prev, W);
    WedgesMembers(cur, W);
    WedgesMembers(prev, W);
    SelectMembers(Wedges(cur, W), fl, ForUpdate);
    SelectMembers(Wedges(cur, W), fl, ForAssign);
    SelectMembers(Wedges(prev, W), fl, ForRemove);
    forall j | 0 <= j < W ensures fl[j] == FlagOf(j, cur, prev) {
      FlagTests(j, cur, prev);
    }
    forall j | 0 <= j < W {
      FlagTests(j, cur, prev);
    }
  }

  /** Every assigned wedge is also updated; no removed wedge is updated. */
  lemma ListsRelate(cur: Window, prev: Window, W: nat)
    requires WellFormed(cur, W) && WellFormed(prev, W)
    ensures forall j :: j in AssignList(cur, prev, W) ==> j in UpdateList(cur, prev, W)
    ensures forall j :: j in RemoveList(cur, prev, W) ==> j !in UpdateList(cur, prev, W)
  {
    Classification(cur, prev, W);
  }

  /** With no previous window (the history was cleared) every wedge in view is assigned. */
  lemma ClearedHistoryAssignsAll(cur: Window, prev: Window, W: nat)
    requires WellFormed(cur, W) && prev.start == -1
    ensures AssignList(cur, prev, W) == UpdateList(cur, prev, W) == Wedges(cur, W)
    ensures RemoveList(cur, prev, W) == []
  {
    var fl := Flags(cur, prev, W);
    WedgesMembers(cur, W);
    forall j | j in Wedges(cur, W) ensures j < W && Passes(ForUpdate, fl[j]) && Passes(ForAssign, fl[j]) {
      FlagTests(j, cur, prev);
    }
    SelectAll(Wedges(cur, W), fl, ForUpdate, cur, prev);
    SelectAll(Wedges(cur, W), fl, ForAssign, cur, prev);
  }

  /** A selection that every wedge of the walk passes keeps the whole walk. */
  lemma {:induction false} SelectAll(walk: seq<nat>, fl: seq<bv8>, t: Test, cur: Window, prev: Window)
    requires forall j :: j in walk ==> j < |fl| && Passes(t, fl[j])
    ensures Select(walk, fl, t) == walk
  {
    if walk != [] {
      var front := walk[..|walk| - 1];
      assert forall j :: j in front ==> j in walk;
      SelectAll(front, fl, t, cur, prev);
      assert walk == front + [walk[|walk| - 1]];
    }
  }

  // ---------------------------------------------------------------- methods

  /**
   * One marking loop: ORs `bit` into the flag of every wedge from i to f and
   * records the wedges visited (the source's clearFlagsList pushes).
   */
  method MarkRange(flags: array<bv8>, i: nat, f: nat, bit: bv8) returns (marked: seq<nat>)
    requires i < flags.Length && f < flags.Length
    modifies flags
    ensures marked == Walk(i, f, flags.Length)
    ensures forall j :: 0 <= j < flags.Length ==>
      flags[j] == if InWindow(j, i, f) then old(flags[j]) | bit else old(flags[j])
  {
    var W: nat := flags.Length;
    var k: nat := i;
    marked := [];
    while true
      invariant k < W
      invariant marked + Walk(k, f, W) == Walk(i, f, W)
      invariant forall j :: 0 <= j < W ==> flags[j] == if j in marked then old(flags[j]) | bit else old(flags[j])
      decreases Dist(k, f, W)
    {
      flags[k] := flags[k] | bit;
      marked := marked + [k];
      if k == f {
        break;
      }
      k := Next(k, W);
    }
    WalkMembers(i, f, W);
  }

  /** The loop that walks the current window and fills the update and assign lists. */
  method CollectCurrent(flags: array<bv8>, i: nat, f: nat) returns (update: seq<nat>, assign: seq<nat>)
    requires i < flags.Length && f < flags.Length
    ensures update == Select(Walk(i, f, flags.Length), flags[..], ForUpdate)
    ensures assign == Select(Walk(i, f, flags.Length), flags[..], ForAssign)
  {
    var W: nat := flags.Length;
    var k: nat := i;
    update, assign := [], [];
    ghost var seen: seq<nat> := [];
    ghost var fl := flags[..];
    while true
      invariant k < W
      invariant seen + Walk(k, f, W) == Walk(i, f, W)
      invariant update == Select(seen, fl, ForUpdate)
      invariant assign == Select(seen, fl, ForAssign)
      decreases Dist(k, f, W)
    {
      SelectSnoc(seen, k, fl, ForUpdate);
      SelectSnoc(seen, k, fl, ForAssign);
      assert flags[k] == fl[k];
      if flags[k] & 1 != 0 {
        update := update + [k];
        if flags[k] == 1 {
          assign := assign + [k];
        }
      }
      seen := seen + [k];
      if k == f {
        break;
      }
      assert Walk(k, f, W) == [k] + Walk(Next(k, W), f, W);
      k := Next(k, W);
    }
  }

  /** The loop that walks the previous window and fills the remove list. */
  method CollectRemoved(flags: array<bv8>, i: nat, f: nat) returns (remove: seq<nat>)
    requires i < flags.Length && f < flags.Length
    ensures remove == Select(Walk(i, f, flags.Length), flags[..], ForRemove)
  {
    var W: nat := flags.Length;
    var k: nat := i;
    remove := [];
    ghost var seen: seq<nat> := [];
    ghost var fl := flags[..];
    while true
      invariant k < W
      invariant seen + Walk(k, f, W) == Walk(i, f, W)
      invariant remove == Select(seen, fl, ForRemove)
      decreases Dist(k, f, W)
    {
      SelectSnoc(seen, k, fl, ForRemove);
      assert flags[k] == fl[k];
      if flags[k] == 2 {
        remove := remove + [k];
      }
      seen := seen + [k];
      if k == f {
        break;
      }
      assert Walk(k, f, W) == [k] + Walk(Next(k, W), f, W);
      k := Next(k, W);
    }
  }

  /** Resetting every recorded wedge's flag to 0. */
  method ClearFlags(flags: array<bv8>, list: seq<nat>)
    requires forall k :: 0 <= k < |list| ==> list[k] < flags.Length
    modifies flags
    ensures forall j :: 0 <= j < flags.Length ==> flags[j] == if j in list then 0 else old(flags[j])
  {
    for k := 0 to |list|
      invariant forall j :: 0 <= j < flags.Length ==> flags[j] == if j in list[..k] then 0 else old(flags[j])
    {
      assert list[..k + 1] == list[..k] + [list[k]];
      flags[list[k]] := 0;
    }
    assert list[..|list|] == list;
  }

  /** All flags are 0: the state between frames. */
  predicate AllClear(flags: seq<bv8>)
  {
    forall j :: 0 <= j < |flags| ==> flags[j] == 0
  }

  /**
   * Classifying the wedges of one frame: mark both windows, collect the three
   * lists, then clear every flag that was set.  The flags start and end all 0.
   */
  method ClassifyFrame(flags: array<bv8>, cur: Window, prev: Window)
      returns (update: seq<nat>, assign: seq<nat>, remove: seq<nat>)
    requires WellFormed(cur, flags.Length) && WellFormed(prev, flags.Length)
    requires AllClear(flags[..])
    modifies flags
    ensures AllClear(flags[..])
    ensures update == UpdateList(cur, prev, flags.Length)
    ensures assign == AssignList(cur, prev, flags.Length)
    ensures remove == RemoveList(cur, prev, flags.Length)
  {
    var W := flags.Length;
    var clear: seq<nat> := [];
    if cur.start != -1 {
      var m := MarkRange(flags, cur.start, cur.finish, 1);
      clear := clear + m;
    }
    if prev.start != -1 {
      var m := MarkRange(flags, prev.start, prev.finish, 2);
      clear := clear + m;
    }
    WedgesMembers(cur, W);
    WedgesMembers(prev, W);
    assert flags[..] == Flags(cur, prev, W) by {
      forall j | 0 <= j < W ensures flags[j] == FlagOf(j, cur, prev) {
      }
    }
    update, assign, remove := [], [], [];
    if cur.start != -1 {
      update, assign := CollectCurrent(flags, cur.start, cur.finish);
    }
    if prev.start != -1 {
      remove := CollectRemoved(flags, prev.start, prev.finish);
    }
    assert forall j :: j in clear <==> j in Wedges(cur, W) || j in Wedges(prev, W);
    assert forall k :: 0 <= k < |clear| ==> clear[k] in clear;
    ClearFlags(flags, clear);
  }
}
