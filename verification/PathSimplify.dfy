/**
 Polyline simplification with an explicit stack, and three-point smoothing.
 */
module PathSimplify {
  import opened Basics
  import opened PathGeometry

  // ---------------------------------------------------------------- which points are kept

  /** A squared distance whose root is above the tolerance. */
  predicate Exceeds(d: real, tolerance: real) {
    tolerance < 0.0 || d > tolerance * tolerance
  }

  /** Squared distance of point `i` to the segment between points `s` and `e`. */
  function Off(path: seq<Point>, s: nat, e: nat, i: nat): (d: real)
    requires s < |path| && e < |path| && i < |path|
    ensures d >= 0.0
  {
    SegmentDistance(path[i], path[s], path[e])
  }

  /** The first of the points strictly between `s` and `k` that is furthest from the segment s-e. */
  function FarthestBefore(path: seq<Point>, s: nat, e: nat, k: nat): (m: nat)
    requires s + 1 < k <= e < |path|
    ensures s < m < k
    ensures forall i :: s < i < k ==> Off(path, s, e, i) <= Off(path, s, e, m)
    ensures forall i :: s < i < m ==> Off(path, s, e, i) < Off(path, s, e, m)
    decreases k
  {
    if k == s + 2 then s + 1
    else
      var m := FarthestBefore(path, s, e, k - 1);
      if Off(path, s, e, k - 1) > Off(path, s, e, m) then k - 1 else m
  }

  function Farthest(path: seq<Point>, s: nat, e: nat): (m: nat)
    requires s + 1 < e < |path|
    ensures s < m < e
    ensures forall i :: s < i < e ==> Off(path, s, e, i) <= Off(path, s, e, m)
    ensures forall i :: s < i < m ==> Off(path, s, e, i) < Off(path, s, e, m)
  {
    FarthestBefore(path, s, e, e)
  }

  /** The interval s-e is split: some point between is further off than the tolerance. */
  predicate Splits(path: seq<Point>, tolerance: real, s: nat, e: nat)
    requires s < e < |path|
  {
    s + 1 < e && Exceeds(Off(path, s, e, Farthest(path, s, e)), tolerance)
  }

  /** The indices kept strictly between `s` and `e`, ascending. */
  function Inner(path: seq<Point>, tolerance: real, s: nat, e: nat): (r: seq<nat>)
    requires s < e < |path|
    ensures forall i :: 0 <= i < |r| ==> s < r[i] < e
    ensures forall i, j :: 0 <= i < j < |r| ==> r[i] < r[j]
    decreases e - s
  {
    if !Splits(path, tolerance, s, e) then []
    else
      var m := Farthest(path, s, e);
      Inner(path, tolerance, s, m) + [m] + Inner(path, tolerance, m, e)
  }

  function InnerSet(path: seq<Point>, tolerance: real, s: nat, e: nat): set<nat>
    requires s < e < |path|
  {
    set i | i in Inner(path, tolerance, s, e)
  }

  /** All kept indices of a path: both ends and the inner ones. */
  function KeptIndices(path: seq<Point>, tolerance: real): (r: seq<nat>)
    ensures forall i :: 0 <= i < |r| ==> r[i] < |path|
    ensures forall i, j :: 0 <= i < j < |r| ==> r[i] < r[j]
    ensures path != [] ==> r != [] && r[0] == 0 && r[|r| - 1] == |path| - 1
  {
    if |path| <= 2 then seq(|path|, i => i)
    else [0] + Inner(path, tolerance, 0, |path| - 1) + [|path| - 1]
  }

  function PointsAt(path: seq<Point>, indices: seq<nat>): (r: seq<Point>)
    requires forall i :: 0 <= i < |indices| ==> indices[i] < |path|
    ensures |r| == |indices| && forall i :: 0 <= i < |r| ==> r[i] == path[indices[i]]
  {
    seq(|indices|, i requires 0 <= i < |indices| => path[indices[i]])
  }

  function Simplified(path: seq<Point>, tolerance: real): seq<Point> {
    PointsAt(path, KeptIndices(path, tolerance))
  }

  // ---------------------------------------------------------------- dropped points stay close

  /** `k` lies between the kept indices `a` and `b`, with none kept in between, and within tolerance of
      the segment that joins their points. */
  ghost predicate CloseTo(path: seq<Point>, tolerance: real, kept: set<nat>, a: nat, k: nat, b: nat) {
    a < k < b < |path| && a in kept && b in kept && (forall i :: a < i < b ==> i !in kept)
    && tolerance >= 0.0 && Off(path, a, b, k) <= tolerance * tolerance
  }

  lemma SplitSet(path: seq<Point>, tolerance: real, s: nat, e: nat)
    requires s < e < |path|
    ensures Splits(path, tolerance, s, e) ==>
      InnerSet(path, tolerance, s, e) == InnerSet(path, tolerance, s, Farthest(path, s, e)) + {Farthest(path, s, e)}
                                         + InnerSet(path, tolerance, Farthest(path, s, e), e)
    ensures !Splits(path, tolerance, s, e) ==> InnerSet(path, tolerance, s, e) == {}
  {
    hide SegmentDistance;
  }

  lemma InnerRange(path: seq<Point>, tolerance: real, s: nat, e: nat, i: nat)
    requires s < e < |path| && i in InnerSet(path, tolerance, s, e)
    ensures s < i < e
  {
    hide SegmentDistance;
  }

  lemma WithinSplit(path: seq<Point>, tolerance: real, s: nat, e: nat, k: nat)
    requires s < k < e < |path| && !Splits(path, tolerance, s, e)
    ensures tolerance >= 0.0 && Off(path, s, e, k) <= tolerance * tolerance
  {
    hide SegmentDistance;
  }

  lemma {:induction false} DroppedClose(path: seq<Point>, tolerance: real, s: nat, e: nat, k: nat) returns (a: nat, b: nat)
    requires s < k < e < |path| && k !in InnerSet(path, tolerance, s, e)
    ensures CloseTo(path, tolerance, InnerSet(path, tolerance, s, e) + {s, e}, a, k, b) && s <= a && b <= e
    decreases e - s
  {
    hide InnerSet, Off, Farthest, Splits;
    SplitSet(path, tolerance, s, e);
    if Splits(path, tolerance, s, e) {
      var m := SplitPoint(path, tolerance, s, e);
      if k < m {
        a, b := DroppedClose(path, tolerance, s, m, k);
        Widen(path, tolerance, s, m, e, a, b);
      } else {
        a, b := DroppedClose(path, tolerance, m, e, k);
        Widen(path, tolerance, s, m, e, a, b);
      }
    } else {
      a, b := s, e;
      WithinSplit(path, tolerance, s, e, k);
    }
  }

  lemma SplitPoint(path: seq<Point>, tolerance: real, s: nat, e: nat) returns (m: nat)
    requires s < e < |path| && Splits(path, tolerance, s, e)
    ensures s + 1 < e && s < m < e && m == Farthest(path, s, e)
  {
    hide SegmentDistance;
    m := Farthest(path, s, e);
  }

  /** Nothing kept on one side of the split point lies on the other side. */
  lemma Widen(path: seq<Point>, tolerance: real, s: nat, m: nat, e: nat, a: nat, b: nat)
    requires s < m < e < |path| && s <= a < b <= e
    ensures b <= m ==> forall i :: a < i < b ==> i !in InnerSet(path, tolerance, m, e)
    ensures m <= a ==> forall i :: a < i < b ==> i !in InnerSet(path, tolerance, s, m)
  {
    hide InnerSet;
    forall i | b <= m && a < i < b ensures i !in InnerSet(path, tolerance, m, e) {
      if i in InnerSet(path, tolerance, m, e) { InnerRange(path, tolerance, m, e, i); }
    }
    forall i | m <= a && a < i < b ensures i !in InnerSet(path, tolerance, s, m) {
      if i in InnerSet(path, tolerance, s, m) { InnerRange(path, tolerance, s, m, i); }
    }
  }

  function KeptSet(path: seq<Point>, tolerance: real): set<nat> {
    set i | i in KeptIndices(path, tolerance)
  }

  lemma ShortKeepsAll(path: seq<Point>, tolerance: real, k: nat)
    requires k < |path| <= 2
    ensures k in KeptSet(path, tolerance)
  {
    assert KeptIndices(path, tolerance)[k] == k;
  }

  lemma LongPath(path: seq<Point>, tolerance: real, k: nat)
    requires k < |path| && k !in KeptSet(path, tolerance)
    ensures |path| > 2
  {
    hide KeptSet;
    if |path| <= 2 { ShortKeepsAll(path, tolerance, k); }
  }

  lemma KeptSetIs(path: seq<Point>, tolerance: real)
    requires |path| > 2
    ensures KeptSet(path, tolerance) == InnerSet(path, tolerance, 0, |path| - 1) + {0, |path| - 1}
  {
    hide SegmentDistance;
    var kept := KeptIndices(path, tolerance);
    assert kept[0] == 0 && kept[|kept| - 1] == |path| - 1;
    assert kept == [0] + Inner(path, tolerance, 0, |path| - 1) + [|path| - 1];
  }

  /** Every point that `compress` drops lies within the tolerance of the segment joining the kept points
      on either side of it. */
  lemma DroppedWithinTolerance(path: seq<Point>, tolerance: real, k: nat) returns (a: nat, b: nat)
    requires k < |path| && k !in KeptSet(path, tolerance)
    ensures CloseTo(path, tolerance, KeptSet(path, tolerance), a, k, b)
  {
    hide InnerSet, Off, KeptSet;
    LongPath(path, tolerance, k);
    KeptSetIs(path, tolerance);
    a, b := DroppedClose(path, tolerance, 0, |path| - 1, k);
  }

  /** The measured distance is the true one: no point of the segment is nearer. */
  lemma MeasuredIsNearest(path: seq<Point>, a: nat, b: nat, k: nat, u: real)
    requires a < |path| && b < |path| && k < |path| && 0.0 <= u <= 1.0
    ensures Off(path, a, b, k) <= Apart(path[k], Along(path[a], path[b], u))
  {
    NearestOfSegment(path[k], path[a], path[b], u);
  }

  // ---------------------------------------------------------------- nothing is kept without a reason

  /** `m` stands out between the kept indices `a` and `b`: further from the segment that joins their points than the
      tolerance, and than every other point between them, the earlier ones strictly. */
  ghost predicate StandsOut(path: seq<Point>, tolerance: real, kept: set<nat>, a: nat, m: nat, b: nat) {
    a < m < b < |path| && a in kept && b in kept
    && (tolerance < 0.0 || Off(path, a, b, m) > tolerance * tolerance)
    && (forall i :: a < i < b ==> Off(path, a, b, i) <= Off(path, a, b, m))
    && forall i :: a < i < m ==> Off(path, a, b, i) < Off(path, a, b, m)
  }

  lemma {:induction false} InnerReason(path: seq<Point>, tolerance: real, s: nat, e: nat, m: nat) returns (a: nat, b: nat)
    requires s < e < |path| && m in InnerSet(path, tolerance, s, e)
    ensures StandsOut(path, tolerance, InnerSet(path, tolerance, s, e) + {s, e}, a, m, b)
    decreases e - s
  {
    hide InnerSet, Off, Splits;
    SplitSet(path, tolerance, s, e);
    var f := SplitPoint(path, tolerance, s, e);
    if m == f {
      a, b := s, e;
      FarthestStands(path, tolerance, s, e);
    } else if m in InnerSet(path, tolerance, s, f) {
      a, b := InnerReason(path, tolerance, s, f, m);
    } else {
      a, b := InnerReason(path, tolerance, f, e, m);
    }
  }

  lemma FarthestStands(path: seq<Point>, tolerance: real, s: nat, e: nat)
    requires s < e < |path| && Splits(path, tolerance, s, e)
    ensures var m := Farthest(path, s, e);
      s < m < e && (tolerance < 0.0 || Off(path, s, e, m) > tolerance * tolerance)
  {
    hide Off;
  }

  /** Every point that `compress` keeps between the ends stands out between two kept points: the kept set is no larger
      than the tolerance asks for. */
  lemma KeptForReason(path: seq<Point>, tolerance: real, m: nat) returns (a: nat, b: nat)
    requires 0 < m < |path| - 1 && m in KeptSet(path, tolerance)
    ensures StandsOut(path, tolerance, KeptSet(path, tolerance), a, m, b)
  {
    hide InnerSet, Off, KeptSet;
    KeptSetIs(path, tolerance);
    a, b := InnerReason(path, tolerance, 0, |path| - 1, m);
  }

  predicate AllNear(path: seq<Point>, tolerance: real, a: nat, b: nat)
    requires a < |path| && b < |path|
  {
    forall i :: a < i < b ==> Off(path, a, b, i) <= tolerance * tolerance
  }

  /** A path whose inner points all lie within a tolerance of its chord becomes its two ends, and only such a path. */
  lemma ChordExactly(path: seq<Point>, tolerance: real)
    requires |path| > 2
    ensures Simplified(path, tolerance) == [path[0], path[|path| - 1]]
      <==> tolerance >= 0.0 && AllNear(path, tolerance, 0, |path| - 1)
  {
    hide Off, Farthest, FarthestBefore;
    var n := |path| - 1;
    var q := Simplified(path, tolerance);
    var inner := Inner(path, tolerance, 0, n);
    assert |q| == |inner| + 2 && q[0] == path[0] && q[|q| - 1] == path[n];
    if Splits(path, tolerance, 0, n) {
      var m := SplitPoint(path, tolerance, 0, n);
      FarthestStands(path, tolerance, 0, n);
    } else {
      forall i | 0 < i < n ensures tolerance >= 0.0 && Off(path, 0, n, i) <= tolerance * tolerance {
        WithinSplit(path, tolerance, 0, n, i);
      }
      assert tolerance >= 0.0 by { WithinSplit(path, tolerance, 0, n, 1); }
    }
  }

  // ---------------------------------------------------------------- simplifying twice changes nothing

  /** `q` from position `a` on holds the points of `path` at `indices`. */
  predicate Seats(q: seq<Point>, a: nat, path: seq<Point>, indices: seq<nat>) {
    a + |indices| <= |q|
    && forall i :: 0 <= i < |indices| ==> indices[i] < |path| && q[a + i] == path[indices[i]]
  }

  function Upward(a: nat, b: nat): (r: seq<nat>)
    requires a <= b
    ensures |r| == b - a && forall i :: 0 <= i < |r| ==> r[i] == a + i
  {
    seq(b - a, i requires 0 <= i < b - a => a + i)
  }

  /** The kept points, simplified again, are all kept. */
  lemma {:induction false} InnerAgain(path: seq<Point>, tolerance: real, s: nat, e: nat, q: seq<Point>, a: nat)
    requires s < e < |path|
    requires Seats(q, a, path, [s] + Inner(path, tolerance, s, e) + [e])
    ensures Inner(q, tolerance, a, a + |Inner(path, tolerance, s, e)| + 1) == Upward(a + 1, a + |Inner(path, tolerance, s, e)| + 1)
    decreases e - s
  {
    hide SegmentDistance, Farthest, Off, FarthestBefore, Seats, Upward, Exceeds;
    var z := a + |Inner(path, tolerance, s, e)| + 1;
    if Splits(path, tolerance, s, e) {
      var m := Farthest(path, s, e);
      var c := a + |Inner(path, tolerance, s, m)| + 1;
      SplitSeats(path, tolerance, s, e, q, a);
      InnerAgain(path, tolerance, s, m, q, a);
      InnerAgain(path, tolerance, m, e, q, c);
      SameFarthest(path, tolerance, s, e, q, a);
      JoinUpward(a, c, z);
    }
  }

  lemma JoinUpward(a: nat, c: nat, z: nat)
    requires a < c < z
    ensures Upward(a + 1, z) == Upward(a + 1, c) + [c] + Upward(c + 1, z)
  {
  }

  lemma SplitSeats(path: seq<Point>, tolerance: real, s: nat, e: nat, q: seq<Point>, a: nat)
    requires s < e < |path| && Splits(path, tolerance, s, e)
    requires Seats(q, a, path, [s] + Inner(path, tolerance, s, e) + [e])
    ensures var m := Farthest(path, s, e);
      var left, right := Inner(path, tolerance, s, m), Inner(path, tolerance, m, e);
      Seats(q, a, path, [s] + left + [m]) && Seats(q, a + |left| + 1, path, [m] + right + [e])
  {
    hide SegmentDistance, Farthest, Off, FarthestBefore, Seats, Exceeds;
    var m := Farthest(path, s, e);
    SplitAnywhere(path, q, a, s, Inner(path, tolerance, s, m), m, Inner(path, tolerance, m, e), e);
  }

  lemma SplitAnywhere(path: seq<Point>, q: seq<Point>, a: nat, s: nat, left: seq<nat>, m: nat, right: seq<nat>, e: nat)
    requires Seats(q, a, path, [s] + (left + [m] + right) + [e])
    ensures Seats(q, a, path, [s] + left + [m]) && Seats(q, a + |left| + 1, path, [m] + right + [e])
  {
    var all, front, back := [s] + (left + [m] + right) + [e], [s] + left + [m], [m] + right + [e];
    forall i | 0 <= i < |front| ensures front[i] < |path| && q[a + i] == path[front[i]] {
      assert front[i] == all[i];
    }
    forall i | 0 <= i < |back| ensures back[i] < |path| && q[a + |left| + 1 + i] == path[back[i]] {
      assert back[i] == all[i + |left| + 1];
      assert q[a + (i + |left| + 1)] == path[all[i + |left| + 1]];
    }
  }

  /** The furthest point is the one that is not beaten, and beats all before it. */
  lemma FirstMaximum(path: seq<Point>, s: nat, e: nat, m: nat)
    requires s < m < e < |path|
    requires forall i :: s < i < e ==> Off(path, s, e, i) <= Off(path, s, e, m)
    requires forall i :: s < i < m ==> Off(path, s, e, i) < Off(path, s, e, m)
    ensures Farthest(path, s, e) == m
  {
    hide SegmentDistance;
  }

  /** Among the kept points the furthest is the same one. */
  lemma SameFarthest(path: seq<Point>, tolerance: real, s: nat, e: nat, q: seq<Point>, a: nat)
    requires s < e < |path| && Splits(path, tolerance, s, e)
    requires Seats(q, a, path, [s] + Inner(path, tolerance, s, e) + [e])
    ensures var z := a + |Inner(path, tolerance, s, e)| + 1;
      var c := a + |Inner(path, tolerance, s, Farthest(path, s, e))| + 1;
      Splits(q, tolerance, a, z) && Farthest(q, a, z) == c
  {
    hide SegmentDistance;
    var m := Farthest(path, s, e);
    var inner, left := Inner(path, tolerance, s, e), Inner(path, tolerance, s, m);
    var all, z, c := [s] + inner + [e], a + |inner| + 1, a + |left| + 1;
    assert inner[|left|] == m;
    assert q[a] == path[all[0]] && q[z] == path[all[|inner| + 1]];
    forall j | a < j < z
      ensures var i := inner[j - a - 1]; s < i < e && Off(q, a, z, j) == Off(path, s, e, i) && (j < c ==> i < m)
    {
      assert q[a + (j - a)] == path[all[j - a]] && all[j - a] == inner[j - a - 1];
    }
    FirstMaximum(q, a, z, c);
  }

  /** Simplification is idempotent. */
  lemma SimplifyTwice(path: seq<Point>, tolerance: real)
    ensures Simplified(Simplified(path, tolerance), tolerance) == Simplified(path, tolerance)
  {
    hide SegmentDistance, Farthest, Off, FarthestBefore, Inner;
    var q, kept := Simplified(path, tolerance), KeptIndices(path, tolerance);
    if |q| > 2 {
      assert forall i :: 0 <= i < |kept| ==> q[0 + i] == path[kept[i]];
      InnerAgain(path, tolerance, 0, |path| - 1, q, 0);
      assert KeptIndices(q, tolerance) == Upward(0, |q|);
    }
  }

  /** Both ends survive and the result is a subsequence of the path. */
  lemma SimplifiedShape(path: seq<Point>, tolerance: real)
    requires path != []
    ensures var (q, kept) := (Simplified(path, tolerance), KeptIndices(path, tolerance));
      q != [] && q[0] == path[0] && q[|q| - 1] == path[|path| - 1]
      && |q| == |kept| <= |path| && forall i, j :: 0 <= i < j < |q| ==> kept[i] < kept[j] && q[i] == path[kept[i]]
  {
    hide SegmentDistance;
    Pigeonhole(KeptIndices(path, tolerance), |path|);
  }

  lemma {:induction false} Pigeonhole(s: seq<nat>, n: nat)
    requires forall i :: 0 <= i < |s| ==> s[i] < n
    requires forall i, j :: 0 <= i < j < |s| ==> s[i] < s[j]
    ensures |s| <= n
    decreases |s|
  {
    if s != [] { Pigeonhole(s[..|s| - 1], s[|s| - 1]); }
  }

  // ---------------------------------------------------------------- the stack loop

  function StackKeeps(path: seq<Point>, tolerance: real, stack: seq<(nat, nat)>): set<nat>
    requires forall i :: 0 <= i < |stack| ==> stack[i].0 < stack[i].1 < |path|
  {
    if stack == [] then {}
    else StackKeeps(path, tolerance, stack[..|stack| - 1]) + InnerSet(path, tolerance, stack[|stack| - 1].0, stack[|stack| - 1].1)
  }

  /** The sum of 2 * length - 1 over the stacked intervals. */
  function Work(stack: seq<(nat, nat)>): (w: nat)
    requires forall i :: 0 <= i < |stack| ==> stack[i].0 < stack[i].1
  {
    if stack == [] then 0
    else Work(stack[..|stack| - 1]) + 2 * (stack[|stack| - 1].1 - stack[|stack| - 1].0) - 1
  }

  /** The points with a kept index, in path order. */
  function Select(path: seq<Point>, keep: set<nat>, i: nat, j: nat): seq<Point>
    requires i <= j <= |path|
    decreases j - i
  {
    if i == j then [] else Select(path, keep, i, j - 1) + if j - 1 in keep then [path[j - 1]] else []
  }

  predicate Ascends(list: seq<nat>, j: nat) {
    (forall i :: 0 <= i < |list| ==> list[i] < j) && forall i, k :: 0 <= i < k < |list| ==> list[i] < list[k]
  }

  predicate SameMembers(keep: set<nat>, list: seq<nat>, j: nat) {
    forall k :: 0 <= k < j ==> (k in keep <==> k in list)
  }

  /** Dropping the last of an ascending list leaves one below it. */
  lemma AscendsFront(list: seq<nat>, j: nat)
    requires list != [] && Ascends(list, j)
    ensures Ascends(list[..|list| - 1], list[|list| - 1])
  {
    var shorter := list[..|list| - 1];
    forall i | 0 <= i < |shorter| ensures shorter[i] < list[|list| - 1] { assert list[i] < list[|list| - 1]; }
  }

  lemma LastIsLargest(list: seq<nat>, j: nat, i: nat)
    requires Ascends(list, j) && i < |list|
    ensures list[i] <= list[|list| - 1] < j && (list[i] == list[|list| - 1] ==> i == |list| - 1)
  {
  }

  /** The largest member of an ascending list is its last. */
  lemma LastMember(keep: set<nat>, list: seq<nat>, j: nat)
    requires j > 0 && Ascends(list, j) && SameMembers(keep, list, j) && j - 1 in keep
    ensures list != [] && list[|list| - 1] == j - 1
    ensures Ascends(list[..|list| - 1], j - 1) && SameMembers(keep, list[..|list| - 1], j - 1)
  {
    assert j - 1 in list;
    var i :| 0 <= i < |list| && list[i] == j - 1;
    LastIsLargest(list, j, i);
    AscendsFront(list, j);
    var shorter := list[..|list| - 1];
    forall k | 0 <= k < j - 1 ensures k in keep <==> k in shorter {
      if k in list {
        var x :| 0 <= x < |list| && list[x] == k;
        assert shorter[x] == k;
      }
    }
  }

  lemma NotLast(keep: set<nat>, list: seq<nat>, j: nat)
    requires j > 0 && Ascends(list, j) && SameMembers(keep, list, j) && j - 1 !in keep
    ensures Ascends(list, j - 1) && SameMembers(keep, list, j - 1)
  {
    forall i | 0 <= i < |list| ensures list[i] < j - 1 { assert list[i] in list; }
  }

  /** Sorting a set of indices that are the members of an ascending list gives the list. */
  lemma {:induction false} SelectIs(path: seq<Point>, keep: set<nat>, list: seq<nat>, j: nat)
    requires j <= |path| && Ascends(list, j) && SameMembers(keep, list, j)
    ensures Select(path, keep, 0, j) == PointsAt(path, list)
    decreases j
  {
    if j > 0 {
      if j - 1 in keep {
        LastMember(keep, list, j);
        var shorter := list[..|list| - 1];
        SelectIs(path, keep, shorter, j - 1);
        assert PointsAt(path, list) == PointsAt(path, shorter) + [path[j - 1]];
      } else {
        NotLast(keep, list, j);
        SelectIs(path, keep, list, j - 1);
      }
    }
  }

  lemma SelectKept(path: seq<Point>, tolerance: real, keep: set<nat>)
    requires keep == KeptSet(path, tolerance)
    ensures Select(path, keep, 0, |path|) == Simplified(path, tolerance)
  {
    hide KeptIndices, Select;
    SelectIs(path, keep, KeptIndices(path, tolerance), |path|);
  }

  /** The inner loop: the furthest point of an interval. */
  method FindFarthest(path: seq<Point>, s: nat, e: nat) returns (m: nat, d: real)
    requires s + 1 < e < |path|
    ensures m == Farthest(path, s, e) && d == Off(path, s, e, m)
  {
    m, d := s, -1.0;
    for i := s + 1 to e
      invariant i == s + 1 ==> d == -1.0
      invariant i > s + 1 ==> m == FarthestBefore(path, s, e, i) && d == Off(path, s, e, m)
    {
      var o := SegmentDistance(path[i], path[s], path[e]);
      if o > d {
        m, d := i, o;
      }
    }
  }

  predicate StackOk(path: seq<Point>, stack: seq<(nat, nat)>) {
    forall i :: 0 <= i < |stack| ==> stack[i].0 < stack[i].1 < |path|
  }

  method Compress(path: seq<Point>, tolerance: real) returns (result: seq<Point>)
    ensures result == Simplified(path, tolerance)
  {
    hide SegmentDistance, Inner, InnerSet, Off, Farthest, FarthestBefore, StackKeeps, Work, Exceeds, Simplified, KeptSet;
    if |path| <= 2 {
      ShortPath(path, tolerance);
      return path;
    }
    var n := |path| - 1;
    var keep: set<nat> := {0, n};
    var stack: seq<(nat, nat)> := [(0, n)];
    OnStack(path, tolerance, [], 0, n);
    assert [] + [(0, n)] == stack;
    hide StackOk;
    while stack != []
      invariant StackOk(path, stack)
      invariant keep + StackKeeps(path, tolerance, stack) == {0, n} + InnerSet(path, tolerance, 0, n)
      decreases Work(stack)
    {
      var (s, e) := stack[|stack| - 1];
      TopOf(path, tolerance, stack);
      stack := stack[..|stack| - 1];
      SplitSet(path, tolerance, s, e);
      NothingAdded(keep, StackKeeps(path, tolerance, stack));
      if e <= s + 1 { continue; }
      var m, d := FindFarthest(path, s, e);
      if Exceeds(d, tolerance) {
        HalvesOn(path, tolerance, stack, s, m, e);
        KeepOne(keep, StackKeeps(path, tolerance, stack), InnerSet(path, tolerance, s, m), m, InnerSet(path, tolerance, m, e));
        keep := keep + {m};
        stack := stack + [(s, m)];
        stack := stack + [(m, e)];
      }
    }
    NoStack(path, tolerance);
    result := [];
    KeptSetIs(path, tolerance);
    SelectKept(path, tolerance, keep);
    for i := 0 to |path|
      invariant result == Select(path, keep, 0, i)
    {
      if i in keep { result := result + [path[i]]; }
    }
  }

  lemma ShortPath(path: seq<Point>, tolerance: real)
    requires |path| <= 2
    ensures Simplified(path, tolerance) == path
  {
  }

  lemma NoStack(path: seq<Point>, tolerance: real)
    ensures StackKeeps(path, tolerance, []) == {} && Work([]) == 0
  {
    hide InnerSet;
  }

  /** What one more interval adds to the points still to be kept and to the work left. */
  lemma KeepOne(keep: set<nat>, rest: set<nat>, left: set<nat>, m: nat, right: set<nat>)
    ensures keep + {m} + (rest + left + right) == keep + (rest + (left + {m} + right))
  {
  }

  lemma NothingAdded(keep: set<nat>, rest: set<nat>)
    ensures keep + (rest + {}) == keep + rest
  {
  }

  /** What taking the top off the stack does. */
  lemma TopOf(path: seq<Point>, tolerance: real, stack: seq<(nat, nat)>)
    requires StackOk(path, stack) && stack != []
    ensures var (rest, s, e) := (stack[..|stack| - 1], stack[|stack| - 1].0, stack[|stack| - 1].1);
      StackOk(path, rest) && s < e < |path|
      && StackKeeps(path, tolerance, stack) == StackKeeps(path, tolerance, rest) + InnerSet(path, tolerance, s, e)
      && Work(stack) == Work(rest) + 2 * (e - s) - 1
  {
    hide InnerSet, StackKeeps, Work;
    var rest, top := stack[..|stack| - 1], stack[|stack| - 1];
    assert stack == rest + [top];
    OnStack(path, tolerance, rest, top.0, top.1);
  }

  lemma HalvesOn(path: seq<Point>, tolerance: real, stack: seq<(nat, nat)>, s: nat, m: nat, e: nat)
    requires StackOk(path, stack) && s < m < e < |path|
    ensures var more := stack + [(s, m)] + [(m, e)];
      StackOk(path, more) && Work(more) == Work(stack) + 2 * (e - s) - 2
      && StackKeeps(path, tolerance, more)
         == StackKeeps(path, tolerance, stack) + InnerSet(path, tolerance, s, m) + InnerSet(path, tolerance, m, e)
  {
    hide InnerSet, StackKeeps, Work, StackOk;
    OnStack(path, tolerance, stack, s, m);
    OnStack(path, tolerance, stack + [(s, m)], m, e);
  }

  lemma OnStack(path: seq<Point>, tolerance: real, stack: seq<(nat, nat)>, s: nat, e: nat)
    requires StackOk(path, stack) && s < e < |path|
    ensures StackOk(path, stack + [(s, e)])
    ensures StackKeeps(path, tolerance, stack + [(s, e)]) == StackKeeps(path, tolerance, stack) + InnerSet(path, tolerance, s, e)
    ensures Work(stack + [(s, e)]) == Work(stack) + 2 * (e - s) - 1
    ensures stack == [] ==> StackKeeps(path, tolerance, stack) == {}
  {
    hide InnerSet;
    var one := stack + [(s, e)];
    assert one[..|one| - 1] == stack;
  }

  // ---------------------------------------------------------------- smoothing

  /** The weighted average of a point with its neighbours; `z` and the marker are the point's own. */
  function Blended(a: real, b: real, c: real): real {
    0.25 * a + 0.5 * b + 0.25 * c
  }

  function Blend(p: Point, q: Point, r: Point): Point {
    q.(x := Blended(p.x, q.x, r.x), y := Blended(p.y, q.y, r.y))
  }

  function SmoothAt(path: seq<Point>, i: nat): Point
    requires i < |path|
  {
    if i == 0 || i == |path| - 1 then path[i] else Blend(path[i - 1], path[i], path[i + 1])
  }

  function SmoothOnce(path: seq<Point>): (r: seq<Point>)
    ensures |r| == |path|
  {
    seq(|path|, i requires 0 <= i < |path| => SmoothAt(path, i))
  }

  function Smoothed(path: seq<Point>, n: nat): (r: seq<Point>)
    ensures |r| == |path|
  {
    if n == 0 then path else SmoothOnce(Smoothed(path, n - 1))
  }

  /** One round of the smoothing loop. */
  method SmoothRound(path: seq<Point>) returns (next: seq<Point>)
    requires |path| >= 3
    ensures next == SmoothOnce(path)
  {
    hide Blend;
    next := [path[0]];
    for i := 1 to |path| - 1
      invariant |next| == i && forall j :: 0 <= j < i ==> next[j] == SmoothAt(path, j)
    {
      next := next + [Blend(path[i - 1], path[i], path[i + 1])];
    }
    next := next + [path[|path| - 1]];
  }

  method Smooth(path: seq<Point>, iterations: int) returns (result: seq<Point>)
    ensures result == Smoothed(path, if iterations > 0 then iterations else 0)
  {
    hide SmoothOnce;
    if |path| < 3 || iterations <= 0 {
      ShortStays(path, if iterations > 0 then iterations else 0);
      return path;
    }
    result := path;
    for k := 0 to iterations
      invariant result == Smoothed(path, k)
    {
      result := SmoothRound(result);
    }
  }

  lemma {:induction false} ShortStays(path: seq<Point>, n: nat)
    requires |path| < 3 || n == 0
    ensures Smoothed(path, n) == path
  {
    if n > 0 {
      ShortStays(path, n - 1);
      assert SmoothOnce(path) == path;
    }
  }

  predicate InBox(p: Point, x0: real, y0: real, x1: real, y1: real) {
    x0 <= p.x <= x1 && y0 <= p.y <= y1
  }

  predicate AllInBox(path: seq<Point>, x0: real, y0: real, x1: real, y1: real) {
    forall i :: 0 <= i < |path| ==> InBox(path[i], x0, y0, x1, y1)
  }

  lemma OnceAt(path: seq<Point>, i: nat)
    requires i < |path|
    ensures SmoothOnce(path)[i] == SmoothAt(path, i)
  {
    hide Blend;
  }

  /** The neighbours of a point lend it only what lies between them. */
  lemma OnceStays(path: seq<Point>, x0: real, y0: real, x1: real, y1: real)
    requires AllInBox(path, x0, y0, x1, y1)
    ensures AllInBox(SmoothOnce(path), x0, y0, x1, y1)
  {
    hide SmoothOnce;
    forall i | 0 <= i < |path| ensures InBox(SmoothOnce(path)[i], x0, y0, x1, y1) {
      OnceAt(path, i);
      assert InBox(path[i], x0, y0, x1, y1);
      if 0 < i < |path| - 1 {
        assert InBox(path[i - 1], x0, y0, x1, y1) && InBox(path[i + 1], x0, y0, x1, y1);
      }
    }
  }

  /** Smoothing keeps every box around the path. */
  lemma {:induction false} SmoothingStays(path: seq<Point>, n: nat, x0: real, y0: real, x1: real, y1: real)
    requires AllInBox(path, x0, y0, x1, y1)
    ensures AllInBox(Smoothed(path, n), x0, y0, x1, y1)
  {
    hide SmoothOnce;
    if n > 0 {
      SmoothingStays(path, n - 1, x0, y0, x1, y1);
      OnceStays(Smoothed(path, n - 1), x0, y0, x1, y1);
    }
  }

  /** Smoothing keeps both ends and every height and marker. */
  lemma {:induction false} SmoothingKeeps(path: seq<Point>, n: nat, i: nat)
    requires i < |path|
    ensures Smoothed(path, n)[i].z == path[i].z && Smoothed(path, n)[i].penUp == path[i].penUp
    ensures i == 0 || i == |path| - 1 ==> Smoothed(path, n)[i] == path[i]
  {
    hide SmoothOnce;
    if n > 0 {
      SmoothingKeeps(path, n - 1, i);
      OnceAt(Smoothed(path, n - 1), i);
    }
  }

  lemma OnceReverses(q: seq<Point>)
    ensures SmoothOnce(Rev(q)) == Rev(SmoothOnce(q))
  {
    hide SmoothOnce;
    var r := Rev(q);
    RevAll(q);
    forall i | 0 <= i < |q| ensures SmoothOnce(r)[i] == Rev(SmoothOnce(q))[i] {
      RevAt(SmoothOnce(q), i);
      OnceAt(r, i);
      OnceAt(q, |q| - 1 - i);
      if 0 < i < |q| - 1 {
        assert r[i - 1] == q[|q| - 1 - i + 1] && r[i] == q[|q| - 1 - i] && r[i + 1] == q[|q| - 1 - i - 1];
      }
    }
  }

  /** Smoothing does not depend on the drawing direction. */
  lemma {:induction false} SmoothingReverses(path: seq<Point>, n: nat)
    ensures Smoothed(Rev(path), n) == Rev(Smoothed(path, n))
  {
    hide SmoothOnce;
    if n > 0 {
      SmoothingReverses(path, n - 1);
      OnceReverses(Smoothed(path, n - 1));
    }
  }

  /** Each round leaves an inner point half way between where it was and the middle of its neighbours. */
  lemma SmoothingMeets(path: seq<Point>, n: nat, i: nat)
    requires 0 < i < |path| - 1
    ensures var (p, q) := (Smoothed(path, n), Smoothed(path, n + 1)[i]);
      && q.x == (p[i].x + (p[i - 1].x + p[i + 1].x) / 2.0) / 2.0
      && q.y == (p[i].y + (p[i - 1].y + p[i + 1].y) / 2.0) / 2.0
  {
    hide SmoothOnce, Blend;
    OnceAt(Smoothed(path, n), i);
    BlendIs(Smoothed(path, n)[i - 1], Smoothed(path, n)[i], Smoothed(path, n)[i + 1]);
  }

  lemma BlendIs(p: Point, q: Point, r: Point)
    ensures Blend(p, q, r).x == (q.x + (p.x + r.x) / 2.0) / 2.0 && Blend(p, q, r).y == (q.y + (p.y + r.y) / 2.0) / 2.0
  {
  }

  /** A zigzag about a line is flattened to it in one round. */
  lemma ZigzagFlattens(path: seq<Point>, middle: real, swing: real, i: nat)
    requires 0 < i < |path| - 1
    requires forall j :: 0 <= j < |path| ==> path[j].y == if j % 2 == 0 then middle + swing else middle - swing
    ensures SmoothOnce(path)[i].y == middle
  {
    hide SmoothOnce, Blend;
    OnceAt(path, i);
    BlendIs(path[i - 1], path[i], path[i + 1]);
    assert path[i - 1].y == path[i + 1].y && path[i - 1].y + path[i].y == 2.0 * middle;
  }

  function MovedTo(v: real, k: real, d: real): real {
    k * v + d
  }

  function MovedPoint(p: Point, k: real, dx: real, dy: real): Point {
    p.(x := MovedTo(p.x, k, dx), y := MovedTo(p.y, k, dy))
  }

  function MovedPath(path: seq<Point>, k: real, dx: real, dy: real): (r: seq<Point>)
    ensures |r| == |path| && forall i :: 0 <= i < |r| ==> r[i] == MovedPoint(path[i], k, dx, dy)
  {
    seq(|path|, i requires 0 <= i < |path| => MovedPoint(path[i], k, dx, dy))
  }

  lemma BlendMoves(p: Point, q: Point, r: Point, k: real, dx: real, dy: real)
    ensures Blend(MovedPoint(p, k, dx, dy), MovedPoint(q, k, dx, dy), MovedPoint(r, k, dx, dy))
      == MovedPoint(Blend(p, q, r), k, dx, dy)
  {
    hide Blended, MovedTo;
    BlendAxis(p.x, q.x, r.x, k, dx);
    BlendAxis(p.y, q.y, r.y, k, dy);
  }

  /** One coordinate of a blend of moved points. */
  lemma BlendAxis(a: real, b: real, c: real, k: real, d: real)
    ensures Blended(MovedTo(a, k, d), MovedTo(b, k, d), MovedTo(c, k, d)) == MovedTo(Blended(a, b, c), k, d)
  {
    Distribute(k, 0.25 * a, 0.5 * b);
    Distribute(k, 0.25 * a + 0.5 * b, 0.25 * c);
  }

  lemma OnceMoves(q: seq<Point>, k: real, dx: real, dy: real)
    ensures SmoothOnce(MovedPath(q, k, dx, dy)) == MovedPath(SmoothOnce(q), k, dx, dy)
  {
    hide SmoothOnce, Blend, MovedPoint;
    var moved := MovedPath(q, k, dx, dy);
    forall i | 0 <= i < |q| ensures SmoothOnce(moved)[i] == MovedPoint(SmoothOnce(q)[i], k, dx, dy) {
      OnceAt(moved, i);
      OnceAt(q, i);
      if 0 < i < |q| - 1 {
        BlendMoves(q[i - 1], q[i], q[i + 1], k, dx, dy);
        assert moved[i - 1] == MovedPoint(q[i - 1], k, dx, dy) && moved[i] == MovedPoint(q[i], k, dx, dy)
            && moved[i + 1] == MovedPoint(q[i + 1], k, dx, dy);
      }
    }
  }

  /** Scaling and moving a path commutes with smoothing it. */
  lemma {:induction false} SmoothingMoves(path: seq<Point>, n: nat, k: real, dx: real, dy: real)
    ensures Smoothed(MovedPath(path, k, dx, dy), n) == MovedPath(Smoothed(path, n), k, dx, dy)
  {
    hide SmoothOnce;
    if n > 0 {
      SmoothingMoves(path, n - 1, k, dx, dy);
      OnceMoves(Smoothed(path, n - 1), k, dx, dy);
    }
  }
}
