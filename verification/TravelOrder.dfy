/**
 Splitting a path into drawing segments, reordering them greedily by distance, and joining them again
 with pen-up moves.
 */
module TravelOrder {
  import opened Basics
  import opened PathGeometry
  import opened PathSimplify

  type Segment = seq<Point>

  // ---------------------------------------------------------------- splitting

  /** The segments closed by the end of the current one. */
  function Closed(current: Segment): seq<Segment> {
    if current == [] then [] else [current]
  }

  /** The segments of a path, with `current` drawn so far and `travel` whether the pen is up. */
  function SplitFrom(path: seq<Point>, current: Segment, travel: bool): seq<Segment>
    decreases |path|
  {
    if path == [] then Closed(current)
    else
      var p, rest := path[0], path[1..];
      if p.penUp then Closed(current) + SplitFrom(rest, [], true)
      else if travel then
        if p.z == 0.0 then SplitFrom(rest, current + [p], false) else SplitFrom(rest, current, true)
      else if p.z > 0.0 then Closed(current) + SplitFrom(rest, [], true)
      else SplitFrom(rest, current + [p], false)
  }

  function Split(path: seq<Point>): seq<Segment> {
    SplitFrom(path, [], false)
  }

  method SplitByPenUp(path: seq<Point>) returns (segments: seq<Segment>)
    ensures segments == Split(path)
  {
    segments := [];
    var current: Segment := [];
    var travel := false;
    assert path[0..] == path;
    for i := 0 to |path|
      invariant Split(path) == segments + SplitFrom(path[i..], current, travel)
    {
      var p := path[i];
      assert path[i..][1..] == path[i + 1..];
      ghost var tail := path[i + 1..];
      assert segments + ([current] + SplitFrom(tail, [], true)) == segments + [current] + SplitFrom(tail, [], true);
      assert [] + SplitFrom(tail, [], true) == SplitFrom(tail, [], true);
      if p.penUp {
        travel := true;
        if current != [] {
          segments := segments + [current];
          current := [];
        }
      } else if travel {
        if p.z == 0.0 {
          travel := false;
          current := current + [p];
        }
      } else if p.z > 0.0 {
        travel := true;
        if current != [] {
          segments := segments + [current];
          current := [];
        }
      } else {
        current := current + [p];
      }
    }
    if current != [] { segments := segments + [current]; }
  }

  /** A drawn point: unmarked and not above the surface. */
  predicate Drawn(p: Point) {
    !p.penUp && p.z <= 0.0
  }

  predicate AllDrawn(s: seq<Point>) {
    forall i :: 0 <= i < |s| ==> Drawn(s[i])
  }

  /** What every split gives: segments that are not empty and all drawn. */
  predicate Drawings(segments: seq<Segment>) {
    forall k :: 0 <= k < |segments| ==> segments[k] != [] && AllDrawn(segments[k])
  }

  lemma {:induction false} SplitDraws(path: seq<Point>, current: Segment, travel: bool)
    requires AllDrawn(current)
    ensures Drawings(SplitFrom(path, current, travel))
    decreases |path|
  {
    if path != [] {
      var p, rest := path[0], path[1..];
      SplitDraws(rest, [], true);
      if !p.penUp {
        if travel {
          if p.z == 0.0 { SplitDraws(rest, current + [p], false); } else { SplitDraws(rest, current, true); }
        } else if p.z <= 0.0 {
          SplitDraws(rest, current + [p], false);
        }
      }
    }
  }

  // ---------------------------------------------------------------- joining

  /** The pen-up move to the start of the next segment, at the height of the last point drawn. */
  function Lift(from: Point, to: Point): Point {
    to.(z := from.z, penUp := true)
  }

  /** Segments with a pen-up move before each; `prev` is the last point before them. */
  function JoinAfter(prev: Point, segments: seq<Segment>): seq<Point>
    requires Drawings(segments)
    decreases |segments|
  {
    if segments == [] then []
    else
      var s := segments[0];
      assert Drawings(segments[1..]);
      [Lift(prev, s[0])] + s + JoinAfter(s[|s| - 1], segments[1..])
  }

  function Join(segments: seq<Segment>): seq<Point>
    requires Drawings(segments)
  {
    if segments == [] then []
    else
      var s := segments[0];
      s + JoinAfter(s[|s| - 1], segments[1..])
  }

  /** Where segment `k` starts in the joined path. */
  function StartAt(segments: seq<Segment>, k: nat): nat
    requires k <= |segments|
  {
    if k == 0 then 0 else StartAt(segments, k - 1) + |segments[k - 1]| + 1
  }

  /** What stands before and at segment `k` of a joined path: the segment as it is, and before it a marked point over
      its first point, at the height of the last point of the segment before. */
  predicate PlacedAt(joined: seq<Point>, segments: seq<Segment>, k: nat)
    requires Drawings(segments) && k < |segments|
  {
    var at := StartAt(segments, k);
    at + |segments[k]| <= |joined| && joined[at..at + |segments[k]|] == segments[k]
    && (k > 0 ==>
          at > 0 && joined[at - 1].penUp
          && joined[at - 1].x == segments[k][0].x && joined[at - 1].y == segments[k][0].y
          && joined[at - 1].z == segments[k - 1][|segments[k - 1]| - 1].z)
  }

  /** The joined path is its segments in order with one pen-up move in front of each but the first, and nothing else. */
  lemma JoinPlaces(segments: seq<Segment>)
    requires Drawings(segments) && segments != []
    ensures |Join(segments)| == StartAt(segments, |segments|) - 1
    ensures forall k :: 0 <= k < |segments| ==> PlacedAt(Join(segments), segments, k)
  {
    assert segments[..|segments|] == segments;
    JoinPlacesTo(segments, |segments|);
  }

  /** One segment more at the end of a join. */
  lemma {:induction false} JoinAfterMore(prev: Point, segments: seq<Segment>, s: Segment)
    requires Drawings(segments) && s != [] && AllDrawn(s)
    ensures Drawings(segments + [s])
    ensures var last := if segments == [] then prev else segments[|segments| - 1][|segments[|segments| - 1]| - 1];
      JoinAfter(prev, segments + [s]) == JoinAfter(prev, segments) + ([Lift(last, s[0])] + s)
    decreases |segments|
  {
    hide Lift;
    var all := segments + [s];
    assert Drawings(all);
    if segments == [] {
      assert all == [s] && all[1..] == [];
      assert JoinAfter(s[|s| - 1], []) == [];
      assert [Lift(prev, s[0])] + s + [] == [Lift(prev, s[0])] + s;
    } else {
      var h, rest := segments[0], segments[1..];
      assert Drawings(rest) && all[1..] == rest + [s] && all[0] == h;
      JoinAfterMore(h[|h| - 1], rest, s);
      var last := segments[|segments| - 1][|segments[|segments| - 1]| - 1];
      var tail, more := JoinAfter(h[|h| - 1], rest), [Lift(last, s[0])] + s;
      assert rest != [] ==> rest[|rest| - 1] == segments[|segments| - 1];
      assert [Lift(prev, h[0])] + h + (tail + more) == [Lift(prev, h[0])] + h + tail + more;
    }
  }

  lemma JoinMore(segments: seq<Segment>, s: Segment)
    requires Drawings(segments) && segments != [] && s != [] && AllDrawn(s)
    ensures Drawings(segments + [s])
    ensures var last := segments[|segments| - 1];
      Join(segments + [s]) == Join(segments) + ([Lift(last[|last| - 1], s[0])] + s)
  {
    hide Lift, JoinAfter;
    var h, rest, all := segments[0], segments[1..], segments + [s];
    assert all[0] == h && all[1..] == rest + [s];
    JoinAfterMore(h[|h| - 1], rest, s);
    var last := segments[|segments| - 1];
    assert rest != [] ==> rest[|rest| - 1] == last;
    assert h + (JoinAfter(h[|h| - 1], rest) + ([Lift(last[|last| - 1], s[0])] + s))
        == h + JoinAfter(h[|h| - 1], rest) + ([Lift(last[|last| - 1], s[0])] + s);
  }

  lemma {:induction false} JoinPlacesTo(segments: seq<Segment>, j: nat)
    requires Drawings(segments) && 0 < j <= |segments|
    ensures |Join(segments[..j])| == StartAt(segments, j) - 1
    ensures forall k :: 0 <= k < j ==> PlacedAt(Join(segments[..j]), segments, k)
  {
    hide Join, AllDrawn;
    var front, s := segments[..j - 1], segments[j - 1];
    assert segments[..j] == front + [s];
    if j == 1 {
      FirstPlaced(segments);
    } else {
      JoinPlacesTo(segments, j - 1);
      assert s != [] && AllDrawn(s);
      JoinMore(front, s);
      forall k | 0 <= k < j ensures PlacedAt(Join(segments[..j]), segments, k) {
        if k < j - 1 {
          PlacedBefore(Join(front), Join(segments[..j]), segments, k);
        } else {
          NewPlaced(Join(front), segments, k);
        }
      }
    }
  }

  lemma FirstPlaced(segments: seq<Segment>)
    requires Drawings(segments) && segments != []
    ensures |Join(segments[..1])| == StartAt(segments, 1) - 1 && PlacedAt(Join(segments[..1]), segments, 0)
  {
    var one, s := segments[..1], segments[0];
    assert one == [s] && one[1..] == [];
    assert JoinAfter(s[|s| - 1], []) == [] && s + [] == s;
    assert Join(one) == s && s[0..|s|] == s;
  }

  lemma PlacedBefore(joined: seq<Point>, longer: seq<Point>, segments: seq<Segment>, k: nat)
    requires Drawings(segments) && k < |segments| && PlacedAt(joined, segments, k) && joined <= longer
    ensures PlacedAt(longer, segments, k)
  {
    var at := StartAt(segments, k);
    assert longer[..|joined|] == joined;
    assert longer[at..at + |segments[k]|] == joined[at..at + |segments[k]|];
  }

  lemma NewPlaced(joined: seq<Point>, segments: seq<Segment>, k: nat)
    requires Drawings(segments) && 0 < k < |segments| && |joined| == StartAt(segments, k) - 1
    ensures var last := segments[k - 1];
      PlacedAt(joined + ([Lift(last[|last| - 1], segments[k][0])] + segments[k]), segments, k)
  {
    hide StartAt;
    var at, last := StartAt(segments, k), segments[k - 1];
    var all := joined + ([Lift(last[|last| - 1], segments[k][0])] + segments[k]);
    assert all[at - 1] == Lift(last[|last| - 1], segments[k][0]);
    assert all[at..at + |segments[k]|] == segments[k];
  }

  /** Each segment but the first starts exactly on the surface. */
  predicate StartsOnSurface(segments: seq<Segment>)
    requires Drawings(segments)
  {
    forall k :: 0 < k < |segments| ==> segments[k][0].z == 0.0
  }

  lemma {:induction false} SplitDrawn(s: seq<Point>, rest: seq<Point>, current: Segment)
    requires AllDrawn(s)
    ensures SplitFrom(s + rest, current, false) == SplitFrom(rest, current + s, false)
  {
    if s == [] {
      assert s + rest == rest && current + s == current;
    } else {
      assert (s + rest)[1..] == s[1..] + rest;
      SplitDrawn(s[1..], rest, current + [s[0]]);
      assert current + [s[0]] + s[1..] == current + s;
    }
  }

  /** A lifted segment that starts on the surface is read back whole. */
  lemma SplitLifted(prev: Point, s: Segment, rest: seq<Point>, current: Segment)
    requires s != [] && AllDrawn(s) && s[0].z == 0.0
    ensures SplitFrom([Lift(prev, s[0])] + s + rest, current, false) == Closed(current) + SplitFrom(rest, s, false)
  {
    var all := [Lift(prev, s[0])] + s + rest;
    assert all[1..] == s + rest;
    assert (s + rest)[1..] == s[1..] + rest;
    SplitDrawn(s[1..], rest, [s[0]]);
    assert [] + [s[0]] == [s[0]] && [s[0]] + s[1..] == s;
  }

  lemma {:induction false} SplitJoinAfter(prev: Point, segments: seq<Segment>, current: Segment)
    requires Drawings(segments) && current != [] && forall k :: 0 <= k < |segments| ==> segments[k][0].z == 0.0
    ensures SplitFrom(JoinAfter(prev, segments), current, false) == [current] + segments
    decreases |segments|
  {
    if segments == [] {
      assert [current] + segments == [current];
    } else {
      var s, rest := segments[0], segments[1..];
      SplitLifted(prev, s, JoinAfter(s[|s| - 1], rest), current);
      SplitJoinAfter(s[|s| - 1], rest, s);
      assert segments == [s] + rest;
    }
  }

  function Count(segments: seq<Segment>): nat {
    if segments == [] then 0 else |segments[0]| + Count(segments[1..])
  }

  lemma {:induction false} CountConcat(a: seq<Segment>, b: seq<Segment>)
    ensures Count(a + b) == Count(a) + Count(b)
  {
    if a == [] {
      assert a + b == b;
    } else {
      assert (a + b)[1..] == a[1..] + b;
      CountConcat(a[1..], b);
    }
  }

  /** Markers aside, nothing more comes out than went in; less when a segment starts below the surface. */
  lemma {:induction false} JoinLoses(prev: Point, segments: seq<Segment>, current: Segment)
    requires Drawings(segments) && current != []
    ensures Count(SplitFrom(JoinAfter(prev, segments), current, false)) <= |current| + Count(segments)
    ensures (exists k :: 0 <= k < |segments| && segments[k][0].z != 0.0) ==>
      Count(SplitFrom(JoinAfter(prev, segments), current, false)) < |current| + Count(segments)
    decreases |segments|
  {
    if segments != [] {
      var s, rest := segments[0], segments[1..];
      var tail := JoinAfter(s[|s| - 1], rest);
      assert segments == [s] + rest;
      if s[0].z == 0.0 {
        SplitLifted(prev, s, tail, current);
        JoinLoses(s[|s| - 1], rest, s);
        CountConcat([current], SplitFrom(tail, s, false));
        assert forall k :: 0 < k < |segments| ==> segments[k] == rest[k - 1];
      } else {
        TravelLoses(prev, segments, current);
      }
    }
  }

  /** While the pen is up, the rest of a joined path gives at most its drawn points back. */
  lemma TravelLoses(prev: Point, segments: seq<Segment>, current: Segment)
    requires Drawings(segments) && segments != [] && segments[0][0].z != 0.0
    ensures Count(SplitFrom(JoinAfter(prev, segments), current, false)) < |current| + Count(segments)
  {
    var s, rest := segments[0], segments[1..];
    var tail := JoinAfter(s[|s| - 1], rest);
    FirstIsLost(prev, s, tail, current);
    CountConcat(Closed(current), SplitFrom(s[1..] + tail, [], true));
    assert Count(Closed(current)) == |current|;
    TravelCount(s[1..], s[|s| - 1], rest, [], true);
  }

  /** The first point of a lifted segment is skipped when it is below the surface. */
  lemma FirstIsLost(prev: Point, s: Segment, tail: seq<Point>, current: Segment)
    requires s != [] && AllDrawn(s) && s[0].z != 0.0
    ensures SplitFrom([Lift(prev, s[0])] + s + tail, current, false) == Closed(current) + SplitFrom(s[1..] + tail, [], true)
  {
    var all := [Lift(prev, s[0])] + s + tail;
    assert all[1..] == s + tail && (s + tail)[1..] == s[1..] + tail;
  }

  /** Counting through a joined path from inside a segment: markers add nothing. */
  lemma {:induction false} TravelCount(s: seq<Point>, prev: Point, segments: seq<Segment>, current: Segment, travel: bool)
    requires Drawings(segments) && AllDrawn(s)
    ensures Count(SplitFrom(s + JoinAfter(prev, segments), current, travel)) <= |current| + |s| + Count(segments)
    decreases |segments|, |s|
  {
    hide SplitFrom, Count, Drawn;
    var tail := JoinAfter(prev, segments);
    ClosedCount(current);
    if s != [] {
      TravelCount(s[1..], prev, segments, current + [s[0]], false);
      TravelCount(s[1..], prev, segments, current, true);
      DrawnNext(s, tail, current, travel);
    } else if segments != [] {
      var t, rest := segments[0], segments[1..];
      TravelCount(t, t[|t| - 1], rest, [], true);
      CountConcat(Closed(current), SplitFrom(t + JoinAfter(t[|t| - 1], rest), [], true));
      LiftNext(prev, segments, current, travel);
    } else {
      NothingNext(current, travel);
    }
  }

  lemma ClosedCount(current: Segment)
    ensures Count(Closed(current)) == |current|
  {
  }

  /** A drawn point joins the current segment, or is skipped with the pen up below the surface. */
  lemma DrawnNext(s: seq<Point>, tail: seq<Point>, current: Segment, travel: bool)
    requires s != [] && Drawn(s[0])
    ensures SplitFrom(s + tail, current, travel)
         == if travel && s[0].z != 0.0 then SplitFrom(s[1..] + tail, current, true)
            else SplitFrom(s[1..] + tail, current + [s[0]], false)
  {
    assert (s + tail)[1..] == s[1..] + tail;
  }

  lemma LiftNext(prev: Point, segments: seq<Segment>, current: Segment, travel: bool)
    requires Drawings(segments) && segments != []
    ensures Drawings(segments[1..])
    ensures var t := segments[0];
      Count(segments) == |t| + Count(segments[1..])
      && SplitFrom([] + JoinAfter(prev, segments), current, travel)
         == Closed(current) + SplitFrom(t + JoinAfter(t[|t| - 1], segments[1..]), [], true)
  {
    var t := segments[0];
    assert Drawings(segments[1..]);
    var rest := JoinAfter(t[|t| - 1], segments[1..]);
    assert [] + JoinAfter(prev, segments) == [Lift(prev, t[0])] + (t + rest);
    hide JoinAfter, Closed, Drawn, Count;
    assert ([Lift(prev, t[0])] + (t + rest))[1..] == t + rest;
  }

  lemma NothingNext(current: Segment, travel: bool)
    ensures SplitFrom([] + [], current, travel) == Closed(current)
  {
  }

  /** Splitting a joined path gives the segments back exactly when each one after the first starts on
      the surface, as in every path that never goes below it. */
  lemma SplitJoin(segments: seq<Segment>)
    requires Drawings(segments)
    ensures Split(Join(segments)) == segments <==> StartsOnSurface(segments)
  {
    if segments == [] {
      assert Split([]) == [];
    } else {
      var s, rest := segments[0], segments[1..];
      var tail := JoinAfter(s[|s| - 1], rest);
      assert segments == [s] + rest;
      SplitDrawn(s, tail, []);
      assert [] + s == s;
      assert forall k :: 0 <= k < |rest| ==> rest[k] == segments[k + 1];
      if StartsOnSurface(segments) {
        SplitJoinAfter(s[|s| - 1], rest, s);
      } else {
        var k :| 0 < k < |segments| && segments[k][0].z != 0.0;
        assert rest[k - 1][0].z != 0.0;
        JoinLoses(s[|s| - 1], rest, s);
        assert Count(Split(Join(segments))) < Count(segments);
      }
    }
  }

  // ---------------------------------------------------------------- the greedy order

  /** A choice: which segment, and whether it is drawn backwards. */
  datatype Pick = Pick(index: nat, flipped: bool)

  function Facing(segments: seq<Segment>, p: Pick): Segment
    requires p.index < |segments|
  {
    if p.flipped then Rev(segments[p.index]) else segments[p.index]
  }

  /** The cheaper of the two ends of a segment. */
  function Cost(at: Point, s: Segment): (c: real)
    requires s != []
    ensures c >= 0.0
  {
    var normal, reversed := Apart(at, s[0]), Apart(at, s[|s| - 1]);
    if reversed < normal then reversed else normal
  }

  predicate FarEndNearer(at: Point, s: Segment)
    requires s != []
  {
    Apart(at, s[|s| - 1]) < Apart(at, s[0])
  }

  /** The greedy choice among the segments that are left: cheapest, then lowest index; the far end only
      when it is strictly nearer. */
  ghost predicate Nearest(segments: seq<Segment>, left: set<nat>, at: Point, p: Pick)
    requires Drawings(segments)
  {
    p.index in left && p.index < |segments|
    && (forall i :: i in left && i < |segments| ==> Cost(at, segments[p.index]) <= Cost(at, segments[i]))
    && (forall i :: i in left && i < p.index ==> Cost(at, segments[p.index]) < Cost(at, segments[i]))
    && p.flipped == FarEndNearer(at, segments[p.index])
  }

  function End(segments: seq<Segment>, p: Pick): Point
    requires Drawings(segments) && p.index < |segments|
  {
    var s := Facing(segments, p);
    s[|s| - 1]
  }

  /** A greedy tour: from `at`, each pick is the nearest of what is left. */
  ghost predicate Greedy(segments: seq<Segment>, left: set<nat>, at: Point, picks: seq<Pick>)
    requires Drawings(segments)
    decreases |picks|
  {
    if picks == [] then left == {}
    else
      Nearest(segments, left, at, picks[0])
      && Greedy(segments, left - {picks[0].index}, End(segments, picks[0]), picks[1..])
  }

  function Everything(n: nat): (r: set<nat>)
    ensures forall i :: i in r <==> 0 <= i < n
    ensures |r| == n
  {
    if n == 0 then {} else Everything(n - 1) + {n - 1}
  }

  /** The whole tour: the first segment as it is, then greedily the others. */
  ghost predicate GreedyOrder(segments: seq<Segment>, picks: seq<Pick>)
    requires Drawings(segments)
  {
    if segments == [] then picks == []
    else
      picks != [] && picks[0] == Pick(0, false)
      && Greedy(segments, Everything(|segments|) - {0}, End(segments, picks[0]), picks[1..])
  }

  function Ordered(segments: seq<Segment>, picks: seq<Pick>): (r: seq<Segment>)
    requires forall k :: 0 <= k < |picks| ==> picks[k].index < |segments|
    ensures |r| == |picks| && forall k :: 0 <= k < |r| ==> r[k] == Facing(segments, picks[k])
  {
    seq(|picks|, k requires 0 <= k < |picks| => Facing(segments, picks[k]))
  }

  /** The greedy tour is the only one with its property. */
  lemma {:induction false} GreedyUnique(segments: seq<Segment>, left: set<nat>, at: Point, a: seq<Pick>, b: seq<Pick>)
    requires Drawings(segments) && Greedy(segments, left, at, a) && Greedy(segments, left, at, b)
    ensures a == b
    decreases |a|
  {
    if a != [] && b != [] {
      NearestUnique(segments, left, at, a[0], b[0]);
      GreedyUnique(segments, left - {a[0].index}, End(segments, a[0]), a[1..], b[1..]);
      assert a == [a[0]] + a[1..] && b == [b[0]] + b[1..];
    }
  }

  lemma NearestUnique(segments: seq<Segment>, left: set<nat>, at: Point, p: Pick, q: Pick)
    requires Drawings(segments) && Nearest(segments, left, at, p) && Nearest(segments, left, at, q)
    ensures p == q
  {
    hide Cost, Apart;
  }

  function Indices(picks: seq<Pick>): seq<nat> {
    if picks == [] then [] else [picks[0].index] + Indices(picks[1..])
  }

  /** A greedy tour visits each segment that was left exactly once. */
  lemma {:induction false} GreedyVisits(segments: seq<Segment>, left: set<nat>, at: Point, picks: seq<Pick>)
    requires Drawings(segments) && Greedy(segments, left, at, picks)
    ensures multiset(Indices(picks)) == multiset(left)
    ensures forall k :: 0 <= k < |picks| ==> picks[k].index < |segments|
    decreases |picks|
  {
    hide Nearest, End;
    if picks != [] {
      var i := picks[0].index;
      NearestIn(segments, left, at, picks[0]);
      GreedyVisits(segments, left - {i}, End(segments, picks[0]), picks[1..]);
      TakenFirst(left, i, Indices(picks[1..]));
    }
  }

  lemma TakenFirst(left: set<nat>, i: nat, rest: seq<nat>)
    requires i in left && multiset(rest) == multiset(left - {i})
    ensures multiset([i] + rest) == multiset(left)
  {
    assert left == (left - {i}) + {i};
  }

  lemma NearestIn(segments: seq<Segment>, left: set<nat>, at: Point, p: Pick)
    requires Drawings(segments) && Nearest(segments, left, at, p)
    ensures p.index in left && p.index < |segments|
  {
  }

  // ---------------------------------------------------------------- the points drawn

  function Points(segments: seq<Segment>): multiset<Point> {
    if segments == [] then multiset{} else multiset(segments[0]) + Points(segments[1..])
  }

  function PointsOf(segments: seq<Segment>, indices: set<nat>): multiset<Point> {
    PointsUpTo(segments, indices, |segments|)
  }

  function PointsUpTo(segments: seq<Segment>, indices: set<nat>, n: nat): multiset<Point>
    requires n <= |segments|
  {
    if n == 0 then multiset{}
    else PointsUpTo(segments, indices, n - 1) + if n - 1 in indices then multiset(segments[n - 1]) else multiset{}
  }

  lemma {:induction false} WithoutOne(segments: seq<Segment>, indices: set<nat>, i: nat, n: nat)
    requires n <= |segments| && i in indices && i < |segments|
    ensures PointsUpTo(segments, indices, n)
      == PointsUpTo(segments, indices - {i}, n) + if i < n then multiset(segments[i]) else multiset{}
  {
    if n > 0 { WithoutOne(segments, indices, i, n - 1); }
  }

  lemma {:induction false} ReversedBag(s: Segment)
    ensures multiset(Rev(s)) == multiset(s)
  {
    if s == [] {
      assert Rev(s) == s;
    } else {
      var rest := s[1..];
      ReversedBag(rest);
      assert Rev(s) == Rev(rest) + [s[0]];
      assert s == [s[0]] + rest;
    }
  }

  lemma PointsTail(segments: seq<Segment>, picks: seq<Pick>)
    requires picks != [] && forall k :: 0 <= k < |picks| ==> picks[k].index < |segments|
    ensures forall k :: 0 <= k < |picks[1..]| ==> picks[1..][k].index < |segments|
    ensures Points(Ordered(segments, picks)) == multiset(Facing(segments, picks[0])) + Points(Ordered(segments, picks[1..]))
  {
    hide Facing;
    var rest := picks[1..];
    assert forall k :: 0 <= k < |rest| ==> rest[k] == picks[k + 1];
    assert Ordered(segments, picks)[1..] == Ordered(segments, rest);
  }

  lemma {:induction false} GreedyPoints(segments: seq<Segment>, left: set<nat>, at: Point, picks: seq<Pick>)
    requires Drawings(segments) && Greedy(segments, left, at, picks)
    requires forall k :: 0 <= k < |picks| ==> picks[k].index < |segments|
    ensures Points(Ordered(segments, picks)) == PointsOf(segments, left)
    decreases |picks|
  {
    if picks == [] {
      NoPoints(segments, |segments|);
      return;
    }
    hide Nearest, Points;
    var p := picks[0];
    NearestIn(segments, left, at, p);
    PointsTail(segments, picks);
    GreedyPoints(segments, left - {p.index}, End(segments, p), picks[1..]);
    WithoutOne(segments, left, p.index, |segments|);
    ReversedBag(segments[p.index]);
  }

  lemma {:induction false} NoPoints(segments: seq<Segment>, n: nat)
    requires n <= |segments|
    ensures PointsUpTo(segments, {}, n) == multiset{}
  {
    if n > 0 { NoPoints(segments, n - 1); }
  }

  lemma {:induction false} AllPoints(segments: seq<Segment>, n: nat)
    requires n <= |segments|
    ensures PointsUpTo(segments, Everything(|segments|), n) == Points(segments[..n])
  {
    if n > 0 {
      AllPoints(segments, n - 1);
      assert segments[..n] == segments[..n - 1] + [segments[n - 1]];
      PointsConcat(segments[..n - 1], [segments[n - 1]]);
    }
  }

  lemma {:induction false} PointsConcat(a: seq<Segment>, b: seq<Segment>)
    ensures Points(a + b) == Points(a) + Points(b)
  {
    if a == [] {
      assert a + b == b;
    } else {
      assert (a + b)[1..] == a[1..] + b;
      PointsConcat(a[1..], b);
    }
  }

  /** The whole tour visits every segment once. */
  lemma OrderVisits(segments: seq<Segment>, picks: seq<Pick>)
    requires Drawings(segments) && GreedyOrder(segments, picks)
    ensures multiset(Indices(picks)) == multiset(Everything(|segments|))
    ensures forall k :: 0 <= k < |picks| ==> picks[k].index < |segments|
  {
    hide Greedy;
    if segments != [] {
      var all := Everything(|segments|);
      GreedyVisits(segments, all - {0}, End(segments, picks[0]), picks[1..]);
      assert all == (all - {0}) + {0};
    }
  }

  /** `start` is, of all ends of the segments that `left` names, none further from `at` than any, and strictly nearer than
      the ends of those before `first`. */
  ghost predicate NoneNearer(segments: seq<Segment>, left: iset<nat>, at: Point, start: Point, first: nat)
    requires Drawings(segments)
  {
    forall i :: i in left && i < |segments| ==>
      var s := segments[i];
      && Apart(at, start) <= Apart(at, s[0]) && Apart(at, start) <= Apart(at, s[|s| - 1])
      && (i < first ==> Apart(at, start) < Apart(at, s[0]) && Apart(at, start) < Apart(at, s[|s| - 1]))
  }

  lemma PickStarts(segments: seq<Segment>, left: set<nat>, at: Point, p: Pick, all: iset<nat>)
    requires Drawings(segments) && Nearest(segments, left, at, p) && forall i :: i in all ==> i in left
    ensures NoneNearer(segments, all, at, Facing(segments, p)[0], p.index)
    ensures var s := segments[p.index]; p.flipped <==> Apart(at, s[|s| - 1]) < Apart(at, s[0])
  {
    hide Apart;
    RevAt(segments[p.index], 0);
  }

  lemma {:induction false} GreedyAt(segments: seq<Segment>, left: set<nat>, at: Point, picks: seq<Pick>, k: nat)
    returns (left1: set<nat>)
    requires Drawings(segments) && Greedy(segments, left, at, picks) && k < |picks|
    requires forall j :: 0 <= j < |picks| ==> picks[j].index < |segments|
    ensures Nearest(segments, left1, if k == 0 then at else End(segments, picks[k - 1]), picks[k])
    ensures forall i :: i in left && (forall j :: 0 <= j < k ==> picks[j].index != i) ==> i in left1
    decreases k
  {
    hide Nearest, End;
    if k == 0 {
      left1 := left;
    } else {
      var rest := picks[1..];
      left1 := GreedyAt(segments, left - {picks[0].index}, End(segments, picks[0]), rest, k - 1);
      forall i | i in left && (forall j :: 0 <= j < k ==> picks[j].index != i) ensures i in left1 {
        assert forall j :: 0 <= j < k - 1 ==> rest[j] == picks[j + 1];
      }
    }
  }

  /** One of the first `k` picks is segment `i`. */
  predicate Taken(picks: seq<Pick>, k: nat, i: nat)
    requires k <= |picks|
  {
    exists j :: 0 <= j < k && picks[j].index == i
  }

  ghost function Undrawn(picks: seq<Pick>, k: nat): iset<nat>
    requires k <= |picks|
  {
    iset i: nat | !Taken(picks, k, i)
  }

  /** The tour begins with the first segment as it is; each later one begins, as it is drawn, at the end nearest to the
      pen of all ends that are left, the first such segment, and it is turned only if its far end is strictly nearer. */
  lemma TourTakesNearest(segments: seq<Segment>, picks: seq<Pick>, k: nat)
    requires Drawings(segments) && GreedyOrder(segments, picks) && 0 < k < |picks|
    requires forall j :: 0 <= j < |picks| ==> picks[j].index < |segments|
    ensures Ordered(segments, picks)[0] == segments[0] && Ordered(segments, picks)[k - 1] != []
    ensures var (before, chosen) := (Ordered(segments, picks)[k - 1], segments[picks[k].index]);
      var pen := before[|before| - 1];
      && Ordered(segments, picks)[k] != []
      && NoneNearer(segments, Undrawn(picks, k), pen, Ordered(segments, picks)[k][0], picks[k].index)
      && Ordered(segments, picks)[k] == if Apart(pen, chosen[|chosen| - 1]) < Apart(pen, chosen[0]) then Rev(chosen) else chosen
  {
    hide Apart, Nearest, NoneNearer, Greedy;
    var others := iset i | i in Undrawn(picks, k) && i < |segments|;
    var rest := picks[1..];
    var left := GreedyAt(segments, Everything(|segments|) - {0}, End(segments, picks[0]), rest, k - 1);
    assert k > 1 ==> rest[k - 2] == picks[k - 1];
    var pen := End(segments, picks[k - 1]);
    forall i | i in others ensures i in left {
      assert picks[0].index != i;
      assert forall j :: 0 <= j < k - 1 ==> rest[j] == picks[j + 1];
    }
    PickStarts(segments, left, pen, picks[k], others);
    OnlyListed(segments, Undrawn(picks, k), others, pen, Facing(segments, picks[k])[0], picks[k].index);
  }

  lemma OnlyListed(segments: seq<Segment>, wide: iset<nat>, narrow: iset<nat>, at: Point, start: Point, first: nat)
    requires Drawings(segments) && NoneNearer(segments, narrow, at, start, first)
    requires forall i :: i in wide && i < |segments| ==> i in narrow
    ensures NoneNearer(segments, wide, at, start, first)
  {
    hide Apart;
  }

  /** Reordering conserves the drawn points as a bag. */
  lemma OrderConserves(segments: seq<Segment>, picks: seq<Pick>)
    requires Drawings(segments) && GreedyOrder(segments, picks)
    requires forall k :: 0 <= k < |picks| ==> picks[k].index < |segments|
    ensures Points(Ordered(segments, picks)) == Points(segments)
  {
    hide Greedy, PointsUpTo, Points, Drawings, Ordered, Facing, End, Everything;
    if segments == [] {
      assert Ordered(segments, picks) == segments;
    } else {
      var rest := picks[1..];
      PointsTail(segments, picks);
      FacingFirst(segments, picks[0]);
      GreedyPoints(segments, Everything(|segments|) - {0}, End(segments, picks[0]), rest);
      AllButFirst(segments);
    }
  }

  lemma FacingFirst(segments: seq<Segment>, p: Pick)
    requires segments != [] && p == Pick(0, false)
    ensures Facing(segments, p) == segments[0]
  {
  }

  lemma AllButFirst(segments: seq<Segment>)
    requires segments != []
    ensures Points(segments) == multiset(segments[0]) + PointsOf(segments, Everything(|segments|) - {0})
  {
    hide Points, PointsUpTo, Everything;
    WithoutOne(segments, Everything(|segments|), 0, |segments|);
    AllPoints(segments, |segments|);
    assert segments[..|segments|] == segments;
  }

  /** Drawn segments stay drawn in any order and direction. */
  lemma OrderedDrawings(segments: seq<Segment>, picks: seq<Pick>)
    requires Drawings(segments) && forall k :: 0 <= k < |picks| ==> picks[k].index < |segments|
    ensures Drawings(Ordered(segments, picks))
  {
    var ordered := Ordered(segments, picks);
    forall k | 0 <= k < |ordered| ensures ordered[k] != [] && AllDrawn(ordered[k]) {
      var s := segments[picks[k].index];
      assert s != [] && AllDrawn(s);
      RevAll(s);
    }
  }

  /** The picks order these segments greedily. */
  ghost predicate IsOrderOf(segments: seq<Segment>, picks: seq<Pick>) {
    Drawings(segments) && GreedyOrder(segments, picks) && (forall k :: 0 <= k < |picks| ==> picks[k].index < |segments|)
    && Drawings(Ordered(segments, picks))
  }

  // ---------------------------------------------------------------- the loops

  /** The inner loop: the nearest segment that is not visited. */
  method PickNearest(segments: seq<Segment>, visited: seq<bool>, at: Point) returns (best: Pick)
    requires Drawings(segments) && |visited| == |segments|
    requires exists i :: 0 <= i < |visited| && !visited[i]
    ensures Nearest(segments, Left(visited), at, best)
  {
    hide Apart;
    var found := false;
    var cost := 0.0;
    best := Pick(0, false);
    for i := 0 to |segments|
      invariant !found ==> forall j :: 0 <= j < i ==> visited[j]
      invariant found ==> best.index < i && !visited[best.index] && cost == Cost(at, segments[best.index])
      invariant found ==> forall j :: 0 <= j < i && !visited[j] ==> cost <= Cost(at, segments[j])
      invariant found ==> forall j :: 0 <= j < best.index && !visited[j] ==> cost < Cost(at, segments[j])
      invariant found ==> best.flipped == FarEndNearer(at, segments[best.index])
    {
      if visited[i] { continue; }
      var s := segments[i];
      var normal, reversed := Apart(at, s[0]), Apart(at, s[|s| - 1]);
      if reversed < normal && (!found || reversed < cost) {
        found, cost, best := true, reversed, Pick(i, true);
      } else if !found || normal < cost {
        found, cost, best := true, normal, Pick(i, false);
      }
    }
  }

  function Left(visited: seq<bool>): set<nat> {
    set i: nat | i < |visited| && !visited[i]
  }

  /** Greedy picks that lead from (`left`, `at`) to (`left1`, `at1`). */
  ghost predicate SoFar(segments: seq<Segment>, left: set<nat>, at: Point, picks: seq<Pick>, left1: set<nat>, at1: Point)
    requires Drawings(segments)
    decreases |picks|
  {
    if picks == [] then left == left1 && at == at1
    else
      Nearest(segments, left, at, picks[0])
      && SoFar(segments, left - {picks[0].index}, End(segments, picks[0]), picks[1..], left1, at1)
  }

  lemma NothingYet(segments: seq<Segment>, left: set<nat>, at: Point)
    requires Drawings(segments)
    ensures SoFar(segments, left, at, [], left, at)
  {
  }

  lemma {:induction false} OneMore(segments: seq<Segment>, left: set<nat>, at: Point, picks: seq<Pick>, left1: set<nat>,
                                   at1: Point, p: Pick)
    requires Drawings(segments) && SoFar(segments, left, at, picks, left1, at1) && Nearest(segments, left1, at1, p)
    ensures SoFar(segments, left, at, picks + [p], left1 - {p.index}, End(segments, p))
    decreases |picks|
  {
    hide Nearest;
    NearestIn(segments, left1, at1, p);
    var more := picks + [p];
    if picks == [] {
      assert more[1..] == [];
    } else {
      NearestIn(segments, left, at, picks[0]);
      OneMore(segments, left - {picks[0].index}, End(segments, picks[0]), picks[1..], left1, at1, p);
      assert more[1..] == picks[1..] + [p];
    }
  }

  lemma {:induction false} NoneLeft(segments: seq<Segment>, left: set<nat>, at: Point, picks: seq<Pick>, at1: Point)
    requires Drawings(segments) && SoFar(segments, left, at, picks, {}, at1)
    ensures Greedy(segments, left, at, picks)
    decreases |picks|
  {
    hide Nearest;
    if picks != [] {
      NearestIn(segments, left, at, picks[0]);
      NoneLeft(segments, left - {picks[0].index}, End(segments, picks[0]), picks[1..], at1);
    }
  }

  /** The greedy loop, with the picks it makes. */
  method ReorderSegments(segments: seq<Segment>) returns (ordered: seq<Segment>, ghost picks: seq<Pick>)
    requires Drawings(segments)
    ensures GreedyOrder(segments, picks) && (forall k :: 0 <= k < |picks| ==> picks[k].index < |segments|)
    ensures ordered == Ordered(segments, picks)
  {
    hide Nearest, Apart, AllDrawn, SoFar, Greedy;
    picks := [];
    if segments == [] { return [], []; }
    var visited := seq(|segments|, i => i == 0);
    ghost var others := Everything(|segments|) - {0};
    ghost var first := Pick(0, false);
    ordered := [segments[0]];
    picks := [first];
    var at := segments[0][|segments[0]| - 1];
    ghost var rest: seq<Pick> := [];
    assert Left(visited) == others;
    NothingYet(segments, others, at);
    while |ordered| < |segments|
      invariant |visited| == |segments| && |ordered| == |rest| + 1 && picks == [first] + rest
      invariant |Left(visited)| == |segments| - |ordered|
      invariant forall k :: 0 <= k < |picks| ==> picks[k].index < |segments|
      invariant ordered == Ordered(segments, picks)
      invariant SoFar(segments, others, End(segments, first), rest, Left(visited), at)
    {
      SomeLeft(visited);
      var best := PickNearest(segments, visited, at);
      ghost var before := Left(visited);
      NearestIn(segments, before, at, best);
      OneMore(segments, others, End(segments, first), rest, before, at, best);
      visited := visited[best.index := true];
      assert Left(visited) == before - {best.index};
      var s := Facing(segments, best);
      ordered := ordered + [s];
      at := s[|s| - 1];
      rest := rest + [best];
      picks := picks + [best];
    }
    assert Left(visited) == {};
    NoneLeft(segments, others, End(segments, first), rest, at);
    assert picks[1..] == rest;
  }

  lemma SomeLeft(visited: seq<bool>)
    requires |Left(visited)| > 0
    ensures exists i :: 0 <= i < |visited| && !visited[i]
  {
    var i :| i in Left(visited);
  }

  /** The joining loop. */
  method JoinSegments(ordered: seq<Segment>) returns (result: seq<Point>)
    requires Drawings(ordered)
    ensures result == Join(ordered)
  {
    result := [];
    if ordered == [] { return; }
    result := ordered[0];
    for i := 1 to |ordered|
      invariant result != [] && Join(ordered) == result + JoinAfter(result[|result| - 1], ordered[i..])
    {
      var prev, s := result[|result| - 1], ordered[i];
      assert ordered[i..][1..] == ordered[i + 1..] && ordered[i..][0] == s;
      Regroup(result, Lift(prev, s[0]), s, JoinAfter(s[|s| - 1], ordered[i + 1..]));
      result := result + [Lift(prev, s[0])];
      result := result + s;
    }
    assert result + [] == result;
  }

  lemma Regroup(a: seq<Point>, p: Point, s: seq<Point>, b: seq<Point>)
    ensures a + ([p] + s + b) == a + [p] + s + b
  {
  }

  method OptimizeTravel(path: seq<Point>) returns (result: seq<Point>, ghost picks: seq<Pick>)
    ensures |Split(path)| <= 1 ==> result == path
    ensures |Split(path)| > 1 ==> IsOrderOf(Split(path), picks) && result == Join(Ordered(Split(path), picks))
  {
    hide GreedyOrder, Drawings;
    var segments := SplitByPenUp(path);
    picks := [];
    if |segments| <= 1 { return path, []; }
    SplitDraws(path, [], false);
    var ordered;
    ordered, picks := ReorderSegments(segments);
    OrderedDrawings(segments, picks);
    result := JoinSegments(ordered);
  }

  /** For a path that never goes below the surface, splitting the optimised path gives exactly the greedy
      order: a permutation of its segments, each kept or reversed whole, with the drawn points conserved. */
  lemma TravelRoundTrip(path: seq<Point>, picks: seq<Pick>)
    requires forall i :: 0 <= i < |path| ==> path[i].z >= 0.0
    requires IsOrderOf(Split(path), picks)
    ensures Split(Join(Ordered(Split(path), picks))) == Ordered(Split(path), picks)
    ensures Points(Split(Join(Ordered(Split(path), picks)))) == Points(Split(path))
    ensures multiset(Indices(picks)) == multiset(Everything(|Split(path)|))
  {
    var segments := Split(path);
    SplitFlat(path, [], false);
    var ordered: seq<Segment> := Ordered(segments, picks);
    forall k | 0 < k < |ordered| ensures ordered[k][0].z == 0.0 {
      assert AllFlat(segments[picks[k].index]);
      RevAll(segments[picks[k].index]);
    }
    SplitJoin(ordered);
    OrderVisits(segments, picks);
    OrderConserves(segments, picks);
  }

  predicate AllFlat(s: Segment) {
    forall i :: 0 <= i < |s| ==> s[i].z == 0.0
  }

  lemma {:induction false} SplitFlat(path: seq<Point>, current: Segment, travel: bool)
    requires AllFlat(current) && forall i :: 0 <= i < |path| ==> path[i].z >= 0.0
    ensures forall k :: 0 <= k < |SplitFrom(path, current, travel)| ==> AllFlat(SplitFrom(path, current, travel)[k])
    decreases |path|
  {
    if path != [] {
      var p, rest := path[0], path[1..];
      assert p.z >= 0.0;
      SplitFlat(rest, [], true);
      if p.z == 0.0 { SplitFlat(rest, current + [p], false); }
      SplitFlat(rest, current, true);
    }
  }
}
