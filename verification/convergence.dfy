/** `calculate_tolerance` (kmeans.py:90-100), the relative displacement of the
    centroids between two updates, and the body of the driving loop
    (kmeans.py:118-120) built from the three steps. */
module Convergence {
  import opened Geometry
  import opened Membership
  import opened KMeans
  import opened Update

  /** A cluster is measured only when neither coordinate of its previous
      centroid is zero; otherwise it contributes nothing. */
  predicate Measured(prev: Point)
  {
    prev.x != 0.0 && prev.y != 0.0
  }

  /** `a / b` for a positive `b`, named so that its two facts are stated once. */
  function Ratio(a: real, b: real): (q: real)
    requires a >= 0.0 && b > 0.0
    ensures q >= 0.0
    ensures q == 0.0 <==> a == 0.0
  {
    a / b
  }

  /** The relative movement of one centroid, summed over both axes. */
  function Displacement(cur: Point, prev: Point): (r: real)
    ensures r >= 0.0
    ensures !Measured(prev) ==> r == 0.0
    ensures Measured(prev) ==> (r == 0.0 <==> cur == prev)
  {
    if Measured(prev) then
      Ratio(Abs(cur.x - prev.x), Abs(prev.x)) + Ratio(Abs(cur.y - prev.y), Abs(prev.y))
    else
      0.0
  }

  /** The loop's running total after the first `n` clusters. It is zero
      exactly when every measured cluster among them has not moved. */
  function TotalDisplacement(current: seq<Point>, previous: seq<Point>, n: nat): (t: real)
    requires n <= |current| && n <= |previous|
    ensures t >= 0.0
    ensures t == 0.0 <==> forall c :: 0 <= c < n && Measured(previous[c]) ==> current[c] == previous[c]
  {
    if n == 0 then 0.0
    else TotalDisplacement(current, previous, n - 1) + Displacement(current[n - 1], previous[n - 1])
  }

  /** `calculate_tolerance`: a non-negative total, zero exactly when every
      cluster whose previous centroid has no zero coordinate is where it was. */
  function CalculateTolerance(s: State): (t: real)
    requires Valid(s)
    ensures t >= 0.0
    ensures t == 0.0 <==> forall c :: 0 <= c < s.k && Measured(s.previous[c]) ==> s.current[c] == s.previous[c]
  {
    TotalDisplacement(s.current, s.previous, s.k)
  }

  /** The loop's exit test: the total no longer exceeds the tolerance. */
  predicate Converged(s: State)
    requires Valid(s)
  {
    CalculateTolerance(s) <= s.tolerance
  }

  lemma {:induction false} UnmeasuredIgnoredUpTo(current: seq<Point>, previous: seq<Point>, c: nat, p: Point, n: nat)
    requires n <= |current| && n <= |previous| && c < |current| && c < |previous|
    requires !Measured(previous[c])
    ensures TotalDisplacement(current[c := p], previous, n) == TotalDisplacement(current, previous, n)
  {
    if n > 0 {
      UnmeasuredIgnoredUpTo(current, previous, c, p, n - 1);
    }
  }

  /** The skip rule: whatever a cluster with a zero previous coordinate does,
      the total is the same. */
  lemma UnmeasuredClusterIgnored(s: State, c: nat, p: Point)
    requires Valid(s) && c < s.k
    requires !Measured(s.previous[c])
    ensures CalculateTolerance(s.(current := s.current[c := p])) == CalculateTolerance(s)
  {
    UnmeasuredIgnoredUpTo(s.current, s.previous, c, p, s.k);
  }

  lemma {:induction false} SentinelTotalUpTo(current: seq<Point>, previous: seq<Point>, n: nat)
    requires n <= |current| && n <= |previous|
    requires forall c :: 0 <= c < n ==> previous[c] == Sentinel && InDrawRange(current[c])
    ensures TotalDisplacement(current, previous, n) >= 2.0 * n as real
  {
    if n > 0 {
      SentinelTotalUpTo(current, previous, n - 1);
      var cur := current[n - 1];
      assert Displacement(cur, Sentinel) == (cur.x + 1.0) + (cur.y + 1.0);
    }
  }

  /** The first measurement, taken while `previous` still holds the sentinel
      and `current` the random centroids, is at least 2 per cluster: each
      coordinate is at least 0, so at least 1 away from -1 in relative terms. */
  lemma FirstToleranceAtLeastTwoPerCluster(s: State)
    requires Valid(s)
    requires forall c :: 0 <= c < s.k ==> s.previous[c] == Sentinel && InDrawRange(s.current[c])
    ensures CalculateTolerance(s) >= 2.0 * s.k as real
  {
    SentinelTotalUpTo(s.current, s.previous, s.k);
  }

  /** Right after construction and initialisation with at least one cluster
      and a tolerance below 2 per cluster (the default is 0.001), the loop is
      entered: at least one assign-update round always runs. */
  lemma FirstCheckForcesIteration(points: seq<Point>, numberOfClusters: int, tolerance: real, draws: seq<Point>)
    requires numberOfClusters >= 1 && tolerance < 2.0 * numberOfClusters as real
    requires forall u :: u in draws ==> UnitDraw(u)
    requires InitializeCentroid(Create(points, numberOfClusters, tolerance), draws).Some?
    ensures !Converged(InitializeCentroid(Create(points, numberOfClusters, tolerance), draws).value)
  {
    var s := InitializeCentroid(Create(points, numberOfClusters, tolerance), draws).value;
    FirstToleranceAtLeastTwoPerCluster(s);
  }

  /** One round of the driving loop: assign, then update. The assignment
      establishes what the update needs, and the update records the
      centroids the round started from. */
  function Step(s: State, picks: seq<nat>): (r: State)
    requires Valid(s) && s.initialised
    requires |picks| == |s.points|
    requires s.k > 0 || |s.points| == 0
    ensures Valid(r) && Assigned(r) && r.initialised
    ensures r.points == s.points && r.k == s.k && r.tolerance == s.tolerance
    ensures r.previous == s.current
  {
    UpdateCentroid(AssignPoints(s, picks))
  }

  /** A Lloyd fixed point is reported as converged: when every centroid
      already equals what the round would compute for it (the mean of the
      points nearest to it, or the origin when none is), the round leaves the
      centroids in place and the next measurement is zero. */
  lemma FixedPointConverges(s: State, picks: seq<nat>)
    requires Valid(s) && s.initialised
    requires |picks| == |s.points|
    requires s.k > 0 || |s.points| == 0
    requires s.tolerance >= 0.0
    requires var labels := AssignPoints(s, picks).assignment;
             forall c :: 0 <= c < s.k ==>
               var n := Count(labels, c);
               s.current[c] == if n > 0 then Point(SumX(s.points, labels, c) / n as real, SumY(s.points, labels, c) / n as real)
                               else Point(0.0, 0.0)
    ensures Step(s, picks).current == s.current
    ensures CalculateTolerance(Step(s, picks)) == 0.0
    ensures Converged(Step(s, picks))
  {
    var r := Step(s, picks);
    assert forall c :: 0 <= c < s.k ==> r.current[c] == s.current[c];
  }

  /** One round over a single point with a single cluster, whatever the
      centroid and the draw: the point is labelled 0 and the centroid moves
      onto it. */
  lemma OnePointRound(s: State, pick: nat)
    requires Valid(s) && s.initialised
    requires |s.points| == 1 && s.k == 1
    ensures Step(s, [pick]).assignment == [0]
    ensures Step(s, [pick]).current == s.points
  {
    var a := AssignPoints(s, [pick]);
    assert a.assignment == [0];
    var p := s.points[0];
    assert s.points == [p];
    assert Count([0], 0) == 1;
    assert SumX([p], [0], 0) == p.x;
    assert SumY([p], [0], 0) == p.y;
  }

  /** A single point (1, 1) with one cluster: whatever the random draw, the
      first round labels the point 0 and moves the centroid onto it, and the
      second round finds nothing left to move. */
  lemma SinglePointSettles(u: Point, pick1: nat, pick2: nat)
    requires UnitDraw(u)
    ensures InitializeCentroid(Create([Point(1.0, 1.0)], 1, DefaultTolerance), [u]).Some?
    ensures var s1 := InitializeCentroid(Create([Point(1.0, 1.0)], 1, DefaultTolerance), [u]).value;
            var s2 := Step(s1, [pick1]);
            s2.assignment == [0] && s2.current == [Point(1.0, 1.0)] && Converged(Step(s2, [pick2]))
  {
    InitializeTakesFirstDistinctDraws([Point(1.0, 1.0)], 1, DefaultTolerance, [u]);
    assert FreshDraws([], [u]) == [Scale(u)];
    var s1 := InitializeCentroid(Create([Point(1.0, 1.0)], 1, DefaultTolerance), [u]).value;
    OnePointRound(s1, pick1);
    var s2 := Step(s1, [pick1]);
    OnePointRound(s2, pick2);
    var s3 := Step(s2, [pick2]);
    assert s3.current == s3.previous;
  }
}
