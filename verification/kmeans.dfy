/** The state of the `KMeans` class (kmeans.py:31-43) and its first two
    steps: centroid initialisation and nearest-centroid assignment. */
module KMeans {
  import opened Geometry
  import opened Closest

  datatype Option<T> = None | Some(value: T)

  /** The coordinate both centroid lists hold before initialisation. */
  const Sentinel: Point := Point(-1.0, -1.0)

  /** The label of a point that has not been assigned yet. */
  const Unassigned: int := -1

  /** The tolerance used when the caller gives none. */
  const DefaultTolerance: real := 0.001

  /** A random centroid coordinate is a unit draw times this factor. */
  const DrawScale: real := 6.0

  /** The engine's fields. `k` is the number of clusters; `assignment` holds one
      label per point; `current` and `previous` hold one centroid per cluster.
      `initialised` records whether `initialize_centroid` has run: until it
      has, the k entries of the centroid list are one shared list object. */
  datatype State = State(
    points: seq<Point>,
    k: nat,
    assignment: seq<int>,
    current: seq<Point>,
    previous: seq<Point>,
    tolerance: real,
    initialised: bool)

  /** The shape every operation keeps: one label per point, k centroids in
      each list. */
  predicate Valid(s: State)
  {
    |s.assignment| == |s.points| && |s.current| == s.k && |s.previous| == s.k
  }

  /** Every label names a cluster, which is what the update step needs. */
  predicate Assigned(s: State)
  {
    forall i :: 0 <= i < |s.assignment| ==> 0 <= s.assignment[i] < s.k
  }

  /** The constructor. A negative cluster count yields empty centroid lists
      and empty loops, exactly as a count of zero does, so it is stored as 0. */
  function Create(points: seq<Point>, numberOfClusters: int, tolerance: real): (s: State)
    ensures Valid(s) && !s.initialised
    ensures s.points == points && s.tolerance == tolerance
    ensures s.k == if numberOfClusters < 0 then 0 else numberOfClusters
    ensures forall i :: 0 <= i < |s.assignment| ==> s.assignment[i] == Unassigned
    ensures forall c :: 0 <= c < s.k ==> s.current[c] == Sentinel && s.previous[c] == Sentinel
  {
    var k := if numberOfClusters < 0 then 0 else numberOfClusters;
    State(points, k, seq(|points|, _ => Unassigned), seq(k, _ => Sentinel), seq(k, _ => Sentinel), tolerance, false)
  }

  // ---------------------------------------------------------------------
  // initialize_centroid (kmeans.py:45-54)
  // ---------------------------------------------------------------------

  /** A pair of `random.random()` results: each in [0, 1). */
  predicate UnitDraw(u: Point)
  {
    0.0 <= u.x < 1.0 && 0.0 <= u.y < 1.0
  }

  predicate InDrawRange(p: Point)
  {
    0.0 <= p.x < DrawScale && 0.0 <= p.y < DrawScale
  }

  function Scale(u: Point): (p: Point)
    requires UnitDraw(u)
    ensures InDrawRange(p)
  {
    Point(u.x * DrawScale, u.y * DrawScale)
  }

  /** No centroid occurs twice. */
  predicate Distinct(cs: seq<Point>)
  {
    forall i, j :: 0 <= i < j < |cs| ==> cs[i] != cs[j]
  }

  /** The loops of `initialize_centroid` from cluster `i` on. Each iteration
      of the inner loop consumes one draw; a scaled draw equal to any entry of
      the centroid list is rejected, otherwise it becomes centroid `i`. The
      random generator is the finite sequence `draws`: when it runs out before
      every cluster is placed the result is None. */
  function PlaceCentroids(current: seq<Point>, i: nat, draws: seq<Point>): (r: Option<seq<Point>>)
    requires i <= |current|
    requires forall u :: u in draws ==> UnitDraw(u)
    requires forall j :: 0 <= j < i ==> InDrawRange(current[j])
    requires Distinct(current[..i])
    ensures r.Some? ==> |r.value| == |current| && r.value[..i] == current[..i]
    ensures r.Some? ==> Distinct(r.value)
    ensures r.Some? ==> forall c :: 0 <= c < |r.value| ==> InDrawRange(r.value[c])
    decreases |draws|
  {
    if i == |current| then
      assert current[..i] == current;
      Some(current)
    else if |draws| == 0 then
      None
    else
      var candidate := Scale(draws[0]);
      if candidate in current then
        PlaceCentroids(current, i, draws[1..])
      else
        var next := current[i := candidate];
        assert next[..i + 1] == current[..i] + [candidate];
        PlaceCentroids(next, i + 1, draws[1..])
  }

  /** `initialize_centroid`: on success, k pairwise distinct centroids with
      both coordinates in [0, 6); nothing but the current centroids changes. */
  function InitializeCentroid(s: State, draws: seq<Point>): (r: Option<State>)
    requires Valid(s)
    requires forall u :: u in draws ==> UnitDraw(u)
    ensures r.Some? ==> Valid(r.value) && r.value.initialised
    ensures r.Some? ==> r.value == s.(current := r.value.current, initialised := true)
    ensures r.Some? ==> Distinct(r.value.current)
    ensures r.Some? ==> forall c :: 0 <= c < r.value.k ==> InDrawRange(r.value.current[c])
  {
    match PlaceCentroids(s.current, 0, draws)
    case None => None
    case Some(cs) => Some(s.(current := cs, initialised := true))
  }

  /** Reference definition of what initialisation picks: the scaled draws in
      order, each kept only when it differs from everything in `seen` and from
      every draw kept before it. */
  function FreshDraws(seen: seq<Point>, draws: seq<Point>): seq<Point>
    requires forall u :: u in draws ==> UnitDraw(u)
    decreases |draws|
  {
    if |draws| == 0 then []
    else
      var candidate := Scale(draws[0]);
      if candidate in seen then FreshDraws(seen, draws[1..])
      else [candidate] + FreshDraws(seen + [candidate], draws[1..])
  }

  /** The placement loop takes the first fresh draws, as many as there are
      clusters left, provided the unplaced entries lie outside the draw range
      (as the sentinel does); with too few fresh draws it fails. */
  lemma {:induction false} PlaceTakesFreshDraws(current: seq<Point>, i: nat, draws: seq<Point>)
    requires i <= |current|
    requires forall u :: u in draws ==> UnitDraw(u)
    requires forall j :: 0 <= j < i ==> InDrawRange(current[j])
    requires forall j :: i <= j < |current| ==> !InDrawRange(current[j])
    requires Distinct(current[..i])
    ensures (var kept := FreshDraws(current[..i], draws);
             PlaceCentroids(current, i, draws)
             == if |kept| >= |current| - i then Some(current[..i] + kept[..|current| - i]) else None)
    decreases |draws|
  {
    var kept := FreshDraws(current[..i], draws);
    if i == |current| {
      assert current[..i] + kept[..0] == current;
    } else if |draws| > 0 {
      var candidate := Scale(draws[0]);
      assert candidate in current <==> candidate in current[..i];
      if candidate in current {
        PlaceTakesFreshDraws(current, i, draws[1..]);
      } else {
        var next := current[i := candidate];
        assert next[..i + 1] == current[..i] + [candidate];
        PlaceTakesFreshDraws(next, i + 1, draws[1..]);
        var rest := FreshDraws(current[..i] + [candidate], draws[1..]);
        assert kept == [candidate] + rest;
        if |rest| >= |current| - (i + 1) {
          assert next[..i + 1] + rest[..|current| - (i + 1)] == current[..i] + kept[..|current| - i];
        }
      }
    }
  }

  /** On a freshly constructed engine, initialisation makes the first k
      distinct scaled draws the centroids, in draw order, and fails exactly
      when the draws hold fewer than k distinct values. */
  lemma InitializeTakesFirstDistinctDraws(points: seq<Point>, numberOfClusters: int, tolerance: real, draws: seq<Point>)
    requires forall u :: u in draws ==> UnitDraw(u)
    ensures (var s := Create(points, numberOfClusters, tolerance);
             var kept := FreshDraws([], draws);
             InitializeCentroid(s, draws)
             == if |kept| >= s.k then Some(s.(current := kept[..s.k], initialised := true)) else None)
  {
    var s := Create(points, numberOfClusters, tolerance);
    assert s.current[..0] == [];
    PlaceTakesFreshDraws(s.current, 0, draws);
  }

  // ---------------------------------------------------------------------
  // assign_points_to_cluster (kmeans.py:56-64)
  // ---------------------------------------------------------------------

  /** The distance list built for one point: one freshly computed (squared)
      distance per centroid, each a separate float object. */
  function DistanceArray(p: Point, centroids: seq<Point>): (d: seq<Distance>)
    ensures |d| == |centroids| && Fresh(d) && Coherent(d)
    ensures forall j :: 0 <= j < |d| ==> d[j].value == SquaredDistance(p, centroids[j])
  {
    seq(|centroids|, j requires 0 <= j < |centroids| => Distance(j, SquaredDistance(p, centroids[j])))
  }

  /** Centroid `c` is among those closest to `p`. */
  predicate Nearest(p: Point, centroids: seq<Point>, c: int)
  {
    0 <= c < |centroids|
    && forall j :: 0 <= j < |centroids| ==> SquaredDistance(p, centroids[c]) <= SquaredDistance(p, centroids[j])
  }

  /** Centroid `c` is the lowest-numbered of those closest to `p`. */
  predicate FirstNearest(p: Point, centroids: seq<Point>, c: int)
  {
    Nearest(p, centroids, c)
    && forall j :: 0 <= j < c ==> SquaredDistance(p, centroids[c]) < SquaredDistance(p, centroids[j])
  }

  /** `assign_points_to_cluster`: every point is labelled with the first of
      its nearest centroids, whatever the tie draws `picks` (one per point);
      points and centroids are untouched. With no clusters and at least one
      point, `closest_cluster` raises, hence the precondition. */
  function AssignPoints(s: State, picks: seq<nat>): (r: State)
    requires Valid(s)
    requires |picks| == |s.points|
    requires s.k > 0 || |s.points| == 0
    ensures Valid(r) && Assigned(r)
    ensures r == s.(assignment := r.assignment)
    ensures forall i :: 0 <= i < |r.points| ==> FirstNearest(r.points[i], r.current, r.assignment[i])
  {
    var labels := seq(|s.points|, i requires 0 <= i < |s.points| =>
      ClosestCluster(DistanceArray(s.points[i], s.current), picks[i]));
    assert forall i :: 0 <= i < |s.points| ==> IsFirstMinimiser(DistanceArray(s.points[i], s.current), labels[i]);
    s.(assignment := labels)
  }

  /** A point's label depends only on the centroids: the tie draws never matter. */
  lemma AssignIgnoresPicks(s: State, picks1: seq<nat>, picks2: seq<nat>)
    requires Valid(s)
    requires |picks1| == |picks2| == |s.points|
    requires s.k > 0 || |s.points| == 0
    ensures AssignPoints(s, picks1) == AssignPoints(s, picks2)
  {
    var a1 := AssignPoints(s, picks1).assignment;
    var a2 := AssignPoints(s, picks2).assignment;
    forall i | 0 <= i < |s.points|
      ensures a1[i] == a2[i]
    {
      var d := DistanceArray(s.points[i], s.current);
      assert IsFirstMinimiser(d, a1[i]) && IsFirstMinimiser(d, a2[i]);
      FirstMinimiserUnique(d, a1[i], a2[i]);
    }
  }
}
