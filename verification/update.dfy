/** `update_centroid` (kmeans.py:66-88): per-cluster totals in one pass over
    the points, a snapshot of the current centroids, then each centroid set to
    the mean of its members, or to the raw sums when it has none. */
module Update {
  import opened Geometry
  import opened Membership
  import opened KMeans

  /** The running totals of one cluster: member count, x-sum and y-sum. */
  datatype Tally = Tally(count: nat, sumX: real, sumY: real)

  /** The totals of cluster `c` over the first `n` points, by the reference
      definitions. */
  function TallyOf(points: seq<Point>, labels: seq<int>, c: int, n: nat): Tally
    requires |points| == |labels| && n <= |points|
  {
    Tally(Count(labels[..n], c), SumX(points[..n], labels[..n], c), SumY(points[..n], labels[..n], c))
  }

  /** One more point changes only its own cluster's totals. */
  lemma TallyStep(points: seq<Point>, labels: seq<int>, i: nat)
    requires |points| == |labels| && i < |points|
    ensures forall c ::
      (TallyOf(points, labels, c, i + 1)
       == if labels[i] == c then
            var t := TallyOf(points, labels, c, i);
            Tally(t.count + 1, t.sumX + points[i].x, t.sumY + points[i].y)
          else TallyOf(points, labels, c, i))
  {
    assert labels[..i + 1][..i] == labels[..i];
    assert points[..i + 1][..i] == points[..i];
  }

  /** The first loop, from point `i` on: point `i` adds one to the count of
      its cluster and its coordinates to that cluster's sums. */
  function Accumulate(points: seq<Point>, labels: seq<int>, i: nat, acc: seq<Tally>): (r: seq<Tally>)
    requires |points| == |labels| && i <= |points|
    requires forall j :: 0 <= j < |labels| ==> 0 <= labels[j] < |acc|
    requires forall c :: 0 <= c < |acc| ==> acc[c] == TallyOf(points, labels, c, i)
    ensures |r| == |acc|
    ensures forall c :: 0 <= c < |r| ==> r[c] == TallyOf(points, labels, c, |points|)
    decreases |points| - i
  {
    if i == |points| then
      acc
    else
      var c := labels[i];
      var next := acc[c := Tally(acc[c].count + 1, acc[c].sumX + points[i].x, acc[c].sumY + points[i].y)];
      TallyStep(points, labels, i);
      Accumulate(points, labels, i + 1, next)
  }

  /** The loop over `j` inside the last loop (kmeans.py:83-85): it writes the
      same mean into centroid `c` once per cluster. */
  function RewriteMean(current: seq<Point>, c: nat, mean: Point, times: nat): (r: seq<Point>)
    requires c < |current|
    ensures |r| == |current|
    decreases times
  {
    if times == 0 then current else RewriteMean(current[c := mean], c, mean, times - 1)
  }

  /** Writing the same value repeatedly is the same as writing it once. */
  lemma {:induction false} RewriteMeanIdempotent(current: seq<Point>, c: nat, mean: Point, times: nat)
    requires c < |current| && times > 0
    ensures RewriteMean(current, c, mean, times) == current[c := mean]
    decreases times
  {
    if times > 1 {
      RewriteMeanIdempotent(current[c := mean], c, mean, times - 1);
      assert current[c := mean][c := mean] == current[c := mean];
    }
  }

  /** The value the last loop gives a centroid with the totals `t`: the mean
      when it has members, otherwise the sums themselves. */
  function NewCentroid(t: Tally): Point
  {
    if t.count != 0 then Point(t.sumX / t.count as real, t.sumY / t.count as real)
    else Point(t.sumX, t.sumY)
  }

  /** The last loop, from cluster `c` on; earlier centroids are final. */
  function WriteCentroids(current: seq<Point>, tallies: seq<Tally>, c: nat): (r: seq<Point>)
    requires |tallies| == |current| && c <= |current|
    ensures |r| == |current|
    ensures forall j :: 0 <= j < c ==> r[j] == current[j]
    ensures forall j :: c <= j < |r| ==> r[j] == NewCentroid(tallies[j])
    decreases |current| - c
  {
    if c == |current| then
      current
    else
      var t := tallies[c];
      var next :=
        if t.count != 0 then
          RewriteMeanIdempotent(current, c, NewCentroid(t), |tallies|);
          RewriteMean(current, c, NewCentroid(t), |tallies|)
        else
          current[c := Point(t.sumX, t.sumY)];
      WriteCentroids(next, tallies, c + 1)
  }

  /** `update_centroid`. It needs every label in [0, k): a label of -1 would
      index the last cluster. It also needs initialisation to have run, so
      that the centroids are separate list objects. Afterwards `previous` is
      the old `current`; a cluster with members sits at their mean; a
      cluster without members sits at the origin (its raw sums, which are
      zero); points and labels are unchanged. */
  function UpdateCentroid(s: State): (r: State)
    requires Valid(s) && Assigned(s) && s.initialised
    ensures Valid(r)
    ensures r == s.(current := r.current, previous := s.current)
    ensures forall c :: 0 <= c < r.k && Count(s.assignment, c) > 0 ==>
      var n := Count(s.assignment, c) as real;
      r.current[c] == Point(SumX(s.points, s.assignment, c) / n, SumY(s.points, s.assignment, c) / n)
    ensures forall c :: 0 <= c < r.k && Count(s.assignment, c) == 0 ==> r.current[c] == Point(0.0, 0.0)
  {
    assert s.assignment[..0] == [] && s.points[..0] == [];
    var tallies := Accumulate(s.points, s.assignment, 0, seq(s.k, _ => Tally(0, 0.0, 0.0)));
    assert s.assignment[..|s.points|] == s.assignment && s.points[..|s.points|] == s.points;
    var previous := s.current;
    var current := WriteCentroids(s.current, tallies, 0);
    assert forall c :: 0 <= c < s.k && Count(s.assignment, c) == 0 ==>
      SumX(s.points, s.assignment, c) == 0.0 && SumY(s.points, s.assignment, c) == 0.0 by {
      forall c | 0 <= c < s.k && Count(s.assignment, c) == 0 {
        EmptyClusterSumsZero(s.points, s.assignment, c);
      }
    }
    s.(previous := previous, current := current)
  }
}
