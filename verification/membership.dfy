/** Reference definitions of cluster membership: how many points carry a
    label, and the coordinate sums of those points. `update_centroid`
    (kmeans.py:66-88) computes these totals in one pass; the definitions here
    state them independently, one point at a time from the front. */
module Membership {
  import opened Geometry

  /** The number of labels equal to `c`. */
  function Count(labels: seq<int>, c: int): (n: nat)
    ensures n <= |labels|
  {
    if |labels| == 0 then 0
    else Count(labels[..|labels| - 1], c) + (if labels[|labels| - 1] == c then 1 else 0)
  }

  /** The sum of the x-coordinates of the points labelled `c`. */
  function SumX(points: seq<Point>, labels: seq<int>, c: int): real
    requires |points| == |labels|
  {
    if |labels| == 0 then 0.0
    else
      SumX(points[..|points| - 1], labels[..|labels| - 1], c)
      + (if labels[|labels| - 1] == c then points[|points| - 1].x else 0.0)
  }

  /** The sum of the y-coordinates of the points labelled `c`. */
  function SumY(points: seq<Point>, labels: seq<int>, c: int): real
    requires |points| == |labels|
  {
    if |labels| == 0 then 0.0
    else
      SumY(points[..|points| - 1], labels[..|labels| - 1], c)
      + (if labels[|labels| - 1] == c then points[|points| - 1].y else 0.0)
  }

  /** The total of the counts of clusters 0 .. k-1. */
  function CountBelow(labels: seq<int>, k: nat): nat
  {
    if k == 0 then 0 else CountBelow(labels, k - 1) + Count(labels, k - 1)
  }

  /** Appending one label adds one to the total exactly when the label is below k. */
  lemma {:induction false} CountBelowAppend(labels: seq<int>, v: int, k: nat)
    ensures CountBelow(labels + [v], k) == CountBelow(labels, k) + (if 0 <= v < k then 1 else 0)
  {
    assert (labels + [v])[..|labels + [v]| - 1] == labels;
    if k > 0 {
      CountBelowAppend(labels, v, k - 1);
    }
  }

  lemma {:induction false} NoLabelsCountZero(labels: seq<int>, k: nat)
    requires |labels| == 0
    ensures CountBelow(labels, k) == 0
  {
    if k > 0 {
      NoLabelsCountZero(labels, k - 1);
    }
  }

  /** The clusters partition the points: when every label lies in [0, k),
      the per-cluster counts add up to the number of points. */
  lemma {:induction false} CountsPartition(labels: seq<int>, k: nat)
    requires forall i :: 0 <= i < |labels| ==> 0 <= labels[i] < k
    ensures CountBelow(labels, k) == |labels|
  {
    if |labels| == 0 {
      NoLabelsCountZero(labels, k);
    } else {
      var init := labels[..|labels| - 1];
      CountsPartition(init, k);
      CountBelowAppend(init, labels[|labels| - 1], k);
      assert init + [labels[|labels| - 1]] == labels;
    }
  }

  /** A cluster without members has zero coordinate sums. */
  lemma {:induction false} EmptyClusterSumsZero(points: seq<Point>, labels: seq<int>, c: int)
    requires |points| == |labels|
    requires Count(labels, c) == 0
    ensures SumX(points, labels, c) == 0.0 && SumY(points, labels, c) == 0.0
  {
    if |labels| > 0 {
      EmptyClusterSumsZero(points[..|points| - 1], labels[..|labels| - 1], c);
    }
  }
}
