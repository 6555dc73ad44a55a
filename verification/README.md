# k-means clustering engine, modelled in Dafny

This project models the clustering engine of a small 2-D k-means program
(Lloyd's algorithm). The engine is the `KMeans` class of `kmeans.py` and its two
helper functions. A run has these steps:

- The constructor sets every point's label to -1 and both centroid lists to
  k copies of the sentinel (-1, -1).
- `initialize_centroid` draws k random centroids in [0, 6) x [0, 6). A draw
  equal to any entry of the centroid list is rejected and drawn again.
- `assign_points_to_cluster` labels each point with its nearest centroid. It
  uses `euclidean_distance` to build the distance list and `closest_cluster`
  to pick the index.
- `update_centroid` sums the members of each cluster and copies the current
  centroids into `previous`. It then moves each centroid to the mean of its
  members, or to the raw sums when the cluster is empty.
- `calculate_tolerance` adds up each centroid's relative movement. A cluster
  whose previous centroid has a zero coordinate is skipped.

Everything is modelled as pure functions over immutable values: `Point` pairs
of `real`, `seq<int>` labels, and a `State` record for the engine's fields.

Modules, one per part of the source:

- `Geometry` (geometry.dfy): points, and `euclidean_distance` without the
  square root.
- `Closest` (closest.dfy): `closest_cluster`, including its identity-based
  tie rule.
- `KMeans` (kmeans.dfy): the engine state, the constructor, initialisation
  and assignment.
- `Membership` (membership.dfy): reference definitions of member counts and
  coordinate sums per cluster.
- `Update` (update.dfy): `update_centroid`.
- `Convergence` (convergence.dfy): `calculate_tolerance`, and one round of
  the driving loop.

Modelling choices:

- **Distances are squared.** Dafny has no real square root. `SquareMonotone`
  shows that squaring keeps order and equality on non-negative reals.
  `SquaredChoiceAgrees` then shows that `closest_cluster` picks the same index
  from the true distances as from the squared ones.
- **The tie test is identity.** `closest_cluster` collects the entries that
  `is` the minimum object, not the entries equal to it. A list entry is
  modelled as a `Distance(id, value)`, and `is` compares ids.
  In CPython, `euclidean_distance` returns a new float object on every call,
  so each distance list holds distinct objects. Its tie list therefore holds
  only the first minimiser, and the random choice never has anything to
  choose from. The comment at kmeans.py:22 describes a random choice among
  equal distances. The model follows the code: assignment always
  takes the earliest nearest centroid (`EqualValuesAreNoTie`). A real tie
  happens only when the same float object is stored twice
  (`SharedObjectIsTie`).
- **Randomness is a parameter.** `random.random()` pairs are passed in as
  `draws`, a sequence of unit points. `random.choice` is a `pick` number that
  selects entry `pick % |ties|`.
- **Centroid aliasing is a precondition.** The constructor builds the
  centroid list as `[[-1, -1]] * k`, so all k entries are one list object
  until `initialize_centroid` replaces them. `update_centroid` writes into
  those entries in place. The `initialised` flag records whether
  initialisation has run, and `UpdateCentroid` requires it.

## Model

| member | source | states |
|---|---|---|
| Geometry.SquaredDistanceZero | kmeans.py:8-11 | the distance is never negative, and it is zero exactly when the two points coincide |
| Geometry.SquaredDistanceSymmetric | kmeans.py:8-11 | the distance from p to q equals the distance from q to p |
| Geometry.SquareMonotone | kmeans.py:9-11 | on non-negative reals, squaring keeps strict order and equality, so removing the final square root does not change any comparison between distances |
| Closest.ScanMin | kmeans.py:16-21 | the first loop ends on the earliest index whose value is no larger than any entry and strictly smaller than every earlier entry |
| Closest.Ties | kmeans.py:23-26 | the second loop collects exactly the indices whose entry is the same object as the minimum, each once and in increasing order |
| Closest.ClosestCluster | kmeans.py:15-28 | on a non-empty list the result is an index whose value no entry beats; when every entry is a separate object it is the first such index |
| Closest.FreshIgnoresPick | kmeans.py:22-27 | when every distance is a separate object, the random draw does not change the result |
| Closest.EqualValuesAreNoTie | kmeans.py:25-27 | two equal distances computed separately are not a tie: index 0 wins for every draw |
| Closest.SharedObjectIsTie | kmeans.py:24-27 | the same float object stored twice is a tie, and the draw selects between the two indices |
| Closest.TiesByIdentity | kmeans.py:24-26 | the tie list depends only on object identities, not on the values |
| Closest.SquaredChoiceAgrees | kmeans.py:8-28 | choosing from true distances and from their squares gives the same index for every draw |
| KMeans.Create | kmeans.py:32-43 | a new engine has every point labelled -1, k sentinel centroids (-1, -1) in both lists, and the given tolerance; a negative count gives zero clusters |
| KMeans.Scale | kmeans.py:49-50 | a pair of unit draws scaled by 6 has both coordinates in [0, 6) |
| KMeans.PlaceCentroids | kmeans.py:46-54 | once every remaining cluster is placed, the list has its original length, keeps the centroids already placed, has no duplicates, and lies in [0, 6) x [0, 6) |
| KMeans.InitializeCentroid | kmeans.py:45-54 | initialisation leaves exactly k pairwise distinct centroids in [0, 6) x [0, 6); labels, points and previous centroids are unchanged |
| KMeans.PlaceTakesFreshDraws | kmeans.py:46-54 | the rejection loop places the first draws that differ from the centroids already placed and from each other, in draw order; it fails only when there are too few such draws |
| KMeans.InitializeTakesFirstDistinctDraws | kmeans.py:38-54 | on a new engine the centroids are the first k distinct scaled draws, and initialisation fails exactly when fewer than k distinct draws exist |
| KMeans.DistanceArray | kmeans.py:58-62 | a point's distance list has one separately computed entry per centroid, each holding the squared distance to that centroid |
| KMeans.AssignPoints | kmeans.py:56-64 | after assignment there is still one label per point; every label lies in [0, k) and names the earliest nearest centroid of its point; points and centroids are unchanged |
| KMeans.AssignIgnoresPicks | kmeans.py:56-64 | the labels do not depend on the random tie draws |
| Membership.CountsPartition | kmeans.py:70-74 | when every label lies in [0, k), the per-cluster member counts add up to the number of points |
| Membership.EmptyClusterSumsZero | kmeans.py:68-76 | a cluster with no members has coordinate sums of zero |
| Update.TallyStep | kmeans.py:72-76 | adding one point changes only its own cluster's count and sums, by one and by its coordinates |
| Update.Accumulate | kmeans.py:67-76 | the first loop leaves each cluster's count, x-sum and y-sum equal to the count and coordinate sums of the points labelled with it |
| Update.RewriteMeanIdempotent | kmeans.py:83-85 | repeating the write of the same mean k times (k at least 1) has the same effect as writing it once |
| Update.WriteCentroids | kmeans.py:81-88 | the last loop gives every cluster the mean of its totals when it has members and its raw sums otherwise, and keeps the list length |
| Update.UpdateCentroid | kmeans.py:66-88 | after the update, previous holds the old current centroids; a cluster with members sits at their mean; an empty cluster sits at (0, 0); points and labels are unchanged |
| Convergence.Displacement | kmeans.py:94-99 | a centroid's relative movement is non-negative; it is zero when the previous centroid has a zero coordinate; otherwise it is zero exactly when the centroid has not moved |
| Convergence.TotalDisplacement | kmeans.py:91-100 | the running total is non-negative and zero exactly when no measured cluster among those summed has moved |
| Convergence.CalculateTolerance | kmeans.py:90-100 | the tolerance is non-negative, and it is zero exactly when every cluster without a zero previous coordinate is where it was |
| Convergence.UnmeasuredClusterIgnored | kmeans.py:93-99 | a cluster whose previous centroid has a zero coordinate cannot change the total, wherever it moves |
| Convergence.FirstToleranceAtLeastTwoPerCluster | kmeans.py:90-100 | measured against the sentinel (-1, -1), centroids in [0, 6) give a total of at least 2 per cluster |
| Convergence.FirstCheckForcesIteration | kmeans.py:114-117 | after construction and initialisation with at least one cluster and a tolerance below 2 per cluster, the loop test passes, so at least one round runs |
| Convergence.Step | kmeans.py:118-119 | one assign-then-update round keeps the engine's shape, leaves every label in [0, k), and makes previous the centroids the round started from |
| Convergence.FixedPointConverges | kmeans.py:117-120 | if every centroid already equals the mean of its nearest points (or (0, 0) when it has none), a round leaves the centroids unchanged and the next measurement is 0, so the loop stops |
| Convergence.OnePointRound | kmeans.py:118-119 | with one point and one cluster, a round labels the point 0 and moves the centroid onto the point, wherever the centroid started and whatever the draw |
| Convergence.SinglePointSettles | kmeans.py:114-120 | with the single point (1, 1) and one cluster, for any draw, the first round labels the point 0 and moves the centroid onto it, and the second round reports convergence |

## Left out

- `main` (kmeans.py:103-131): reading `data.txt`, writing the result file,
  timing, rounding and printing are I/O. Only one round of its loop is
  modelled (`Step`). The loop itself is not modelled, because it need not
  terminate.
- `math.sqrt`: distances are compared squared. `SquareMonotone` and
  `SquaredChoiceAgrees` justify this.
- IEEE-754 arithmetic: NaN, infinity, rounding and the `float("inf")` start
  value are not modelled. Coordinates are exact `real`s, and the infinite
  start value is the state "no index yet" (`best == -1`).
- Python's mix of `int` and `float`: the sums of an empty cluster are the
  integer 0 in the source. In the model they are the real 0.0.
- The random generator: draws and tie picks are parameters.
- InitializeCentroid: promises its result only when it succeeds. The model's
  draw sequence is finite and can run out, which the real generator never
  does. `InitializeTakesFirstDistinctDraws` states exactly when it succeeds.
- Negative labels: a label of -1 would index the last cluster in Python.
  `UpdateCentroid` requires every label in [0, k), which assignment
  establishes.
- Centroid list aliasing before initialisation: `UpdateCentroid` requires
  `initialised` instead of modelling the shared list object.
- AssignPoints: requires at least one cluster when there are points. With
  k = 0, `random.choice([])` raises `IndexError`, and that error is not
  modelled.
- Float identity on other interpreters: the model follows CPython, where
  every computed distance is a separate object. On interpreters where `is`
  on floats compares values (PyPy, for one), equal distances do tie at
  kmeans.py:25, and the draw at kmeans.py:27 chooses among them. `Fresh`,
  `EqualValuesAreNoTie` and `AssignIgnoresPicks` do not hold there.
