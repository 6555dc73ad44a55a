/** `closest_cluster` (kmeans.py:15-28): the index of the smallest entry of a
    distance list, with a tie rule that gathers the entries that are the very
    same float object as the minimum and picks one of them at random. */
module Closest {
  import opened Geometry

  /** One entry of a Python list of floats: the object's identity and its
      value. The `is` test compares identities; every float computed by a
      separate call is a separate object. */
  datatype Distance = Distance(id: nat, value: real)

  /** Entries that share an identity are one object and so share a value. */
  predicate Coherent(d: seq<Distance>)
  {
    forall i, j :: 0 <= i < |d| && 0 <= j < |d| && d[i].id == d[j].id ==> d[i].value == d[j].value
  }

  /** Every entry is its own object, as when each distance is freshly computed. */
  predicate Fresh(d: seq<Distance>)
  {
    forall i, j :: 0 <= i < |d| && 0 <= j < |d| && i != j ==> d[i].id != d[j].id
  }

  predicate IsMinimiser(d: seq<Distance>, i: int)
  {
    0 <= i < |d| && forall j :: 0 <= j < |d| ==> d[i].value <= d[j].value
  }

  /** A minimiser strictly smaller than every entry before it. */
  predicate IsFirstMinimiser(d: seq<Distance>, i: int)
  {
    IsMinimiser(d, i) && forall j :: 0 <= j < i ==> d[i].value < d[j].value
  }

  /** The first loop: a left-to-right scan that moves the candidate only on a
      strictly smaller value. `best == -1` is the state before any entry is
      seen, when the running minimum is still infinity, which every real beats. */
  function ScanMin(d: seq<Distance>, i: nat, best: int): (r: nat)
    requires 0 < |d| && i <= |d|
    requires i == 0 ==> best == -1
    requires i > 0 ==> IsFirstMinimiser(d[..i], best)
    ensures IsFirstMinimiser(d, r)
    decreases |d| - i
  {
    if i == |d| then
      assert d[..i] == d;
      best
    else if best == -1 || d[i].value < d[best].value then
      ScanMin(d, i + 1, i)
    else
      ScanMin(d, i + 1, best)
  }

  /** The second loop: the indices, from `i` on, whose entry is the object `m`
      itself (an identity test, not a value comparison), each once and in
      increasing order. */
  function Ties(d: seq<Distance>, m: Distance, i: nat): (r: seq<nat>)
    requires i <= |d|
    ensures forall t :: t in r ==> i <= t < |d| && d[t].id == m.id
    ensures forall j :: i <= j < |d| && d[j].id == m.id ==> j in r
    ensures forall a, b :: 0 <= a < b < |r| ==> r[a] < r[b]
    decreases |d| - i
  {
    if i == |d| then []
    else
      var rest := Ties(d, m, i + 1);
      assert forall b :: 0 <= b < |rest| ==> i < rest[b] by {
        forall b | 0 <= b < |rest|
          ensures i < rest[b]
        {
          assert rest[b] in rest;
        }
      }
      (if d[i].id == m.id then [i] else []) + rest
  }

  /** `closest_cluster`: `pick` stands for the draw of `random.choice`, which
      selects entry `pick % |ties|` of the tie list. The list is never empty,
      because the minimum is the object it was read from. The result is always
      a minimiser; when every entry is its own object the tie list holds only
      the first minimiser, so that is the result whatever the draw. An empty
      list makes `random.choice` raise, hence the precondition. */
  function ClosestCluster(d: seq<Distance>, pick: nat): (r: nat)
    requires |d| > 0
    requires Coherent(d)
    ensures IsMinimiser(d, r)
    ensures Fresh(d) ==> IsFirstMinimiser(d, r)
  {
    var best := ScanMin(d, 0, -1);
    var ties := Ties(d, d[best], 0);
    assert best in ties;
    assert ties[pick % |ties|] in ties;
    ties[pick % |ties|]
  }

  /** There is only one first minimiser. */
  lemma FirstMinimiserUnique(d: seq<Distance>, a: int, b: int)
    requires IsFirstMinimiser(d, a) && IsFirstMinimiser(d, b)
    ensures a == b
  {
    assert d[a].value == d[b].value;
  }

  /** With freshly computed distances the random draw has no effect. */
  lemma FreshIgnoresPick(d: seq<Distance>, pick1: nat, pick2: nat)
    requires |d| > 0 && Coherent(d) && Fresh(d)
    ensures ClosestCluster(d, pick1) == ClosestCluster(d, pick2)
  {
    FirstMinimiserUnique(d, ClosestCluster(d, pick1), ClosestCluster(d, pick2));
  }

  /** Two equal distances computed separately: the identity test sees no tie,
      so the earlier index wins whatever the draw. */
  lemma EqualValuesAreNoTie(pick: nat)
    ensures ClosestCluster([Distance(0, 2.0), Distance(1, 2.0)], pick) == 0
  {
    var d := [Distance(0, 2.0), Distance(1, 2.0)];
    assert Fresh(d);
    assert IsFirstMinimiser(d, 0);
    FirstMinimiserUnique(d, ClosestCluster(d, pick), 0);
  }

  /** The same float object stored twice is a genuine tie: the draw decides. */
  lemma SharedObjectIsTie()
    ensures ClosestCluster([Distance(7, 2.0), Distance(7, 2.0)], 0) == 0
    ensures ClosestCluster([Distance(7, 2.0), Distance(7, 2.0)], 1) == 1
  {
    var d := [Distance(7, 2.0), Distance(7, 2.0)];
    assert ScanMin(d, 0, -1) == 0;
    assert Ties(d, d[0], 2) == [];
    assert Ties(d, d[0], 1) == [1];
    assert Ties(d, d[0], 0) == [0, 1];
  }

  /** The tie list depends only on identities. */
  lemma {:induction false} TiesByIdentity(d: seq<Distance>, s: seq<Distance>, m: Distance, n: Distance, i: nat)
    requires |d| == |s| && i <= |d| && m.id == n.id
    requires forall j :: 0 <= j < |d| ==> d[j].id == s[j].id
    ensures Ties(d, m, i) == Ties(s, n, i)
    decreases |d| - i
  {
    if i < |d| {
      TiesByIdentity(d, s, m, n, i + 1);
    }
  }

  /** Taking the square root of every entry (the step from squared to true
      distance) does not change the result: squaring preserves order and
      equality on non-negative reals. `d` holds the true distances and `s`
      the squared ones, object for object. */
  lemma SquaredChoiceAgrees(d: seq<Distance>, s: seq<Distance>, pick: nat)
    requires |d| == |s| > 0
    requires Coherent(d)
    requires forall j :: 0 <= j < |d| ==> d[j].id == s[j].id && d[j].value >= 0.0 && Square(d[j].value) == s[j].value
    ensures Coherent(s)
    ensures ClosestCluster(d, pick) == ClosestCluster(s, pick)
  {
    var bd := ScanMin(d, 0, -1);
    assert Coherent(s) by {
      forall i, j | 0 <= i < |s| && 0 <= j < |s| && s[i].id == s[j].id
        ensures s[i].value == s[j].value
      {
        assert d[i].value == d[j].value;
      }
    }
    var bs := ScanMin(s, 0, -1);
    assert IsFirstMinimiser(s, bd) by {
      forall j | 0 <= j < |s|
        ensures s[bd].value <= s[j].value
        ensures j < bd ==> s[bd].value < s[j].value
      {
        SquareMonotone(d[bd].value, d[j].value);
      }
    }
    FirstMinimiserUnique(s, bd, bs);
    TiesByIdentity(d, s, d[bd], s[bs], 0);
  }
}
