/** Points of the plane and the distance used to compare them (kmeans.py:8-11). */
module Geometry {

  /** A data point or a centroid: a pair of coordinates. */
  datatype Point = Point(x: real, y: real)

  function Abs(r: real): (a: real)
    ensures a >= 0.0
    ensures a == r || a == -r
  {
    if r < 0.0 then -r else r
  }

  /** Real multiplication, named so that the few facts the proofs need about
      it are stated once, below, and used by name. */
  function Product(a: real, b: real): real
  {
    a * b
  }

  /** The `** 2` applied to each axis difference. */
  function Square(r: real): real
  {
    Product(r, r)
  }

  /** `euclidean_distance` without its final square root: the sum of the
      squared absolute axis differences. The root is strictly increasing on
      non-negative reals (SquareMonotone), so comparing these values orders
      the centroids exactly as comparing true distances does. */
  function SquaredDistance(p: Point, q: Point): real
  {
    Square(Abs(p.x - q.x)) + Square(Abs(p.y - q.y))
  }

  lemma ProductPositive(a: real, b: real)
    requires a > 0.0 && b > 0.0
    ensures Product(a, b) > 0.0
  {
  }

  lemma ProductGrows(a: real, b: real, c: real)
    requires a > 0.0 && b < c
    ensures Product(a, b) < Product(a, c)
  {
    ProductPositive(a, c - b);
    assert Product(a, c - b) == Product(a, c) - Product(a, b);
  }

  /** Squaring is strictly increasing on the non-negative reals. */
  lemma SquareStrictlyIncreasing(a: real, b: real)
    requires 0.0 <= a < b
    ensures Square(a) < Square(b)
  {
    if a > 0.0 {
      ProductGrows(a, a, b);
    }
    ProductGrows(b, a, b);
    assert Product(a, b) == Product(b, a);
  }

  /** Squaring preserves strict order and equality of non-negative reals, so a
      distance and its square rank the centroids identically. */
  lemma SquareMonotone(a: real, b: real)
    requires a >= 0.0 && b >= 0.0
    ensures a < b <==> Square(a) < Square(b)
    ensures a == b <==> Square(a) == Square(b)
  {
    if a < b {
      SquareStrictlyIncreasing(a, b);
    } else if b < a {
      SquareStrictlyIncreasing(b, a);
    }
  }

  /** The distance is non-negative, and zero exactly when the points coincide. */
  lemma SquaredDistanceZero(p: Point, q: Point)
    ensures SquaredDistance(p, q) >= 0.0
    ensures SquaredDistance(p, q) == 0.0 <==> p == q
  {
    SquareMonotone(0.0, Abs(p.x - q.x));
    SquareMonotone(0.0, Abs(p.y - q.y));
  }

  /** The distance does not depend on the order of its arguments. */
  lemma SquaredDistanceSymmetric(p: Point, q: Point)
    ensures SquaredDistance(p, q) == SquaredDistance(q, p)
  {
    assert Abs(p.x - q.x) == Abs(q.x - p.x);
    assert Abs(p.y - q.y) == Abs(q.y - p.y);
  }
}
