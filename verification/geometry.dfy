/** Points of the mixer's normalised coordinate space (the disc has radius 1,
    y grows downward as on screen) and the platform maths the source calls. */
module Geometry {

  import opened Numeric

  /** Swift's `Double.pi`, used only to convert between radians and degrees. */
  const Pi: real := 3.141592653589793

  /** The exponent of the raised-cosine affinity. */
  const Sharpness: real := 2.5

  /** The platform functions the source calls: `sqrt`, `atan2` (radians),
      `cos` (radians) and `pow`. None is defined here: `ValidMath` states the
      only facts about them that the model relies on. */
  datatype MathLib = MathLib(
    sqrt: real -> real,
    atan2: (real, real) -> real,
    cos: real -> real,
    pow: (real, real) -> real)

  ghost predicate ValidMath(m: MathLib) {
    // the square root of a non-negative number is its non-negative root
    && (forall v :: 0.0 <= v ==> 0.0 <= m.sqrt(v) && m.sqrt(v) * m.sqrt(v) == v)
    // atan2 answers in [-pi, pi]
    && (forall y, x :: -Pi <= m.atan2(y, x) <= Pi)
    // cosine stays in [-1, 1] and reaches -1 nowhere strictly inside (-pi, pi)
    && (forall t :: -1.0 <= m.cos(t) <= 1.0)
    && (forall t :: -Pi < t < Pi ==> -1.0 < m.cos(t))
    // a power of a base in [0, 1] stays in [0, 1], positive for a positive base
    && (forall b :: 0.0 <= b <= 1.0 ==> 0.0 <= m.pow(b, Sharpness) <= 1.0)
    && (forall b :: 0.0 < b <= 1.0 ==> 0.0 < m.pow(b, Sharpness))
  }

  lemma SqrtFacts(m: MathLib, v: real)
    requires ValidMath(m)
    requires 0.0 <= v
    ensures 0.0 <= m.sqrt(v) && m.sqrt(v) * m.sqrt(v) == v
  {
  }

  datatype Point = Point(x: real, y: real)

  const Origin := Point(0.0, 0.0)

  function NormSq(p: Point): (n: real)
    ensures 0.0 <= n
  {
    SumOfSquares(p.x, p.y);
    p.x * p.x + p.y * p.y
  }

  /** The disc-containment invariant of every settled position. */
  predicate InDisc(p: Point) {
    NormSq(p) <= 1.0
  }

  /** `sqrt(x * x + y * y)`. */
  function Distance(m: MathLib, p: Point): (d: real)
    requires ValidMath(m)
    ensures 0.0 <= d && d * d == NormSq(p)
  {
    SqrtFacts(m, NormSq(p));
    m.sqrt(NormSq(p))
  }

  /** Comparing a distance with a non-negative bound is comparing squares. */
  lemma DistanceBelow(m: MathLib, p: Point, c: real)
    requires ValidMath(m)
    requires 0.0 <= c
    ensures Distance(m, p) < c <==> NormSq(p) < c * c
  {
    SquareMonotone(Distance(m, p), c);
  }

  lemma DistanceAtMostOne(m: MathLib, p: Point)
    requires ValidMath(m)
    ensures Distance(m, p) <= 1.0 <==> InDisc(p)
  {
    SquareMonotone(1.0, Distance(m, p));
  }

  /** Both coordinates multiplied by the same factor. */
  function Scale(p: Point, k: real): Point {
    Point(p.x * k, p.y * k)
  }

  /** `a` is `b` scaled by a positive factor: it lies on the ray from the
      origin through `b`, so its direction is that of `b`. */
  ghost predicate SameDirection(a: Point, b: Point) {
    exists k :: 0.0 < k && a == Scale(b, k)
  }

  /** Scaling by a non-negative factor scales the distance by that factor. */
  lemma DistanceScale(m: MathLib, p: Point, k: real)
    requires ValidMath(m)
    requires 0.0 <= k
    ensures NormSq(Scale(p, k)) == k * k * NormSq(p)
    ensures Distance(m, Scale(p, k)) == k * Distance(m, p)
  {
    var d := Distance(m, p);
    var q := Scale(p, k);
    calc {
      NormSq(q);
      (p.x * k) * (p.x * k) + (p.y * k) * (p.y * k);
      k * k * (p.x * p.x + p.y * p.y);
      k * k * NormSq(p);
    }
    var kd := k * d;
    MulNonNegative(k, d);
    assert kd * kd == k * k * (d * d);
    RootUnique(Distance(m, q), kd);
  }

  /** Every point lies on its own ray. */
  lemma SameDirectionReflexive(p: Point)
    ensures SameDirection(p, p)
  {
    assert p == Scale(p, 1.0);
  }

  /** A point on the ray through a point on the ray through `c` lies on the
      ray through `c`. */
  lemma SameDirectionTransitive(a: Point, b: Point, c: Point)
    requires SameDirection(a, b) && SameDirection(b, c)
    ensures SameDirection(a, c)
  {
    var k1 :| 0.0 < k1 && a == Scale(b, k1);
    var k2 :| 0.0 < k2 && b == Scale(c, k2);
    MulPositive(k2, k1);
    assert (c.x * k2) * k1 == c.x * (k2 * k1);
    assert (c.y * k2) * k1 == c.y * (k2 * k1);
    assert a == Scale(c, k2 * k1);
  }
}
