/** `PersonalityMixerDemo.calculateWeight`: the preview's simpler weight, the
    positive part of the control point's projection on the trait's axis. */
module Demo {

  import opened Numeric
  import opened Geometry
  import opened Traits

  /** The unit vector the demo assigns to each position, in screen
      coordinates (y grows downward). */
  function AxisVector(p: Position): Point {
    match p
    case Top => Point(0.0, -1.0)
    case Right => Point(1.0, 0.0)
    case Bottom => Point(0.0, 1.0)
    case Left => Point(-1.0, 0.0)
  }

  /** The position across the disc. */
  function Opposite(p: Position): (q: Position)
    ensures q != p
  {
    match p
    case Top => Bottom
    case Right => Left
    case Bottom => Top
    case Left => Right
  }

  function Dot(a: Point, b: Point): real {
    a.x * b.x + a.y * b.y
  }

  /** Every axis has length one. */
  lemma AxesAreUnit(p: Position)
    ensures NormSq(AxisVector(p)) == 1.0
  {
  }

  /** Opposite positions have opposite axes. */
  lemma OppositeAxes(p: Position)
    ensures AxisVector(Opposite(p)) == Scale(AxisVector(p), -1.0)
  {
  }

  /** Projecting on an axis picks out one coordinate, signed. */
  lemma ProjectionOnAxis(pos: Point, p: Position)
    ensures p == Top ==> Dot(pos, AxisVector(p)) == -pos.y
    ensures p == Right ==> Dot(pos, AxisVector(p)) == pos.x
    ensures p == Bottom ==> Dot(pos, AxisVector(p)) == pos.y
    ensures p == Left ==> Dot(pos, AxisVector(p)) == -pos.x
  {
    match p
    case Top => assert Dot(pos, Point(0.0, -1.0)) == -pos.y;
    case Right => assert Dot(pos, Point(1.0, 0.0)) == pos.x;
    case Bottom => assert Dot(pos, Point(0.0, 1.0)) == pos.y;
    case Left => assert Dot(pos, Point(-1.0, 0.0)) == -pos.x;
  }

  /** `max(0, dotProduct)`. */
  function DemoWeight(pos: Point, p: Position): (w: real)
    ensures 0.0 <= w
    ensures 0.0 < Dot(pos, AxisVector(p)) ==> w == Dot(pos, AxisVector(p))
    ensures Dot(pos, AxisVector(p)) <= 0.0 ==> w == 0.0
  {
    ProjectionOnAxis(pos, p);
    var dotProduct := Dot(pos, AxisVector(p));
    if 0.0 < dotProduct then dotProduct else 0.0
  }

  /** Inside the disc no demo weight exceeds one. */
  lemma DemoWeightAtMostOne(pos: Point, p: Position)
    ensures InDisc(pos) ==> DemoWeight(pos, p) <= 1.0
  {
    CoordinatesInUnit(pos);
    ProjectionOnAxis(pos, p);
  }

  /** Each coordinate of a point in the disc lies in [-1, 1]. */
  lemma CoordinatesInUnit(p: Point)
    ensures InDisc(p) ==> -1.0 <= p.x <= 1.0 && -1.0 <= p.y <= 1.0
  {
    if InDisc(p) {
      SumOfSquares(p.x, 0.0);
      SumOfSquares(p.y, 0.0);
      SquareMonotone(1.0, Abs(p.x));
      SquareMonotone(1.0, Abs(p.y));
      assert Abs(p.x) * Abs(p.x) == p.x * p.x;
      assert Abs(p.y) * Abs(p.y) == p.y * p.y;
    }
  }

  /** Opposite traits never both get weight: the control point leans toward
      at most one of them. */
  lemma OppositesExclude(pos: Point, p: Position)
    ensures DemoWeight(pos, p) == 0.0 || DemoWeight(pos, Opposite(p)) == 0.0
  {
    ProjectionOnAxis(pos, p);
    ProjectionOnAxis(pos, Opposite(p));
  }

  /** The demo's weights are all zero at the centre, where the mixer gives
      every trait a quarter. */
  lemma DemoCentreIsEmpty(p: Position)
    ensures DemoWeight(Origin, p) == 0.0
  {
    ProjectionOnAxis(Origin, p);
  }

  /** Below and to the right of the centre the two neighbouring traits get
      the two coordinates as their weights. */
  lemma LowerRightWeights(pos: Point)
    requires 0.0 < pos.x && 0.0 < pos.y
    ensures DemoWeight(pos, Right) + DemoWeight(pos, Bottom) == pos.x + pos.y
    ensures DemoWeight(pos, Top) == 0.0 && DemoWeight(pos, Left) == 0.0
  {
    ProjectionOnAxis(pos, Right);
    ProjectionOnAxis(pos, Bottom);
    ProjectionOnAxis(pos, Top);
    ProjectionOnAxis(pos, Left);
  }

  /** The demo's weights are not normalised: half-way between two axes near
      the rim they add up to more than one. */
  lemma DemoWeightsCanExceedOne()
    ensures InDisc(Point(0.7, 0.7))
    ensures DemoWeight(Point(0.7, 0.7), Right) + DemoWeight(Point(0.7, 0.7), Bottom) > 1.0
  {
    assert NormSq(Point(0.7, 0.7)) == 0.98;
    LowerRightWeights(Point(0.7, 0.7));
  }

  /** The percentage the demo prints for a trait, in 0...100 inside the
      disc. */
  function DemoPercent(pos: Point, p: Position): (percent: int)
    ensures InDisc(pos) ==> 0 <= percent <= 100
    ensures percent as real <= DemoWeight(pos, p) * 100.0 < percent as real + 1.0
  {
    DemoWeightAtMostOne(pos, p);
    Percent(DemoWeight(pos, p))
  }
}
