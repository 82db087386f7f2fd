/** `PersonalityMixer.calculateWeight`: the angular-proximity weight of one
    trait position at a control point, normalised over the trait list. */
module Weights {

  import opened Numeric
  import opened Geometry
  import opened Traits

  /** Distances below this get the fixed centre weight. */
  const CenterZone: real := 0.15
  /** The weight returned at the centre and when nothing can be normalised;
      it is a quarter whatever the number of traits. */
  const EqualShare: real := 0.25

  /** The inline `switch` on the position inside `calculateWeight`. */
  function InlineAngle(p: Position): (a: real)
    ensures a == Angle(p)
  {
    match p
    case Top => -90.0
    case Right => 0.0
    case Bottom => 90.0
    case Left => 180.0
  }

  /** The control point's direction in degrees: `atan2(y, x) * 180 / pi`. */
  function SelectorAngle(m: MathLib, pos: Point): (a: real)
    requires ValidMath(m)
    ensures -180.0 <= a <= 180.0
  {
    var t := m.atan2(pos.y, pos.x);
    assert -Pi <= t <= Pi;
    t * 180.0 / Pi
  }

  /** The angular difference folded into a half turn. */
  function WrapDiff(angle: real, traitAngle: real): (d: real)
    ensures -180.0 <= angle <= 180.0 && -180.0 <= traitAngle <= 180.0 ==> 0.0 <= d <= 180.0
  {
    var diff := Abs(angle - traitAngle);
    if diff > 180.0 then 360.0 - diff else diff
  }

  /** For angles in [-180, 180] the folded difference is the circular
      distance between the two directions: the shorter of the two ways round,
      and the same measured from either end. */
  lemma WrapDiffIsCircularDistance(a: real, b: real)
    requires -180.0 <= a <= 180.0 && -180.0 <= b <= 180.0
    ensures WrapDiff(a, b) == WrapDiff(b, a)
    ensures WrapDiff(a, b) <= Abs(a - b) && WrapDiff(a, b) <= 360.0 - Abs(a - b)
    ensures WrapDiff(a, b) == Abs(a - b) || WrapDiff(a, b) == 360.0 - Abs(a - b)
  {
  }

  /** The raw affinity `pow((1 + cos(diff * pi / 180)) / 2, 2.5)`. */
  function Affinity(m: MathLib, diff: real): (a: real)
    requires ValidMath(m)
    ensures 0.0 <= a <= 1.0
  {
    var c := m.cos(diff * Pi / 180.0);
    assert -1.0 <= c <= 1.0;
    m.pow((1.0 + c) / 2.0, Sharpness)
  }

  /** Raw affinity of a trait position seen from the selector angle. */
  function PositionAffinity(m: MathLib, angle: real, p: Position): (a: real)
    requires ValidMath(m)
    ensures 0.0 <= a <= 1.0
  {
    Affinity(m, WrapDiff(angle, InlineAngle(p)))
  }

  /** `allRawWeights`: the raw affinity of every trait, in trait order. */
  function RawWeights(m: MathLib, angle: real, traits: seq<Trait>): (raw: seq<real>)
    requires ValidMath(m)
    ensures |raw| == |traits|
    ensures forall i :: 0 <= i < |traits| ==>
      raw[i] == PositionAffinity(m, angle, traits[i].position) && 0.0 <= raw[i] <= 1.0
  {
    seq(|traits|, i requires 0 <= i < |traits| => PositionAffinity(m, angle, traits[i].position))
  }

  /** `totalWeight`: the sum of the raw affinities at `pos`. */
  function TotalAffinity(m: MathLib, pos: Point, traits: seq<Trait>): (t: real)
    requires ValidMath(m)
    ensures 0.0 <= t
  {
    var raw := RawWeights(m, SelectorAngle(m, pos), traits);
    SumNonNegative(raw);
    Sum(raw)
  }

  /** `calculateWeight(for:)` at control point `pos`. */
  function Weight(m: MathLib, pos: Point, p: Position, traits: seq<Trait>): (w: real)
    requires ValidMath(m)
    ensures 0.0 <= w
    ensures Distance(m, pos) < CenterZone ==> w == EqualShare
    ensures CenterZone <= Distance(m, pos) && TotalAffinity(m, pos, traits) == 0.0 ==> w == EqualShare
    ensures CenterZone <= Distance(m, pos) && 0.0 < TotalAffinity(m, pos, traits) ==>
      w * TotalAffinity(m, pos, traits) == PositionAffinity(m, SelectorAngle(m, pos), p)
  {
    if Distance(m, pos) < CenterZone then EqualShare
    else
      var angle := SelectorAngle(m, pos);
      var rawWeight := PositionAffinity(m, angle, p);
      var totalWeight := TotalAffinity(m, pos, traits);
      if totalWeight > 0.0 then
        ShareOfTotal(rawWeight, totalWeight);
        rawWeight / totalWeight
      else EqualShare
  }

  /** A non-negative part divided by a positive total is a non-negative
      share that gives the part back when multiplied by the total. */
  lemma ShareOfTotal(a: real, t: real)
    requires 0.0 <= a
    requires 0.0 < t
    ensures 0.0 <= a / t
    ensures a / t * t == a
  {
  }

  /** The weight of every trait at `pos`, in trait order. */
  function WeightVector(m: MathLib, pos: Point, traits: seq<Trait>): (ws: seq<real>)
    requires ValidMath(m)
    ensures |ws| == |traits|
    ensures forall i :: 0 <= i < |traits| ==> ws[i] == Weight(m, pos, traits[i].position, traits)
    ensures AllNonNegative(ws)
  {
    seq(|traits|, i requires 0 <= i < |traits| => Weight(m, pos, traits[i].position, traits))
  }

  /** In the centre zone every trait gets a quarter, so the weights add up to
      a quarter of the trait count: to one only when there are four traits. */
  lemma CentreWeightsAreQuarters(m: MathLib, pos: Point, traits: seq<Trait>)
    requires ValidMath(m)
    requires Distance(m, pos) < CenterZone
    ensures forall i :: 0 <= i < |traits| ==> WeightVector(m, pos, traits)[i] == EqualShare
    ensures Sum(WeightVector(m, pos, traits)) == |traits| as real / 4.0
    ensures Sum(WeightVector(m, pos, traits)) == 1.0 <==> |traits| == 4
  {
    SumConstant(WeightVector(m, pos, traits), EqualShare);
  }

  /** Outside the centre zone, with some trait in reach, the weights are the
      raw affinities divided by their total, so they add up to exactly one. */
  lemma WeightsSumToOne(m: MathLib, pos: Point, traits: seq<Trait>)
    requires ValidMath(m)
    requires CenterZone <= Distance(m, pos)
    requires 0.0 < TotalAffinity(m, pos, traits)
    ensures Sum(WeightVector(m, pos, traits)) == 1.0
  {
    var raw := RawWeights(m, SelectorAngle(m, pos), traits);
    var total := Sum(raw);
    assert total == TotalAffinity(m, pos, traits);
    var ws := WeightVector(m, pos, traits);
    var shares := DivideAll(raw, total);
    forall i | 0 <= i < |ws|
      ensures ws[i] == shares[i]
    {
      WeightIsShare(m, pos, traits, i);
    }
    assert ws == shares;
    SumDivideAll(raw, total);
    DivideBySelf(total);
  }

  lemma DivideBySelf(t: real)
    requires 0.0 < t
    ensures t / t == 1.0
  {
  }

  /** Outside the centre zone with a positive total, a trait's weight is its
      raw affinity's share of the total. */
  lemma WeightIsShare(m: MathLib, pos: Point, traits: seq<Trait>, i: nat)
    requires ValidMath(m)
    requires CenterZone <= Distance(m, pos)
    requires 0.0 < TotalAffinity(m, pos, traits)
    requires i < |traits|
    ensures Weight(m, pos, traits[i].position, traits) ==
      RawWeights(m, SelectorAngle(m, pos), traits)[i] / TotalAffinity(m, pos, traits)
  {
  }

  /** Outside the centre zone, if no trait has any affinity, the fallback
      gives every trait a quarter. */
  lemma DegenerateFallback(m: MathLib, pos: Point, traits: seq<Trait>)
    requires ValidMath(m)
    requires CenterZone <= Distance(m, pos)
    requires TotalAffinity(m, pos, traits) == 0.0
    ensures forall i :: 0 <= i < |traits| ==> WeightVector(m, pos, traits)[i] == EqualShare
    ensures forall i :: 0 <= i < |traits| ==>
      PositionAffinity(m, SelectorAngle(m, pos), traits[i].position) == 0.0
  {
    ZeroSumMeansAllZero(RawWeights(m, SelectorAngle(m, pos), traits));
  }

  /** The weight of a position that some trait of the list occupies is at
      most one. */
  lemma WeightAtMostOne(m: MathLib, pos: Point, traits: seq<Trait>, k: nat)
    requires ValidMath(m)
    requires k < |traits|
    ensures Weight(m, pos, traits[k].position, traits) <= 1.0
  {
    if CenterZone <= Distance(m, pos) {
      var raw := RawWeights(m, SelectorAngle(m, pos), traits);
      var total := Sum(raw);
      if 0.0 < total {
        ElementAtMostSum(raw, k);
        FractionInUnit(raw[k], total);
      }
    }
  }

  /** A lone trait with any affinity takes the whole blend outside the
      centre zone. */
  lemma SingleTraitTakesAll(m: MathLib, pos: Point, t: Trait)
    requires ValidMath(m)
    requires CenterZone <= Distance(m, pos)
    requires 0.0 < PositionAffinity(m, SelectorAngle(m, pos), t.position)
    ensures WeightVector(m, pos, [t]) == [1.0]
  {
    var raw := RawWeights(m, SelectorAngle(m, pos), [t]);
    assert Sum(raw) == raw[0] by {
      assert raw[..0] == [];
    }
    var a := raw[0];
    DivideBySelf(a);
    WeightIsShare(m, pos, [t], 0);
  }

  /** A trait the selector does not point exactly away from has a positive
      raw affinity. */
  lemma AffinityPositive(m: MathLib, angle: real, p: Position)
    requires ValidMath(m)
    requires -180.0 <= angle <= 180.0
    requires WrapDiff(angle, Angle(p)) < 180.0
    ensures 0.0 < PositionAffinity(m, angle, p)
  {
    var d := WrapDiff(angle, InlineAngle(p));
    var t := d * Pi / 180.0;
    assert -Pi < t < Pi;
    var c := m.cos(t);
    assert 0.0 < (1.0 + c) / 2.0 <= 1.0;
  }

  /** Of two different trait positions, at most one lies exactly opposite
      the selector. */
  lemma OppositeIsUnique(angle: real, p: Position, q: Position)
    requires -180.0 <= angle <= 180.0
    requires p != q
    ensures WrapDiff(angle, Angle(p)) < 180.0 || WrapDiff(angle, Angle(q)) < 180.0
  {
  }

  /** Two traits at different positions keep the total affinity positive, so
      the quarter fallback cannot fire. */
  lemma TotalAffinityPositive(m: MathLib, pos: Point, traits: seq<Trait>, i: nat, j: nat)
    requires ValidMath(m)
    requires i < |traits| && j < |traits|
    requires traits[i].position != traits[j].position
    ensures 0.0 < TotalAffinity(m, pos, traits)
  {
    var angle := SelectorAngle(m, pos);
    var raw := RawWeights(m, angle, traits);
    OppositeIsUnique(angle, traits[i].position, traits[j].position);
    var k := if WrapDiff(angle, Angle(traits[i].position)) < 180.0 then i else j;
    AffinityPositive(m, angle, traits[k].position);
    ElementAtMostSum(raw, k);
  }

  /** Outside the centre zone, two traits at different positions are enough
      for the weights to add up to exactly one. */
  lemma TwoPositionsSumToOne(m: MathLib, pos: Point, traits: seq<Trait>, i: nat, j: nat)
    requires ValidMath(m)
    requires CenterZone <= Distance(m, pos)
    requires i < |traits| && j < |traits|
    requires traits[i].position != traits[j].position
    ensures Sum(WeightVector(m, pos, traits)) == 1.0
  {
    TotalAffinityPositive(m, pos, traits, i, j);
    WeightsSumToOne(m, pos, traits);
  }

  /** A selector on the bisector of two opposite positions sees both at the
      same angular distance, so both get the same raw affinity. */
  lemma BisectorIsFair(m: MathLib, angle: real)
    requires ValidMath(m)
    ensures angle == 0.0 || angle == 180.0 || angle == -180.0 ==>
      PositionAffinity(m, angle, Top) == PositionAffinity(m, angle, Bottom)
    ensures angle == 90.0 || angle == -90.0 ==>
      PositionAffinity(m, angle, Right) == PositionAffinity(m, angle, Left)
  {
    assert WrapDiff(0.0, -90.0) == WrapDiff(0.0, 90.0) == 90.0;
    assert WrapDiff(180.0, -90.0) == WrapDiff(180.0, 90.0) == 90.0;
    assert WrapDiff(-180.0, -90.0) == WrapDiff(-180.0, 90.0) == 90.0;
    assert WrapDiff(90.0, 0.0) == WrapDiff(90.0, 180.0) == 90.0;
    assert WrapDiff(-90.0, 0.0) == WrapDiff(-90.0, 180.0) == 90.0;
  }
}
