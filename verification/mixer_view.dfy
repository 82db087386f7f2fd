/** `PersonalityMixerView`: the view that owns the control point, reports the
    blend to its caller, and carries its own copy of the weight computation. */
module MixerView {

  import opened Numeric
  import opened Geometry
  import opened Traits
  import opened Weights

  /** The view's own `calculateWeight(for:)`, evaluated at its
      `mixerPosition`, written out as the view writes it. It is the same
      weight the mixer computes. */
  function CalculateWeight(m: MathLib, pos: Point, p: Position, traits: seq<Trait>): (w: real)
    requires ValidMath(m)
    ensures w == Weight(m, pos, p, traits)
  {
    var distance := m.sqrt(pos.x * pos.x + pos.y * pos.y);
    assert NormSq(pos) == pos.x * pos.x + pos.y * pos.y;
    assert distance == Distance(m, pos);
    if distance < 0.15 then 0.25
    else
      var angle := m.atan2(pos.y, pos.x) * 180.0 / Pi;
      assert angle == SelectorAngle(m, pos);
      var rawWeight := ViewRawWeight(m, angle, ViewTraitAngle(p));
      var totalWeight := Sum(AllRawWeights(m, angle, traits));
      if totalWeight > 0.0 then rawWeight / totalWeight else 0.25
  }

  /** The view's `allRawWeights`: the same list as the mixer's. */
  function AllRawWeights(m: MathLib, angle: real, traits: seq<Trait>): (raw: seq<real>)
    requires ValidMath(m)
    ensures raw == RawWeights(m, angle, traits)
  {
    var raw := seq(|traits|, i requires 0 <= i < |traits| =>
      ViewRawWeight(m, angle, ViewTraitAngle(traits[i].position)));
    assert forall i :: 0 <= i < |traits| ==> raw[i] == RawWeights(m, angle, traits)[i];
    raw
  }

  /** The view's `switch` from a position to its angle in degrees. */
  function ViewTraitAngle(p: Position): (a: real)
    ensures a == Angle(p)
  {
    match p
    case Top => -90.0
    case Right => 0.0
    case Bottom => 90.0
    case Left => 180.0
  }

  /** The view's raw affinity of a trait angle seen from `angle`. */
  function ViewRawWeight(m: MathLib, angle: real, traitAngle: real): (r: real)
    requires ValidMath(m)
    ensures r == Affinity(m, WrapDiff(angle, traitAngle))
  {
    var angleDiff := if Abs(angle - traitAngle) > 180.0 then 360.0 - Abs(angle - traitAngle)
                     else Abs(angle - traitAngle);
    var angleRad := angleDiff * Pi / 180.0;
    var cosineWeight := (1.0 + m.cos(angleRad)) / 2.0;
    m.pow(cosineWeight, 2.5)
  }

  /** `traitWeights`: the weight of every trait, in trait order. The view
      reports exactly the weights the mixer draws from. */
  function TraitWeights(m: MathLib, pos: Point, traits: seq<Trait>): (ws: seq<real>)
    requires ValidMath(m)
    ensures ws == WeightVector(m, pos, traits)
  {
    seq(|traits|, i requires 0 <= i < |traits| => CalculateWeight(m, pos, traits[i].position, traits))
  }

  /** One `(trait, weight)` element of the payload handed to `onBlendChange`. */
  datatype BlendEntry = BlendEntry(personality: Trait, weight: real)

  /** `notifyBlendChange`: the payload pairs every trait, in order, with its
      weight. Whether a callback receives it is up to the caller. */
  function NotifyBlendChange(m: MathLib, pos: Point, traits: seq<Trait>): (blend: seq<BlendEntry>)
    requires ValidMath(m)
    ensures |blend| == |traits|
    ensures forall i :: 0 <= i < |traits| ==>
      blend[i].personality == traits[i] && blend[i].weight == Weight(m, pos, traits[i].position, traits)
  {
    var ws := TraitWeights(m, pos, traits);
    seq(|traits|, i requires 0 <= i < |traits| => BlendEntry(traits[i], ws[i]))
  }

  /** The weights of a payload, in order. */
  function BlendWeights(blend: seq<BlendEntry>): (ws: seq<real>)
    ensures |ws| == |blend|
    ensures forall i :: 0 <= i < |blend| ==> ws[i] == blend[i].weight
  {
    seq(|blend|, i requires 0 <= i < |blend| => blend[i].weight)
  }

  /** The system colours the convenience initialiser names. */
  datatype SystemColor = Purple | Blue | Pink | Green

  /** The four-trait convenience initialiser. `resolve` stands for the
      platform's resolution of a named colour to channels. */
  function DefaultTraits(resolve: SystemColor -> Rgb): (traits: seq<Trait>)
    ensures |traits| == 4
    ensures forall i, j :: 0 <= i < j < 4 ==>
      traits[i].position != traits[j].position && traits[i].name != traits[j].name
    ensures forall p: Position :: traits[PositionIndex(p)].position == p
  {
    var traits := [
      Trait("Creative", resolve(Purple), "paintpalette", Top),
      Trait("Analytical", resolve(Blue), "function", Right),
      Trait("Empathetic", resolve(Pink), "heart", Bottom),
      Trait("Practical", resolve(Green), "clock", Left)
    ];
    traits
  }

  /** Where the convenience initialiser puts each position. */
  function PositionIndex(p: Position): (i: nat)
    ensures i < 4
  {
    match p
    case Top => 0
    case Right => 1
    case Bottom => 2
    case Left => 3
  }

  /** With the four default traits the reported weights always add up to
      one: a quarter each in the centre zone, the normalised affinities
      outside it, where the fallback can never fire. */
  lemma DefaultBlendSumsToOne(m: MathLib, pos: Point, resolve: SystemColor -> Rgb)
    requires ValidMath(m)
    ensures Sum(BlendWeights(NotifyBlendChange(m, pos, DefaultTraits(resolve)))) == 1.0
  {
    var traits := DefaultTraits(resolve);
    assert BlendWeights(NotifyBlendChange(m, pos, traits)) == WeightVector(m, pos, traits);
    if Distance(m, pos) < CenterZone {
      CentreWeightsAreQuarters(m, pos, traits);
    } else {
      TwoPositionsSumToOne(m, pos, traits, 0, 1);
    }
  }

  /** Outside the centre zone, any trait list with two different positions
      reports weights that add up to one. */
  lemma ReportedBlendSumsToOne(m: MathLib, pos: Point, traits: seq<Trait>, i: nat, j: nat)
    requires ValidMath(m)
    requires CenterZone <= Distance(m, pos)
    requires i < |traits| && j < |traits|
    requires traits[i].position != traits[j].position
    ensures Sum(BlendWeights(NotifyBlendChange(m, pos, traits))) == 1.0
  {
    assert BlendWeights(NotifyBlendChange(m, pos, traits)) == WeightVector(m, pos, traits);
    TwoPositionsSumToOne(m, pos, traits, i, j);
  }
}
