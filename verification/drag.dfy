/** The drag-to-position pipeline of the mixer control: a drag location is
    turned into a normalised offset, projected into the unit disc, pulled
    toward the centre when close to it, and checked against the centre zone
    so that the haptic tick fires once per crossing. */
module Drag {

  import opened Numeric
  import opened Geometry

  /** Diameter of the disc on screen, in points. */
  const CircleSize: real := 300.0
  /** Distances below this count as "in the centre" for the haptic tick. */
  const CenterThreshold: real := 0.15
  /** The largest fraction of the distance the magnetic pull removes. */
  const MagneticStrength: real := 0.3
  /** Distances below this are pulled toward the centre. */
  const MagneticRadius: real := 0.25

  datatype Size = Size(width: real, height: real)

  /** The frame the drag gesture reports locations in: the disc plus room
      for the labels around it. */
  const FrameSize := Size(CircleSize + 120.0, CircleSize + 120.0)

  /** The control's state between drag events: the settled position and
      whether the last settled position was in the centre zone. */
  datatype MixerState = MixerState(position: Point, wasInCenter: bool)

  /** A session starts with the knob at the centre and `wasInCenter` unset. */
  const InitialState := MixerState(Origin, false)

  /** A point together with the distance the pipeline has computed for it. */
  datatype Settled = Settled(point: Point, distance: real)

  /** The outcome of one drag event: the new state and whether the haptic
      tick fired. */
  datatype Update = Update(state: MixerState, haptic: bool)

  /** Offset of the drag location from the frame's centre, in units of the
      disc's radius. */
  function Relative(location: Point, size: Size): (p: Point)
    ensures location.x == size.width / 2.0 + p.x * (CircleSize / 2.0)
    ensures location.y == size.height / 2.0 + p.y * (CircleSize / 2.0)
  {
    Point((location.x - size.width / 2.0) / (CircleSize / 2.0),
          (location.y - size.height / 2.0) / (CircleSize / 2.0))
  }

  /** Where the knob is drawn for a position, in frame coordinates. */
  function KnobLocation(p: Point): (location: Point)
    ensures Relative(location, FrameSize) == p
  {
    Point((CircleSize + 120.0) / 2.0 + p.x * (CircleSize / 2.0),
          (CircleSize + 120.0) / 2.0 + p.y * (CircleSize / 2.0))
  }

  /** Drawing inverts the normalisation: the knob of an unclamped, unpulled
      position is drawn exactly under the drag location. */
  lemma KnobFollowsDrag(location: Point)
    ensures KnobLocation(Relative(location, FrameSize)) == location
  {
  }

  /** "Constrain to circle": a point outside the unit disc is divided by its
      distance, which puts it on the unit circle in the same direction. */
  function ClampToDisc(m: MathLib, p: Point): (s: Settled)
    requires ValidMath(m)
    ensures InDisc(s.point)
    ensures s.distance == Distance(m, s.point)
    ensures Distance(m, p) <= 1.0 ==> s.point == p
    ensures 1.0 < Distance(m, p) ==>
      NormSq(s.point) == 1.0 && s.distance == 1.0 && SameDirection(s.point, p)
  {
    var d := Distance(m, p);
    if d > 1.0 then
      var q := Point(p.x / d, p.y / d);
      ClampLandsOnCircle(m, p);
      Settled(q, 1.0)
    else
      DistanceAtMostOne(m, p);
      Settled(p, d)
  }

  lemma ClampLandsOnCircle(m: MathLib, p: Point)
    requires ValidMath(m)
    requires 1.0 < Distance(m, p)
    ensures var d := Distance(m, p);
      var q := Point(p.x / d, p.y / d);
      NormSq(q) == 1.0 && Distance(m, q) == 1.0 && SameDirection(q, p)
  {
    var d := Distance(m, p);
    var k := 1.0 / d;
    var q := Point(p.x / d, p.y / d);
    assert q == Scale(p, k);
    DistanceScale(m, p, k);
    assert k * d == 1.0;
    assert NormSq(q) == k * k * (d * d);
    assert k * k * (d * d) == (k * d) * (k * d);
  }

  /** The fraction of the distance the magnetic pull removes at distance
      `d`: the full strength at the centre, falling linearly to none at the
      magnetic radius. */
  function PullStrength(d: real): (pull: real)
    ensures 0.0 < d < MagneticRadius ==> 0.0 < pull < MagneticStrength
  {
    (1.0 - d / MagneticRadius) * MagneticStrength
  }

  /** The pull is stronger the closer the point is to the centre. */
  lemma PullStrongerNearCentre(d1: real, d2: real)
    requires d1 < d2
    ensures PullStrength(d2) < PullStrength(d1)
  {
  }

  /** "Apply magnetic pull to center": a point strictly inside the magnetic
      radius, other than the centre, has both coordinates multiplied by
      `1 - pull`, which shortens its distance without turning it; every other
      point is left alone. */
  function MagneticPull(m: MathLib, s: Settled): (r: Settled)
    requires ValidMath(m)
    requires s.distance == Distance(m, s.point)
    ensures r.distance == Distance(m, r.point)
    ensures 0.0 < s.distance < MagneticRadius ==>
      && r.point == Scale(s.point, 1.0 - PullStrength(s.distance))
      && SameDirection(r.point, s.point)
      && (1.0 - MagneticStrength) * s.distance < r.distance < s.distance
    ensures !(0.0 < s.distance < MagneticRadius) ==> r == s
  {
    if s.distance < MagneticRadius && s.distance > 0.0 then
      var pull := PullStrength(s.distance);
      var q := Point(s.point.x * (1.0 - pull), s.point.y * (1.0 - pull));
      PullShortens(m, s.point, pull);
      Settled(q, Distance(m, q))
    else
      s
  }

  lemma PullShortens(m: MathLib, p: Point, pull: real)
    requires ValidMath(m)
    requires 0.0 < Distance(m, p)
    requires 0.0 < pull < MagneticStrength
    ensures var q := Point(p.x * (1.0 - pull), p.y * (1.0 - pull));
      && q == Scale(p, 1.0 - pull)
      && SameDirection(q, p)
      && (1.0 - MagneticStrength) * Distance(m, p) < Distance(m, q) < Distance(m, p)
  {
    var k := 1.0 - pull;
    var q := Scale(p, k);
    assert 0.0 < k && q == Scale(p, k);
    DistanceScale(m, p, k);
    ShrinkTo(Distance(m, p), Distance(m, q), pull);
  }

  /** Removing a fraction `pull` in (0, strength) of a positive length `d`
      leaves a length `dq` of more than `1 - strength` of it. */
  lemma ShrinkTo(d: real, dq: real, pull: real)
    requires 0.0 < d
    requires 0.0 < pull < MagneticStrength
    requires dq == (1.0 - pull) * d
    ensures (1.0 - MagneticStrength) * d < dq < d
  {
    MulPositive(pull, d);
    MulPositive(MagneticStrength - pull, d);
  }

  /** The edge-triggered centre-zone check: the tick fires when the new
      distance is on the other side of the threshold from the remembered one,
      and the remembered side is then updated. */
  datatype Crossing = Crossing(fired: bool, inCenter: bool)

  function CenterStep(wasInCenter: bool, distance: real): (c: Crossing)
    ensures c.inCenter <==> distance < CenterThreshold
    ensures c.fired <==> c.inCenter != wasInCenter
  {
    var isInCenter := distance < CenterThreshold;
    if isInCenter != wasInCenter then Crossing(true, isInCenter)
    else Crossing(false, wasInCenter)
  }

  /** `updatePosition`: one drag event. */
  function UpdatePosition(m: MathLib, s: MixerState, location: Point, size: Size): (u: Update)
    requires ValidMath(m)
    ensures InDisc(u.state.position)
    ensures u.state.wasInCenter <==> Distance(m, u.state.position) < CenterThreshold
    ensures u.haptic <==> u.state.wasInCenter != s.wasInCenter
    ensures var rel := Relative(location, size);
      MagneticRadius <= Distance(m, rel) <= 1.0 ==> u.state.position == rel
    ensures Relative(location, size) == Origin ==> u.state.position == Origin
    ensures SameDirection(u.state.position, Relative(location, size))
    ensures Distance(m, u.state.position) <= Distance(m, Relative(location, size))
    ensures 1.0 < Distance(m, Relative(location, size)) ==> NormSq(u.state.position) == 1.0
  {
    var rel := Relative(location, size);
    var clamped := ClampToDisc(m, rel);
    var pulled := MagneticPull(m, clamped);
    PullStaysInDisc(m, clamped);
    SettleKeepsRay(m, rel);
    var step := CenterStep(s.wasInCenter, pulled.distance);
    Update(MixerState(pulled.point, step.inCenter), step.fired)
  }

  lemma PullStaysInDisc(m: MathLib, before: Settled)
    requires ValidMath(m)
    requires InDisc(before.point)
    requires before.distance == Distance(m, before.point)
    ensures InDisc(MagneticPull(m, before).point)
  {
    DistanceAtMostOne(m, before.point);
    DistanceAtMostOne(m, MagneticPull(m, before).point);
  }

  /** Clamping and pulling keep the offset on its ray from the centre and
      never move it farther out. */
  lemma SettleKeepsRay(m: MathLib, rel: Point)
    requires ValidMath(m)
    ensures var settled := MagneticPull(m, ClampToDisc(m, rel)).point;
      SameDirection(settled, rel) && Distance(m, settled) <= Distance(m, rel)
  {
    var clamped := ClampToDisc(m, rel);
    var pulled := MagneticPull(m, clamped);
    if Distance(m, rel) <= 1.0 {
      SameDirectionReflexive(rel);
    }
    if 0.0 < clamped.distance < MagneticRadius {
      SameDirectionTransitive(pulled.point, clamped.point, rel);
    } else {
      SameDirectionReflexive(clamped.point);
    }
  }

  /** Two consecutive drag events: the second fires the tick exactly when
      its settled position is on the other side of the centre threshold from
      the first one's, so staying on one side never fires twice. */
  lemma SecondUpdateFiresOnlyOnCrossing(m: MathLib, s: MixerState, a: Point, b: Point, size: Size)
    requires ValidMath(m)
    ensures var u1 := UpdatePosition(m, s, a, size);
      var u2 := UpdatePosition(m, u1.state, b, size);
      u2.haptic <==>
        (Distance(m, u1.state.position) < CenterThreshold) != (Distance(m, u2.state.position) < CenterThreshold)
  {
  }

  /** The drag gesture's `onChanged` handler fed a sequence of locations in
      arrival order. */
  function Drive(m: MathLib, s: MixerState, locations: seq<Point>): (trace: seq<Update>)
    requires ValidMath(m)
    ensures |trace| == |locations|
    ensures forall i :: 0 <= i < |trace| ==> InDisc(trace[i].state.position)
    ensures forall i :: 0 <= i < |trace| ==>
      (trace[i].state.wasInCenter <==> Distance(m, trace[i].state.position) < CenterThreshold)
    ensures 0 < |trace| ==> (trace[0].haptic <==> trace[0].state.wasInCenter != s.wasInCenter)
    ensures forall i :: 0 < i < |trace| ==>
      (trace[i].haptic <==> trace[i].state.wasInCenter != trace[i - 1].state.wasInCenter)
    ensures forall i :: 0 <= i < |trace| ==>
      trace[i] == UpdatePosition(m, if i == 0 then s else trace[i - 1].state, locations[i], FrameSize)
    decreases |locations|
  {
    if |locations| == 0 then []
    else
      var u := UpdatePosition(m, s, locations[0], FrameSize);
      [u] + Drive(m, u.state, locations[1..])
  }

  /** The session starts at the centre with `wasInCenter` unset, so the first
      drag event that settles in the centre zone fires the tick although the
      knob never left it. */
  lemma FreshSessionFiresAtCentre(m: MathLib)
    requires ValidMath(m)
    ensures var centre := Point(FrameSize.width / 2.0, FrameSize.height / 2.0);
      UpdatePosition(m, InitialState, centre, FrameSize).haptic
  {
    var centre := Point(FrameSize.width / 2.0, FrameSize.height / 2.0);
    assert Relative(centre, FrameSize) == Origin;
    DistanceBelow(m, Origin, CenterThreshold);
  }
}
