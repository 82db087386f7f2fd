/** The trait descriptor: a named category with a colour and one of four
    compass positions on the mixing disc. */
module Traits {

  /** The four places a trait can sit around the disc. */
  datatype Position = Top | Right | Bottom | Left

  /** `Position.angle`: the direction of a position in degrees, measured as
      `atan2` measures it in screen coordinates (y grows downward, so the top
      of the disc is at -90). */
  function Angle(p: Position): (a: real)
    ensures -180.0 < a <= 180.0
  {
    match p
    case Top => -90.0
    case Right => 0.0
    case Bottom => 90.0
    case Left => 180.0
  }

  /** Distinct positions have distinct angles, and going round the disc
      clockwise on screen (top, right, bottom, left) each step turns by a
      quarter. */
  lemma AnglesAreQuarterTurns(p: Position, q: Position)
    ensures p != q ==> Angle(p) != Angle(q)
    ensures Angle(Right) == Angle(Top) + 90.0
    ensures Angle(Bottom) == Angle(Right) + 90.0
    ensures Angle(Left) == Angle(Bottom) + 90.0
  {
  }

  /** A colour as red, green and blue channels. */
  datatype Rgb = Rgb(red: real, green: real, blue: real)

  const White := Rgb(1.0, 1.0, 1.0)

  predicate InUnitCube(c: Rgb) {
    0.0 <= c.red <= 1.0 && 0.0 <= c.green <= 1.0 && 0.0 <= c.blue <= 1.0
  }

  /** `PersonalityTrait`. The colour is already resolved to channels. */
  datatype Trait = Trait(name: string, color: Rgb, icon: string, position: Position)

  /** Every trait of the list has channels in [0, 1]. */
  ghost predicate ColorsInUnitCube(traits: seq<Trait>) {
    forall i :: 0 <= i < |traits| ==> InUnitCube(traits[i].color)
  }
}
