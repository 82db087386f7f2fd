/** `PersonalityMixer.blendedColor`: the weight-normalised average colour of
    the traits with positive weight, faded toward white near the centre. */
module BlendColor {

  import opened Numeric
  import opened Geometry
  import opened Traits
  import opened Weights

  /** Running sums of the colour loop: the weighted channels and the total
      weight of the traits whose weight is positive. */
  datatype Mix = Mix(red: real, green: real, blue: real, total: real)

  function Colors(traits: seq<Trait>): (cs: seq<Rgb>)
    ensures |cs| == |traits|
    ensures forall i :: 0 <= i < |traits| ==> cs[i] == traits[i].color
  {
    seq(|traits|, i requires 0 <= i < |traits| => traits[i].color)
  }

  ghost predicate AllInUnitCube(cs: seq<Rgb>) {
    forall i :: 0 <= i < |cs| ==> InUnitCube(cs[i])
  }

  /** The loop over the traits, in order, skipping those whose weight is not
      positive. */
  function MixPositive(ws: seq<real>, cs: seq<Rgb>): (mx: Mix)
    requires |ws| == |cs|
    ensures 0.0 <= mx.total
    ensures mx.total == 0.0 <==> forall i :: 0 <= i < |ws| ==> ws[i] <= 0.0
    ensures AllInUnitCube(cs) ==> Bounded(mx)
    decreases |ws|
  {
    if |ws| == 0 then Mix(0.0, 0.0, 0.0, 0.0)
    else
      var n := |ws| - 1;
      assert forall i :: 0 <= i < n ==> ws[..n][i] == ws[i];
      assert AllInUnitCube(cs) ==> AllInUnitCube(cs[..n]) && InUnitCube(cs[n]);
      var acc := MixPositive(ws[..n], cs[..n]);
      if ws[n] > 0.0 then AddEntry(acc, ws[n], cs[n]) else acc
  }

  /** Every weighted channel sum lies between zero and the total weight. */
  predicate Bounded(mx: Mix) {
    && 0.0 <= mx.red <= mx.total
    && 0.0 <= mx.green <= mx.total
    && 0.0 <= mx.blue <= mx.total
  }

  /** One iteration of the loop body for a trait of positive weight `w`. */
  function AddEntry(acc: Mix, w: real, c: Rgb): (r: Mix)
    requires 0.0 < w
    ensures r.total == acc.total + w
    ensures Bounded(acc) && InUnitCube(c) ==> Bounded(r)
  {
    AddChannel(acc.red, acc.total, c.red, w);
    AddChannel(acc.green, acc.total, c.green, w);
    AddChannel(acc.blue, acc.total, c.blue, w);
    Mix(acc.red + c.red * w, acc.green + c.green * w, acc.blue + c.blue * w, acc.total + w)
  }

  /** Adding channel `x` in [0, 1] at weight `w` keeps a channel sum within
      the total. */
  lemma AddChannel(sum: real, total: real, x: real, w: real)
    requires 0.0 < w
    ensures 0.0 <= sum <= total && 0.0 <= x <= 1.0 ==> 0.0 <= sum + x * w <= total + w
  {
    if 0.0 <= x <= 1.0 {
      ProductInUnit(x, w);
    }
  }

  /** The mixed colour: the weighted channel sums divided by the total. */
  function Average(mx: Mix): (c: Rgb)
    requires 0.0 < mx.total
    ensures 0.0 <= mx.red <= mx.total && 0.0 <= mx.green <= mx.total && 0.0 <= mx.blue <= mx.total
      ==> InUnitCube(c)
  {
    AverageBounds(mx);
    Rgb(mx.red / mx.total, mx.green / mx.total, mx.blue / mx.total)
  }

  /** Channel sums between zero and the total give channels in [0, 1]. */
  lemma AverageBounds(mx: Mix)
    requires 0.0 < mx.total
    ensures 0.0 <= mx.red <= mx.total && 0.0 <= mx.green <= mx.total && 0.0 <= mx.blue <= mx.total
      ==> InUnitCube(Rgb(mx.red / mx.total, mx.green / mx.total, mx.blue / mx.total))
  {
    if 0.0 <= mx.red <= mx.total && 0.0 <= mx.green <= mx.total && 0.0 <= mx.blue <= mx.total {
      FractionInUnit(mx.red, mx.total);
      FractionInUnit(mx.green, mx.total);
      FractionInUnit(mx.blue, mx.total);
    }
  }

  /** One channel moved from white (1) toward `x` by `t`. */
  function Fade(x: real, t: real): (r: real)
    ensures t == 0.0 ==> r == 1.0
    ensures t == 1.0 ==> r == x
    ensures 0.0 <= x <= 1.0 && 0.0 <= t <= 1.0 ==> 0.0 <= r <= 1.0
  {
    FadeBounds(x, t);
    1.0 - (1.0 - x) * t
  }

  lemma FadeBounds(x: real, t: real)
    ensures 0.0 <= x <= 1.0 && 0.0 <= t <= 1.0 ==> 0.0 <= (1.0 - x) * t <= 1.0
  {
    if 0.0 <= x <= 1.0 && 0.0 <= t <= 1.0 {
      ProductInUnit(1.0 - x, t);
    }
  }

  /** Each channel moved from white toward `c` by `influence`: white at no
      influence, `c` itself at full influence. */
  function Toward(c: Rgb, influence: real): (r: Rgb)
    ensures influence == 0.0 ==> r == White
    ensures influence == 1.0 ==> r == c
    ensures InUnitCube(c) && 0.0 <= influence <= 1.0 ==> InUnitCube(r)
  {
    Rgb(Fade(c.red, influence), Fade(c.green, influence), Fade(c.blue, influence))
  }

  /** The colour shown for the control point `pos`. The control point's
      distance from the centre is the influence; the mix runs over the
      weights `calculateWeight` gives each trait there. */
  function BlendedColor(m: MathLib, pos: Point, traits: seq<Trait>): (c: Rgb)
    requires ValidMath(m)
    ensures !(0.0 < Distance(m, pos)) ==> c == White
    ensures (forall i :: 0 <= i < |traits| ==> WeightVector(m, pos, traits)[i] <= 0.0) ==> c == White
    ensures 0.0 < Distance(m, pos) && 0.0 < MixPositive(WeightVector(m, pos, traits), Colors(traits)).total ==>
      c == Toward(Average(MixPositive(WeightVector(m, pos, traits), Colors(traits))), Distance(m, pos))
    ensures InDisc(pos) && ColorsInUnitCube(traits) ==> InUnitCube(c)
  {
    var influence := Distance(m, pos);
    if influence > 0.0 then
      var mx := MixPositive(WeightVector(m, pos, traits), Colors(traits));
      if mx.total > 0.0 then
        DistanceAtMostOne(m, pos);
        assert ColorsInUnitCube(traits) ==> AllInUnitCube(Colors(traits));
        Toward(Average(mx), influence)
      else
        White
    else
      White
  }

  /** When every weighted colour is the same colour `k`, each channel sum is
      `k`'s channel times the total weight. */
  lemma {:induction false} MixOfUniform(ws: seq<real>, cs: seq<Rgb>, k: Rgb)
    requires |ws| == |cs|
    requires forall i :: 0 <= i < |cs| ==> cs[i] == k
    ensures Uniform(MixPositive(ws, cs), k)
    decreases |ws|
  {
    if |ws| > 0 {
      var n := |ws| - 1;
      assert forall i :: 0 <= i < n ==> cs[..n][i] == cs[i];
      var acc := MixPositive(ws[..n], cs[..n]);
      MixOfUniform(ws[..n], cs[..n], k);
      if ws[n] > 0.0 {
        assert MixPositive(ws, cs) == AddEntry(acc, ws[n], k);
        AddUniform(acc, ws[n], k);
      } else {
        assert MixPositive(ws, cs) == acc;
      }
    }
  }

  /** Each channel sum is `k`'s channel times the total weight. */
  predicate Uniform(mx: Mix, k: Rgb) {
    mx.red == k.red * mx.total && mx.green == k.green * mx.total && mx.blue == k.blue * mx.total
  }

  lemma AddUniform(acc: Mix, w: real, k: Rgb)
    requires 0.0 < w
    requires Uniform(acc, k)
    ensures Uniform(AddEntry(acc, w, k), k)
  {
    assert k.red * acc.total + k.red * w == k.red * (acc.total + w);
    assert k.green * acc.total + k.green * w == k.green * (acc.total + w);
    assert k.blue * acc.total + k.blue * w == k.blue * (acc.total + w);
  }

  /** Traits that all share one colour blend to that colour, faded toward
      white by the distance from the centre. */
  lemma UniformBlend(m: MathLib, pos: Point, traits: seq<Trait>, k: Rgb)
    requires ValidMath(m)
    requires forall i :: 0 <= i < |traits| ==> traits[i].color == k
    requires 0.0 < Distance(m, pos)
    requires exists i :: 0 <= i < |traits| && 0.0 < WeightVector(m, pos, traits)[i]
    ensures BlendedColor(m, pos, traits) == Toward(k, Distance(m, pos))
  {
    var ws := WeightVector(m, pos, traits);
    var cs := Colors(traits);
    MixOfUniform(ws, cs, k);
    var mx := MixPositive(ws, cs);
    var j :| 0 <= j < |traits| && 0.0 < ws[j];
    assert mx.total != 0.0;
    AverageOfUniform(mx, k);
  }

  lemma AverageOfUniform(mx: Mix, k: Rgb)
    requires 0.0 < mx.total && Uniform(mx, k)
    ensures Average(mx) == k
  {
    CancelTotal(mx.red, k.red, mx.total);
    CancelTotal(mx.green, k.green, mx.total);
    CancelTotal(mx.blue, k.blue, mx.total);
  }

  lemma CancelTotal(x: real, a: real, t: real)
    requires 0.0 < t && x == a * t
    ensures x / t == a
  {
  }
}
