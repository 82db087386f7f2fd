/** `PersonalityPieChart`: the chart values drawn for a weight list, the
    entry whose icon sits in the middle, and the legend percentages. */
module PieChart {

  import opened Numeric
  import opened Geometry
  import opened Traits
  import opened Weights
  import opened MixerView

  /** A position in a list that may be absent: the `Int?` of
      `firstIndex(where:)`, and the `Entry?` of `max(by:)` named by its
      place in the chart. */
  datatype Lookup = Missing | Found(index: nat)

  /** `lookup ?? fallback`. */
  function IndexOr(lookup: Lookup, fallback: nat): nat {
    if lookup.Found? then lookup.index else fallback
  }

  /** The smallest value a trait's sector is drawn with. */
  const MinimumShare: real := 0.02

  /** One `(trait, value)` element of `chartData`. */
  datatype Entry = Entry(personality: Trait, value: real)

  /** `chartData`. When the weights add up to nothing positive every trait
      gets a quarter; otherwise each trait keeps its weight, raised to the
      two-percent floor. Only the second branch reads `weights`, and it reads
      one weight per trait. */
  function ChartData(traits: seq<Trait>, weights: seq<real>): (data: seq<Entry>)
    requires Sum(weights) > 0.0 ==> |traits| <= |weights|
    ensures |data| == |traits|
    ensures forall i :: 0 <= i < |traits| ==> data[i].personality == traits[i]
    ensures forall i :: 0 <= i < |traits| ==> MinimumShare <= data[i].value
    ensures Sum(weights) <= 0.0 ==> forall i :: 0 <= i < |traits| ==> data[i].value == EqualShare
    ensures Sum(weights) > 0.0 ==> forall i :: 0 <= i < |traits| ==>
      && (weights[i] > MinimumShare ==> data[i].value == weights[i])
      && (weights[i] <= MinimumShare ==> data[i].value == MinimumShare)
  {
    var total := Sum(weights);
    if !(total > 0.0) then
      seq(|traits|, i requires 0 <= i < |traits| => Entry(traits[i], 0.25))
    else
      seq(|traits|, i requires 0 <= i < |traits| =>
        Entry(traits[i], if weights[i] > 0.02 then weights[i] else 0.02))
  }

  /** The larger of two reals. */
  function Max(a: real, b: real): (r: real)
    ensures a <= r && b <= r && (r == a || r == b)
  {
    if a < b then b else a
  }

  /** With a positive total, each chart value is the larger of the trait's
      weight and the floor. */
  lemma ChartValueIsFlooredWeight(traits: seq<Trait>, weights: seq<real>, i: nat)
    requires Sum(weights) > 0.0 && |traits| <= |weights|
    requires i < |traits|
    ensures ChartData(traits, weights)[i].value == Max(weights[i], MinimumShare)
  {
  }

  /** The values of a chart, in order. */
  function Values(data: seq<Entry>): (vs: seq<real>)
    ensures |vs| == |data|
    ensures forall i :: 0 <= i < |data| ==> vs[i] == data[i].value
  {
    seq(|data|, i requires 0 <= i < |data| => data[i].value)
  }

  /** A list whose every element is at least `c` adds up to at least `c`
      per element. */
  lemma {:induction false} SumAtLeast(s: seq<real>, c: real)
    requires forall i :: 0 <= i < |s| ==> c <= s[i]
    ensures |s| as real * c <= Sum(s)
    decreases |s|
  {
    if |s| > 0 {
      var n := |s| - 1;
      assert forall i :: 0 <= i < n ==> s[..n][i] == s[i];
      SumAtLeast(s[..n], c);
    }
  }

  /** Every trait is drawn: the chart's values add up to at least two
      percent per trait, so a non-empty trait list never yields an empty
      chart. */
  lemma ChartTotalPositive(traits: seq<Trait>, weights: seq<real>)
    requires Sum(weights) > 0.0 ==> |traits| <= |weights|
    ensures |traits| as real * 0.02 <= Sum(Values(ChartData(traits, weights)))
    ensures 0 < |traits| ==> 0.0 < Sum(Values(ChartData(traits, weights)))
  {
    var vs := Values(ChartData(traits, weights));
    SumAtLeast(vs, 0.02);
  }

  /** `chartData.max(by: { $0.value < $1.value })`: no entry for an empty
      chart; otherwise an entry whose value no other entry exceeds, the first
      such one, as the scan replaces its candidate only on a strictly larger
      value. */
  method Dominant(data: seq<Entry>) returns (k: Lookup)
    ensures k.Missing? <==> |data| == 0
    ensures k.Found? ==> k.index < |data|
    ensures k.Found? ==> forall j :: 0 <= j < |data| ==> data[j].value <= data[k.index].value
    ensures k.Found? ==> forall j :: 0 <= j < k.index ==> data[j].value < data[k.index].value
  {
    if |data| == 0 {
      return Missing;
    }
    var best := 0;
    var i := 1;
    while i < |data|
      invariant 1 <= i <= |data|
      invariant best < i
      invariant forall j :: 0 <= j < i ==> data[j].value <= data[best].value
      invariant forall j :: 0 <= j < best ==> data[j].value < data[best].value
    {
      if data[best].value < data[i].value {
        best := i;
      }
      i := i + 1;
    }
    return Found(best);
  }

  /** `traits.firstIndex(where: { $0.name == name })`. */
  function FirstIndexByName(traits: seq<Trait>, name: string): (r: Lookup)
    ensures r.Found? ==> r.index < |traits| && traits[r.index].name == name
    ensures r.Found? ==> forall j :: 0 <= j < r.index ==> traits[j].name != name
    ensures r.Missing? ==> forall j :: 0 <= j < |traits| ==> traits[j].name != name
    decreases |traits|
  {
    if |traits| == 0 then Missing
    else if traits[0].name == name then Found(0)
    else
      match FirstIndexByName(traits[1..], name)
      case Missing => Missing
      case Found(i) => Found(i + 1)
  }

  /** The legend percentage printed beside chart entry `k`: the weight of
      the first trait carrying entry `k`'s name (index 0 if none did), times
      100, truncated toward zero. It reads the original weight, not the
      floored chart value. */
  function LegendPercent(traits: seq<Trait>, weights: seq<real>, k: nat): (p: int)
    requires k < |traits| <= |weights|
    ensures exists j :: (
      && 0 <= j <= k && traits[j].name == traits[k].name && p == Percent(weights[j])
      && (forall i :: 0 <= i < j ==> traits[i].name != traits[k].name))
    ensures (forall j :: 0 <= j < k ==> traits[j].name != traits[k].name) ==> p == Percent(weights[k])
    ensures (forall i :: 0 <= i < |weights| ==> 0.0 <= weights[i] <= 1.0) ==> 0 <= p <= 100
  {
    var index := IndexOr(FirstIndexByName(traits, traits[k].name), 0);
    Percent(weights[index])
  }

  /** With distinct names every legend line shows its own trait's weight. */
  lemma LegendReadsOwnWeight(traits: seq<Trait>, weights: seq<real>, k: nat)
    requires k < |traits| <= |weights|
    requires forall i, j :: 0 <= i < j < |traits| ==> traits[i].name != traits[j].name
    ensures LegendPercent(traits, weights, k) == Percent(weights[k])
  {
  }

  /** A trait whose weight is zero is drawn with the two-percent floor while
      its legend line reads 0%. */
  lemma FloorIsNotInLegend(t: Trait, u: Trait)
    requires t.name != u.name
    ensures ChartData([t, u], [0.0, 1.0])[0].value == MinimumShare
    ensures LegendPercent([t, u], [0.0, 1.0], 0) == 0
  {
    assert Sum([0.0, 1.0]) == 1.0 by {
      assert [0.0, 1.0][..1] == [0.0];
      assert [0.0][..0] == [];
    }
  }

  /** The chart of the default mixer's reported blend never takes the
      quarter fallback: it draws every weight above two percent as it is. */
  lemma DefaultChartShowsBlend(m: MathLib, pos: Point, resolve: SystemColor -> Rgb, i: nat)
    requires ValidMath(m)
    requires i < 4
    ensures var traits := DefaultTraits(resolve);
      var weights := BlendWeights(NotifyBlendChange(m, pos, traits));
      weights[i] > MinimumShare ==> ChartData(traits, weights)[i].value == weights[i]
  {
    DefaultBlendSumsToOne(m, pos, resolve);
  }
}
