/**
 * src/risk_analysis/advanced_analysis.py: the aggregate impact of interacting
 * risks over Monte Carlo trials, and the tipping-point sweep. Both run the
 * diffusion step of the interaction model for ten steps; the Beta(2, 2)
 * draws are an input.
 */
module Advanced {
  import opened Common
  import opened Reals
  import opened Models
  import opened Interaction

  /** Both drivers simulate ten interaction steps. */
  const InteractionSteps: nat := 10

  // ---------------------------------------------------------------------
  // assess_aggregate_impact

  /** The starting levels of one trial: each base impact scaled by its own Beta(2, 2) draw. */
  function TrialStart(base: seq<real>, beta: nat -> real): (v: seq<real>)
    ensures |v| == |base|
    ensures forall i :: 0 <= i < |base| ==> v[i] == beta(i) * base[i]
  {
    seq(|base|, i requires 0 <= i < |base| => beta(i) * base[i])
  }

  /** The total level after the ten steps of one trial: between 0 and the number of risks. */
  function AggregateSample(m: array2<real>, base: seq<real>, beta: nat -> real): (x: real)
    reads m
    requires IsSquare(m, |base|)
    ensures 0.0 <= x <= |base| as real
  {
    var w := Levels(m, TrialStart(base, beta), InteractionSteps);
    SumBounds(w, 0.0, 1.0);
    Sum(w)
  }

  /** The aggregate samples of trials 0 .. k-1; draws(j, i) is the draw for risk i in trial j. */
  function AggregateSamples(m: array2<real>, base: seq<real>, draws: (nat, nat) -> real, k: nat): (s: seq<real>)
    reads m
    requires IsSquare(m, |base|)
    ensures |s| == k
    ensures AllIn(s, 0.0, |base| as real)
  {
    if k == 0 then []
    else AggregateSamples(m, base, draws, k - 1) + [AggregateSample(m, base, (i: nat) => draws(k - 1, i))]
  }

  datatype AggregateStats = AggregateStats(mean: real, median: real, percentile95: real, max: real)

  /** The four statistics of the samples; with no samples there is nothing to summarise. */
  function AggregateStatistics(samples: seq<real>): (r: Result<AggregateStats>)
    ensures r.Failure? <==> |samples| == 0
    ensures r.Success? ==> r.value.max == MaxOf(samples)
    ensures r.Success? ==> r.value.mean <= r.value.max && r.value.median <= r.value.max && r.value.percentile95 <= r.value.max
  {
    if |samples| == 0 then Failure(EmptySamples)
    else
      MeanAtMostMax(samples);
      Success(AggregateStats(Mean(samples), Median(samples).value, Percentile(samples, 95.0).value, MaxOf(samples)))
  }

  /** Every statistic of samples in [lo, hi] lies in [lo, hi]. */
  lemma StatisticsInRange(samples: seq<real>, lo: real, hi: real)
    requires |samples| > 0 && AllIn(samples, lo, hi)
    ensures var st := AggregateStatistics(samples).value;
      lo <= st.mean <= hi && lo <= st.median <= hi && lo <= st.percentile95 <= hi && lo <= st.max <= hi
  {
    MeanBounds(samples, lo, hi);
    var st := AggregateStatistics(samples).value;
    var k :| 0 <= k < |samples| && samples[k] <= st.median;
    var k' :| 0 <= k' < |samples| && samples[k'] <= st.percentile95;
  }

  method AssessAggregateImpact(risks: seq<Risk>, m: array2<real>, numSimulations: nat, draws: (nat, nat) -> real)
    returns (r: Result<AggregateStats>)
    requires IsSquare(m, |risks|)
    ensures r == AggregateStatistics(AggregateSamples(m, Impacts(risks), draws, numSimulations))
  {
    var base := Impacts(risks);
    var aggregates: seq<real> := [];
    for j := 0 to numSimulations
      invariant aggregates == AggregateSamples(m, base, draws, j)
    {
      var levels := TrialStart(base, (i: nat) => draws(j, i));
      levels := Propagate(m, levels, InteractionSteps);
      aggregates := aggregates + [Sum(levels)];
    }
    r := AggregateStatistics(aggregates);
  }

  /**
   * assess_aggregate_impact draws num_simulations samples, each in [0, n];
   * it succeeds iff there is at least one, and then every statistic lies in
   * [0, n] and the mean, median and 95th percentile are at most the max.
   */
  lemma AggregateImpactBounds(risks: seq<Risk>, m: array2<real>, numSimulations: nat, draws: (nat, nat) -> real)
    requires IsSquare(m, |risks|)
    ensures var samples := AggregateSamples(m, Impacts(risks), draws, numSimulations);
      var r := AggregateStatistics(samples);
      |samples| == numSimulations && (r.Success? <==> numSimulations > 0) &&
      (r.Success? ==>
        0.0 <= r.value.mean <= r.value.max && 0.0 <= r.value.median <= r.value.max &&
        0.0 <= r.value.percentile95 <= r.value.max && r.value.max <= |risks| as real)
  {
    var samples := AggregateSamples(m, Impacts(risks), draws, numSimulations);
    if numSimulations > 0 {
      StatisticsInRange(samples, 0.0, |risks| as real);
    }
  }

  // ---------------------------------------------------------------------
  // identify_tipping_points

  /** np.linspace(0, 1, 100)[k] */
  function SweepLevel(k: nat): (x: real)
    ensures k <= 99 ==> 0.0 <= x <= 1.0
  {
    k as real / 99.0
  }

  /** risk_levels = base_impacts.copy(); risk_levels[i] = level */
  function SweepStart(base: seq<real>, i: nat, level: real): (v: seq<real>)
    requires i < |base|
    ensures |v| == |base| && v[i] == level
    ensures forall j :: 0 <= j < |base| && j != i ==> v[j] == base[j]
  {
    base[i := level]
  }

  /** The aggregate impact at sweep point k for risk i. */
  function SweepAggregate(m: array2<real>, base: seq<real>, i: nat, k: nat, steps: nat): real
    reads m
    requires IsSquare(m, |base|) && i < |base|
  {
    Sum(Levels(m, SweepStart(base, i, SweepLevel(k)), steps))
  }

  /** The aggregate impacts of the 100 sweep points. */
  function Sweep(m: array2<real>, base: seq<real>, i: nat, steps: nat): (s: seq<real>)
    reads m
    requires IsSquare(m, |base|) && i < |base|
    ensures |s| == 100
    ensures forall k :: 0 <= k < 100 ==> s[k] == SweepAggregate(m, base, i, k, steps)
  {
    seq(100, k reads m requires 0 <= k < 100 => SweepAggregate(m, base, i, k, steps))
  }

  /** np.diff */
  function Diffs(s: seq<real>): (d: seq<real>)
    requires |s| > 0
    ensures |d| == |s| - 1
    ensures forall k :: 0 <= k < |d| ==> d[k] == s[k + 1] - s[k]
  {
    seq(|s| - 1, k requires 0 <= k < |s| - 1 => s[k + 1] - s[k])
  }

  /**
   * x > mean + 2·std, without the square root: std is the non-negative root
   * of the variance, so the test is x − mean > 0 and (x − mean)² > 4·variance.
   */
  predicate AboveThreshold(x: real, mean: real, variance: real) {
    x > mean && (x - mean) * (x - mean) > 4.0 * variance
  }

  /** np.where(rate_of_change > threshold)[0]: every index above the threshold, ascending. */
  function IndicesAbove(d: seq<real>, mean: real, variance: real): (r: seq<nat>)
    ensures forall j :: j in r <==> 0 <= j < |d| && AboveThreshold(d[j], mean, variance)
    ensures forall x :: 0 <= x < |r| ==> r[x] < |d|
    ensures forall x, y :: 0 <= x < y < |r| ==> r[x] < r[y]
  {
    if d == [] then []
    else
      var last := |d| - 1;
      var r := IndicesAbove(d[..last], mean, variance);
      assert forall j :: 0 <= j < last ==> d[..last][j] == d[j];
      if AboveThreshold(d[last], mean, variance) then r + [last] else r
  }

  /** The first element of the ascending index list is the first index above the threshold. */
  lemma FirstIndexIsFirst(d: seq<real>, mean: real, variance: real)
    requires |IndicesAbove(d, mean, variance)| > 0
    ensures var k := IndicesAbove(d, mean, variance)[0];
      k < |d| && AboveThreshold(d[k], mean, variance) &&
      forall j :: 0 <= j < k ==> !AboveThreshold(d[j], mean, variance)
  {
    var r := IndicesAbove(d, mean, variance);
    assert forall x :: 0 <= x < |r| ==> r[0] <= r[x];
  }

  datatype TippingPoint = TippingPoint(riskId: int, riskDescription: string, tippingPointLevel: real, aggregateImpact: real)

  /** The tipping point a sweep of 100 aggregate impacts gives the risk, if any. */
  function TippingFromSweep(risk: Risk, s: seq<real>): (r: Option<TippingPoint>)
    requires |s| == 100
    ensures r.Some? ==> r.value.riskId == risk.id && r.value.riskDescription == risk.description
    ensures r.Some? ==> 0.0 <= r.value.tippingPointLevel <= 1.0
  {
    var d := Diffs(s);
    var indices := IndicesAbove(d, Mean(d), Variance(d));
    if |indices| > 0 then
      var k := indices[0];
      Some(TippingPoint(risk.id, risk.description, SweepLevel(k), s[k]))
    else None
  }

  /** The tipping point of risk i, if its sweep has one. */
  function TippingOf(risks: seq<Risk>, m: array2<real>, i: nat, steps: nat): (r: Option<TippingPoint>)
    reads m
    requires IsSquare(m, |risks|) && i < |risks|
  {
    TippingFromSweep(risks[i], Sweep(m, Impacts(risks), i, steps))
  }

  /**
   * The tipping point is at the first sweep index whose first difference
   * exceeds mean + 2·std: its level is k/99 for that k ≤ 98 and its aggregate
   * impact is the sweep value at k; a risk with no such index has none.
   */
  lemma TippingIsFirstAboveThreshold(risks: seq<Risk>, m: array2<real>, i: nat, steps: nat)
    requires IsSquare(m, |risks|) && i < |risks|
    ensures var s := Sweep(m, Impacts(risks), i, steps);
      var d := Diffs(s);
      var mean, variance := Mean(d), Variance(d);
      match TippingOf(risks, m, i, steps)
      case None => forall j :: 0 <= j < |d| ==> !AboveThreshold(d[j], mean, variance)
      case Some(p) =>
        exists k :: (0 <= k <= 98 && AboveThreshold(d[k], mean, variance) &&
                     (forall j :: 0 <= j < k ==> !AboveThreshold(d[j], mean, variance)) &&
                     p.tippingPointLevel == SweepLevel(k) && p.aggregateImpact == s[k])
  {
    var s := Sweep(m, Impacts(risks), i, steps);
    var d := Diffs(s);
    var indices := IndicesAbove(d, Mean(d), Variance(d));
    if |indices| > 0 {
      FirstIndexIsFirst(d, Mean(d), Variance(d));
      var k := indices[0];
      assert TippingOf(risks, m, i, steps).value.tippingPointLevel == SweepLevel(k);
    } else {
      assert forall j :: 0 <= j < |d| ==> j !in indices;
    }
  }

  /** The tipping point of every risk, in risk order. */
  function Tippings(risks: seq<Risk>, m: array2<real>, steps: nat): (t: seq<Option<TippingPoint>>)
    reads m
    requires IsSquare(m, |risks|)
    ensures |t| == |risks|
    ensures forall i :: 0 <= i < |risks| ==> t[i] == TippingOf(risks, m, i, steps)
  {
    seq(|risks|, i reads m requires 0 <= i < |risks| => TippingOf(risks, m, i, steps))
  }

  /** The present values of a list of options, in order. */
  function Present<T>(s: seq<Option<T>>): seq<T> {
    if s == [] then []
    else
      var earlier := Present(s[..|s| - 1]);
      match s[|s| - 1]
      case Some(p) => earlier + [p]
      case None => earlier
  }

  /** One more option: its value, if present, goes last. */
  lemma PresentSnoc<T>(s: seq<Option<T>>, i: nat)
    requires i < |s|
    ensures Present(s[..i + 1]) == Present(s[..i]) + (if s[i].Some? then [s[i].value] else [])
  {
    assert s[..i + 1][..i] == s[..i];
  }

  /**
   * The positions the present values come from: strictly ascending, so each
   * position contributes at most once and the values keep their order.
   */
  ghost function PresentSources<T>(s: seq<Option<T>>): (src: seq<nat>)
    ensures |src| == |Present(s)| <= |s|
    ensures forall x, y :: 0 <= x < y < |src| ==> src[x] < src[y]
    ensures forall x :: 0 <= x < |src| ==> src[x] < |s| && s[src[x]] == Some(Present(s)[x])
    ensures forall i :: 0 <= i < |s| && s[i].Some? ==> i in src
  {
    if s == [] then []
    else
      var init := s[..|s| - 1];
      var earlier := PresentSources(init);
      assert forall i :: 0 <= i < |init| ==> init[i] == s[i];
      match s[|s| - 1]
      case Some(p) => earlier + [|s| - 1]
      case None => earlier
  }

  /** identify_tipping_points: the tipping points of the risks that have one, in risk order. */
  function TippingPoints(risks: seq<Risk>, m: array2<real>, steps: nat): seq<TippingPoint>
    reads m
    requires IsSquare(m, |risks|)
  {
    Present(Tippings(risks, m, steps))
  }

  /**
   * At most one entry per risk, in risk order: entry x comes from risk
   * position src[x], the positions ascend, every risk with a tipping point
   * contributes, and each entry carries that risk's id.
   */
  lemma TippingPointsPerRisk(risks: seq<Risk>, m: array2<real>, steps: nat) returns (src: seq<nat>)
    requires IsSquare(m, |risks|)
    ensures var tps := TippingPoints(risks, m, steps);
      |src| == |tps| <= |risks| &&
      (forall x, y :: 0 <= x < y < |src| ==> src[x] < src[y]) &&
      (forall x :: 0 <= x < |src| ==>
         src[x] < |risks| && Tippings(risks, m, steps)[src[x]] == Some(tps[x]) && tps[x].riskId == risks[src[x]].id) &&
      (forall i :: 0 <= i < |risks| && Tippings(risks, m, steps)[i].Some? ==> i in src)
  {
    var t := Tippings(risks, m, steps);
    src := PresentSources(t);
    forall x | 0 <= x < |src|
      ensures Present(t)[x].riskId == risks[src[x]].id
    {
      assert t[src[x]] == TippingOf(risks, m, src[x], steps);
    }
  }

  /** One risk's sweep: 100 aggregate impacts, the others starting at their base impacts. */
  method SweepRisk(risks: seq<Risk>, m: array2<real>, i: nat, steps: nat) returns (aggregates: seq<real>)
    requires IsSquare(m, |risks|) && i < |risks|
    ensures aggregates == Sweep(m, Impacts(risks), i, steps)
  {
    var base := Impacts(risks);
    aggregates := [];
    for k := 0 to 100
      invariant |aggregates| == k
      invariant forall j :: 0 <= j < k ==> aggregates[j] == SweepAggregate(m, base, i, j, steps)
    {
      var levels := base;
      levels := levels[i := k as real / 99.0];
      levels := Propagate(m, levels, steps);
      aggregates := aggregates + [Sum(levels)];
    }
  }

  /** np.where(rate_of_change > threshold)[0] */
  method FindIndicesAbove(d: seq<real>, mean: real, variance: real) returns (indices: seq<nat>)
    ensures indices == IndicesAbove(d, mean, variance)
  {
    indices := [];
    for k := 0 to |d|
      invariant indices == IndicesAbove(d[..k], mean, variance)
    {
      assert d[..k + 1][..k] == d[..k];
      if d[k] > mean && (d[k] - mean) * (d[k] - mean) > 4.0 * variance {
        indices := indices + [k];
      }
    }
    assert d[..|d|] == d;
  }

  /** The tail of the outer loop body: first differences, threshold and the first index above it. */
  method TippingFromAggregates(risk: Risk, aggregates: seq<real>) returns (r: Option<TippingPoint>)
    requires |aggregates| == 100
    ensures r == TippingFromSweep(risk, aggregates)
  {
    var rateOfChange := Diffs(aggregates);
    var indices := FindIndicesAbove(rateOfChange, Mean(rateOfChange), Variance(rateOfChange));
    if |indices| > 0 {
      var k := indices[0];
      r := Some(TippingPoint(risk.id, risk.description, k as real / 99.0, aggregates[k]));
    } else {
      r := None;
    }
  }

  lemma TippingOfSweep(risks: seq<Risk>, m: array2<real>, i: nat, steps: nat, aggregates: seq<real>)
    requires IsSquare(m, |risks|) && i < |risks|
    requires aggregates == Sweep(m, Impacts(risks), i, steps)
    ensures Tippings(risks, m, steps)[i] == TippingFromSweep(risks[i], aggregates)
  {
  }

  /** identify_tipping_points, each sweep point simulated for the given number of steps. */
  method TippingPointsAfter(risks: seq<Risk>, m: array2<real>, steps: nat) returns (tippingPoints: seq<TippingPoint>)
    requires IsSquare(m, |risks|)
    ensures tippingPoints == TippingPoints(risks, m, steps)
  {
    var tippings := Tippings(risks, m, steps);
    tippingPoints := [];
    for i := 0 to |risks|
      invariant tippingPoints == Present(tippings[..i])
    {
      var aggregates := SweepRisk(risks, m, i, steps);
      var tippingPoint := TippingFromAggregates(risks[i], aggregates);
      TippingOfSweep(risks, m, i, steps, aggregates);
      PresentSnoc(tippings, i);
      if tippingPoint.Some? {
        tippingPoints := tippingPoints + [tippingPoint.value];
      }
    }
    assert tippings[..|risks|] == tippings;
  }

  /** identify_tipping_points: every sweep point is simulated for ten interaction steps. */
  method IdentifyTippingPoints(risks: seq<Risk>, m: array2<real>) returns (tippingPoints: seq<TippingPoint>)
    requires IsSquare(m, |risks|)
    ensures tippingPoints == TippingPoints(risks, m, InteractionSteps)
  {
    tippingPoints := TippingPointsAfter(risks, m, InteractionSteps);
  }
}
