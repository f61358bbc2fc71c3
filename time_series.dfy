/**
 * src/risk_analysis/time_series_analysis.py: the historical impact of a risk
 * under one year's indicators, the periods whose projected impact exceeds a
 * threshold, and the cumulative impact over all risks. The projections
 * themselves (an ARIMA forecast) are inputs.
 */
module TimeSeries {
  import opened Common
  import opened Reals
  import opened Models

  // ---------------------------------------------------------------------
  // calculate_historical_impact

  /** Base impact, then the GDP, population and energy-demand factors. */
  function HistoricalFactors(base: real, d: ExternalData): (fs: seq<real>)
    ensures |fs| == 4 && fs[0] == base
  {
    [base,
     1.0 + (d.gdpGrowth - 2.0) * 0.05,
     1.0 + (d.population as real / 10000000000.0) * 0.1,
     1.0 + (d.energyDemand / 100000.0) * 0.05]
  }

  /** calculate_historical_impact: the clamped product, always in [0, 1]. */
  function CalculateHistoricalImpact(risk: Risk, d: ExternalData): (r: real)
    ensures 0.0 <= r <= 1.0
  {
    Clamp01(Product(HistoricalFactors(risk.impact, d)))
  }

  /** A risk with base impact 0 has historical impact 0 in every year. */
  lemma ZeroBaseNoHistoricalImpact(risk: Risk, d: ExternalData)
    requires risk.impact == 0.0
    ensures CalculateHistoricalImpact(risk, d) == 0.0
  {
    ProductZero(HistoricalFactors(risk.impact, d), 0);
  }

  /**
   * In a year whose factors are all non-negative, a higher base impact never
   * gives a lower historical impact.
   */
  lemma HistoricalImpactMonotoneInBase(r1: Risk, r2: Risk, d: ExternalData)
    requires 0.0 <= r1.impact <= r2.impact
    requires d.gdpGrowth >= -18.0 && d.population >= 0 && d.energyDemand >= -2000000.0
    ensures CalculateHistoricalImpact(r1, d) <= CalculateHistoricalImpact(r2, d)
  {
    var a := HistoricalFactors(r1.impact, d);
    var b := HistoricalFactors(r2.impact, d);
    assert forall k :: 0 <= k < 4 ==> 0.0 <= a[k] <= b[k];
    ProductMonotone(a, b);
  }

  // ---------------------------------------------------------------------
  // identify_critical_periods

  /** time_series_results: (risk id, projections) in insertion order. */
  type Projections = seq<(int, seq<real>)>

  /** [i for i, impact in enumerate(projections) if impact > threshold] */
  function CriticalIndices(p: seq<real>, threshold: real): (r: seq<nat>)
    ensures forall i: nat :: i in r <==> i < |p| && p[i] > threshold
    ensures forall a, b :: 0 <= a < b < |r| ==> r[a] < r[b]
  {
    if p == [] then []
    else
      var n := |p| - 1;
      var init := CriticalIndices(p[..n], threshold);
      assert forall i :: 0 <= i < n ==> p[..n][i] == p[i];
      forall a | 0 <= a < |init|
        ensures init[a] < n
      {
        assert init[a] in init;
      }
      init + (if p[n] > threshold then [n] else [])
  }

  /** The critical periods of the first k risks: only risks with a critical index get an entry. */
  function CriticalPeriods(results: Projections, threshold: real): (r: map<int, seq<nat>>)
    ensures |r| <= |results|
  {
    if results == [] then map[]
    else
      var n := |results| - 1;
      var init := CriticalPeriods(results[..n], threshold);
      var critical := CriticalIndices(results[n].1, threshold);
      if critical != [] then init[results[n].0 := critical] else init
  }

  /** Every entry is the non-empty critical list of a risk with that id. */
  lemma {:induction false} CriticalPeriodsSound(results: Projections, threshold: real)
    ensures forall id :: id in CriticalPeriods(results, threshold) ==>
      (CriticalPeriods(results, threshold)[id] != [] &&
       exists j :: 0 <= j < |results| && results[j].0 == id &&
         CriticalPeriods(results, threshold)[id] == CriticalIndices(results[j].1, threshold))
  {
    if results != [] {
      var n := |results| - 1;
      var init := CriticalPeriods(results[..n], threshold);
      var critical := CriticalIndices(results[n].1, threshold);
      var r := CriticalPeriods(results, threshold);
      assert r == if critical != [] then init[results[n].0 := critical] else init;
      CriticalPeriodsSound(results[..n], threshold);
      forall id | id in r
        ensures r[id] != [] &&
          exists j :: 0 <= j < |results| && results[j].0 == id && r[id] == CriticalIndices(results[j].1, threshold)
      {
        if critical != [] && id == results[n].0 {
          assert r[id] == CriticalIndices(results[n].1, threshold);
        } else {
          assert id in init && r[id] == init[id];
          var j :| 0 <= j < n && results[..n][j].0 == id && init[id] == CriticalIndices(results[..n][j].1, threshold);
          assert results[..n][j] == results[j];
        }
      }
    }
  }

  /** Every risk with a critical index has an entry. */
  lemma {:induction false} CriticalPeriodsComplete(results: Projections, threshold: real)
    ensures forall j :: 0 <= j < |results| && CriticalIndices(results[j].1, threshold) != [] ==>
      results[j].0 in CriticalPeriods(results, threshold)
  {
    if results != [] {
      var n := |results| - 1;
      var init := CriticalPeriods(results[..n], threshold);
      var critical := CriticalIndices(results[n].1, threshold);
      var r := CriticalPeriods(results, threshold);
      assert r == if critical != [] then init[results[n].0 := critical] else init;
      CriticalPeriodsComplete(results[..n], threshold);
      forall j | 0 <= j < |results| && CriticalIndices(results[j].1, threshold) != []
        ensures results[j].0 in r
      {
        if j < n {
          assert results[..n][j] == results[j];
        }
      }
    }
  }

  /** One more projection: its index is appended when it is above the threshold. */
  lemma CriticalIndicesSnoc(p: seq<real>, i: nat, threshold: real)
    requires i < |p|
    ensures CriticalIndices(p[..i + 1], threshold) == CriticalIndices(p[..i], threshold) + (if p[i] > threshold then [i] else [])
  {
    assert p[..i + 1][..i] == p[..i];
  }

  /** The list comprehension of one risk's projections. */
  method FindCriticalIndices(p: seq<real>, threshold: real) returns (critical: seq<nat>)
    ensures critical == CriticalIndices(p, threshold)
  {
    critical := [];
    for i := 0 to |p|
      invariant critical == CriticalIndices(p[..i], threshold)
    {
      CriticalIndicesSnoc(p, i, threshold);
      if p[i] > threshold {
        critical := critical + [i];
      }
    }
    assert p[..|p|] == p;
  }

  method IdentifyCriticalPeriods(results: Projections, threshold: real) returns (r: map<int, seq<nat>>)
    ensures r == CriticalPeriods(results, threshold)
  {
    r := map[];
    for k := 0 to |results|
      invariant r == CriticalPeriods(results[..k], threshold)
    {
      var critical := FindCriticalIndices(results[k].1, threshold);
      if critical != [] {
        r := r[results[k].0 := critical];
      }
      assert results[..k + 1][..k] == results[..k];
    }
    assert results[..|results|] == results;
  }

  ghost predicate DistinctRiskIds(results: Projections) {
    forall i, j :: 0 <= i < j < |results| ==> results[i].0 != results[j].0
  }

  /**
   * With one entry per risk (as in a dict), a risk is in the result exactly
   * when it has a critical index, and its entry lists exactly those indices.
   */
  lemma CriticalPeriodsPerRisk(results: Projections, threshold: real)
    requires DistinctRiskIds(results)
    ensures var r := CriticalPeriods(results, threshold);
      forall j :: 0 <= j < |results| ==>
        && (results[j].0 in r <==> CriticalIndices(results[j].1, threshold) != [])
        && (results[j].0 in r ==> r[results[j].0] == CriticalIndices(results[j].1, threshold))
  {
    var r := CriticalPeriods(results, threshold);
    CriticalPeriodsSound(results, threshold);
    CriticalPeriodsComplete(results, threshold);
    forall j | 0 <= j < |results| && results[j].0 in r
      ensures r[results[j].0] == CriticalIndices(results[j].1, threshold)
    {
      var k :| 0 <= k < |results| && results[k].0 == results[j].0 &&
        r[results[j].0] == CriticalIndices(results[k].1, threshold);
      assert k == j;
    }
  }

  // ---------------------------------------------------------------------
  // forecast_cumulative_impact

  /** Every series has at least n entries. */
  ghost predicate AllAtLeast(results: Projections, n: nat) {
    forall j :: 0 <= j < |results| ==> n <= |results[j].1|
  }

  /** [risk_projections[i] for risk_projections in time_series_results.values()] */
  function Column(results: Projections, i: nat): (c: seq<real>)
    requires AllAtLeast(results, i + 1)
    ensures |c| == |results|
    ensures forall j :: 0 <= j < |results| ==> c[j] == results[j].1[i]
  {
    seq(|results|, j requires 0 <= j < |results| => results[j].1[i])
  }

  /**
   * forecast_cumulative_impact: as many periods as the first series; an empty
   * dict has no first series, and a shorter later series is indexed past its end.
   */
  function ForecastCumulativeImpact(results: Projections): (r: Result<seq<real>>)
    ensures r.Failure? <==> |results| == 0 || !AllAtLeast(results, |results[0].1|)
    ensures |results| == 0 ==> r == Failure(NoSeries)
    ensures r.Success? ==> |r.value| == |results[0].1| && AllAtLeast(results, |r.value|)
    ensures r.Success? ==> forall i :: 0 <= i < |r.value| ==> r.value[i] == Sum(Column(results, i))
  {
    if |results| == 0 then Failure(NoSeries)
    else
      var n := |results[0].1|;
      if !forall j :: 0 <= j < |results| ==> n <= |results[j].1| then Failure(SeriesTooShort)
      else Success(seq(n, i requires 0 <= i < n => Sum(Column(results, i))))
  }

  /** If every series rises period by period, so does the cumulative forecast. */
  lemma CumulativeNonDecreasing(results: Projections)
    requires ForecastCumulativeImpact(results).Success?
    requires forall j, i :: 0 <= j < |results| && 0 <= i < |results[j].1| - 1 ==> results[j].1[i] <= results[j].1[i + 1]
    ensures var c := ForecastCumulativeImpact(results).value;
      forall i :: 0 <= i < |c| - 1 ==> c[i] <= c[i + 1]
  {
    var c := ForecastCumulativeImpact(results).value;
    forall i | 0 <= i < |c| - 1
      ensures c[i] <= c[i + 1]
    {
      SumMonotone(Column(results, i), Column(results, i + 1));
    }
  }

  /** If every projection is negative, so is every cumulative entry. */
  lemma CumulativeOfNegative(results: Projections)
    requires ForecastCumulativeImpact(results).Success?
    requires forall j, i :: 0 <= j < |results| && 0 <= i < |results[j].1| ==> results[j].1[i] < 0.0
    ensures var c := ForecastCumulativeImpact(results).value;
      forall i :: 0 <= i < |c| ==> c[i] < 0.0
  {
    var c := ForecastCumulativeImpact(results).value;
    forall i | 0 <= i < |c|
      ensures c[i] < 0.0
    {
      var col := Column(results, i);
      var neg := seq(|col|, j requires 0 <= j < |col| => -col[j]);
      SumAbove(neg, 0.0);
      SumNegated(col, neg);
    }
  }

  lemma {:induction false} SumNegated(a: seq<real>, b: seq<real>)
    requires |a| == |b|
    requires forall j :: 0 <= j < |a| ==> b[j] == -a[j]
    ensures Sum(b) == -Sum(a)
  {
    if a != [] {
      SumNegated(a[..|a| - 1], b[..|b| - 1]);
    }
  }
}
