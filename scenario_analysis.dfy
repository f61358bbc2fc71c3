/**
 * src/risk_analysis/scenario_analysis.py: impact and likelihood scoring of a
 * risk under a scenario and the latest external indicators, scenario
 * perturbation, the Monte Carlo driver, VaR/CVaR, the sensitivity formula
 * and stress testing. Random draws are inputs.
 */
module ScenarioAnalysis {
  import opened Common
  import opened Reals
  import opened Models

  // ---------------------------------------------------------------------
  // Scoring

  /** The seven factors calculate_risk_impact multiplies, base impact first. */
  function ImpactFactors(base: real, s: Scenario, gdpGrowth: real): (fs: seq<real>)
    ensures |fs| == 7 && fs[0] == base
  {
    [base,
     1.0 + (s.tempIncrease - 1.5) * 0.1,         // +10% per degree above 1.5
     1.0 + (s.carbonPrice / 100.0) * 0.05,       // +5% per $100 of carbon price
     1.0 - s.renewableEnergy * 0.2,              // -20% at full renewables
     1.0 + s.biodiversityLoss * 0.15,            // +15% at total biodiversity loss
     1.0 + s.ecosystemDegradation * 0.25,        // +25% at total degradation
     1.0 - gdpGrowth * 0.1]                      // GDP growth dampens impact
  }

  /** calculate_risk_impact: fails exactly when there is no indicator set to read; otherwise a score in [0, 1]. */
  function CalculateRiskImpact(risk: Risk, table: IndicatorTable, s: Scenario): (r: Result<real>)
    ensures r.Failure? <==> |table| == 0
    ensures r.Failure? ==> r.error == EmptyIndicatorTable
    ensures r.Success? ==> 0.0 <= r.value <= 1.0
  {
    var latest := LatestIndicators(table);
    if latest.Failure? then Failure(latest.error)
    else Success(Clamp01(Product(ImpactFactors(risk.impact, s, latest.value.gdpGrowth))))
  }

  /** The six factors calculate_risk_likelihood multiplies, base likelihood first. */
  function LikelihoodFactors(base: real, s: Scenario, population: int): (fs: seq<real>)
    ensures |fs| == 6 && fs[0] == base
  {
    [base,
     1.0 - s.policyStringency * 0.3,                       // stricter policy lowers likelihood
     1.0 + s.ecosystemDegradation * 0.4,
     1.0 - s.financialStability * 0.2,
     1.0 + s.supplyChainDisruption * 0.3,
     1.0 + (population as real / 10000000000.0) * 0.1]    // population / 1e10
  }

  /** calculate_risk_likelihood: fails exactly when there is no indicator set to read; otherwise a score in [0, 1]. */
  function CalculateRiskLikelihood(risk: Risk, table: IndicatorTable, s: Scenario): (r: Result<real>)
    ensures r.Failure? <==> |table| == 0
    ensures r.Failure? ==> r.error == EmptyIndicatorTable
    ensures r.Success? ==> 0.0 <= r.value <= 1.0
  {
    var latest := LatestIndicators(table);
    if latest.Failure? then Failure(latest.error)
    else Success(Clamp01(Product(LikelihoodFactors(risk.likelihood, s, latest.value.population))))
  }

  /** A risk with base impact 0 scores impact 0 and one with base likelihood 0 scores likelihood 0, whatever the scenario. */
  lemma ZeroBaseScoresZero(risk: Risk, table: IndicatorTable, s: Scenario)
    requires |table| > 0
    ensures risk.impact == 0.0 ==> CalculateRiskImpact(risk, table, s) == Success(0.0)
    ensures risk.likelihood == 0.0 ==> CalculateRiskLikelihood(risk, table, s) == Success(0.0)
  {
    var latest := LatestIndicators(table).value;
    if risk.impact == 0.0 {
      ProductZero(ImpactFactors(risk.impact, s, latest.gdpGrowth), 0);
    }
    if risk.likelihood == 0.0 {
      ProductZero(LikelihoodFactors(risk.likelihood, s, latest.population), 0);
    }
  }

  /**
   * Scoring reads only the indicator set under the greatest key: two dicts
   * that agree on that entry score every risk identically.
   */
  lemma ScoringReadsOnlyMaxKey(risk: Risk, s: Scenario, t1: IndicatorTable, t2: IndicatorTable, key: string, d: ExternalData)
    requires DistinctKeys(t1) && DistinctKeys(t2)
    requires (key, d) in t1 && (key, d) in t2
    requires forall j :: 0 <= j < |t1| ==> Text.StrLessEq(t1[j].0, key)
    requires forall j :: 0 <= j < |t2| ==> Text.StrLessEq(t2[j].0, key)
    ensures CalculateRiskImpact(risk, t1, s) == CalculateRiskImpact(risk, t2, s)
    ensures CalculateRiskLikelihood(risk, t1, s) == CalculateRiskLikelihood(risk, t2, s)
  {
    LatestDependsOnlyOnMaxKey(t1, t2, key, d);
  }

  /**
   * The extreme scenario of the edge-case test (5 degrees, $1000 carbon, full
   * renewables, total biodiversity loss and degradation) saturates a base
   * impact of 1 at exactly 1.0 whenever the latest GDP growth is at most 5.7.
   */
  lemma ExtremeScenarioSaturates(risk: Risk, table: IndicatorTable, s: Scenario)
    requires risk.impact == 1.0
    requires s.tempIncrease == 5.0 && s.carbonPrice == 1000.0 && s.renewableEnergy == 1.0
    requires s.biodiversityLoss == 1.0 && s.ecosystemDegradation == 1.0
    requires |table| > 0 && LatestIndicators(table).value.gdpGrowth <= 5.7
    ensures CalculateRiskImpact(risk, table, s) == Success(1.0)
  {
    var g := LatestIndicators(table).value.gdpGrowth;
    var fs := ImpactFactors(risk.impact, s, g);
    assert fs == [1.0, 1.35, 1.5, 0.8, 1.15, 1.25, 1.0 - g * 0.1];
    assert Product(fs) == 2.32875 * (1.0 - g * 0.1) by {
      assert fs[..6] == [1.0, 1.35, 1.5, 0.8, 1.15, 1.25];
      assert Product(fs[..6]) == 2.32875 by { ProductOfConstants(); }
    }
  }

  lemma ProductOfConstants()
    ensures Product([1.0, 1.35, 1.5, 0.8, 1.15, 1.25]) == 2.32875
  {
    assert Product([1.0]) == 1.0 by { assert [1.0][..0] == []; }
    assert Product([1.0, 1.35]) == 1.35 by { assert [1.0, 1.35][..1] == [1.0]; }
    assert Product([1.0, 1.35, 1.5]) == 2.025 by { assert [1.0, 1.35, 1.5][..2] == [1.0, 1.35]; }
    assert Product([1.0, 1.35, 1.5, 0.8]) == 1.62 by { assert [1.0, 1.35, 1.5, 0.8][..3] == [1.0, 1.35, 1.5]; }
    assert Product([1.0, 1.35, 1.5, 0.8, 1.15]) == 1.863 by {
      assert [1.0, 1.35, 1.5, 0.8, 1.15][..4] == [1.0, 1.35, 1.5, 0.8];
    }
    assert [1.0, 1.35, 1.5, 0.8, 1.15, 1.25][..5] == [1.0, 1.35, 1.5, 0.8, 1.15];
  }

  /** Clamping to [0, 1] keeps order. */
  lemma Clamp01Monotone(x: real, y: real)
    requires x <= y
    ensures Clamp01(x) <= Clamp01(y)
  {
  }

  /** The scenario ranges under which every impact factor is non-negative. */
  ghost predicate ImpactDomain(risk: Risk, s: Scenario, gdpGrowth: real) {
    risk.impact >= 0.0 && s.tempIncrease >= 0.0 && s.carbonPrice >= 0.0
    && 0.0 <= s.renewableEnergy <= 1.0 && 0.0 <= s.biodiversityLoss <= 1.0
    && 0.0 <= s.ecosystemDegradation <= 1.0 && gdpGrowth <= 10.0
  }

  /** The scenario ranges under which every likelihood factor is non-negative. */
  ghost predicate LikelihoodDomain(risk: Risk, s: Scenario, population: int) {
    risk.likelihood >= 0.0 && 0.0 <= s.policyStringency <= 1.0 && 0.0 <= s.ecosystemDegradation <= 1.0
    && 0.0 <= s.financialStability <= 1.0 && 0.0 <= s.supplyChainDisruption <= 1.0 && population >= 0
  }

  /**
   * A higher carbon price never lowers the impact score: the carbon factor
   * is the only one that changes and every factor is non-negative.
   */
  lemma CarbonPriceRaisesImpact(risk: Risk, table: IndicatorTable, s: Scenario, price: real)
    requires |table| > 0 && ImpactDomain(risk, s, LatestIndicators(table).value.gdpGrowth)
    requires price >= s.carbonPrice
    ensures CalculateRiskImpact(risk, table, s).value <= CalculateRiskImpact(risk, table, s.(carbonPrice := price)).value
  {
    var g := LatestIndicators(table).value.gdpGrowth;
    var a := ImpactFactors(risk.impact, s, g);
    var b := ImpactFactors(risk.impact, s.(carbonPrice := price), g);
    assert a[2] <= b[2];
    ProductMonotone(a, b);
    Clamp01Monotone(Product(a), Product(b));
  }

  // ---------------------------------------------------------------------
  // Stress testing

  /**
   * The stressed scenario perform_stress_testing builds: temperature x1.5,
   * carbon price x2, renewables, policy and financial stability halved,
   * biodiversity loss and degradation x1.5 and supply disruption x2, capped
   * at 1. The four fields the source does not pass are carried over.
   */
  function StressedScenario(name: string, s: Scenario): (t: Scenario)
    ensures t.name == "Stressed_" + name
    ensures t.biodiversityLoss <= 1.0 && t.ecosystemDegradation <= 1.0 && t.supplyChainDisruption <= 1.0
    ensures t.biodiversityIndex == s.biodiversityIndex && t.ecosystemHealth == s.ecosystemHealth
    ensures t.financialSystemStability == s.financialSystemStability
    ensures t.globalSupplyChainResilience == s.globalSupplyChainResilience
  {
    Scenario(
      "Stressed_" + name,
      s.tempIncrease * 1.5,
      s.carbonPrice * 2.0,
      s.renewableEnergy * 0.5,
      s.policyStringency * 0.5,
      Min1(s.biodiversityLoss * 1.5),
      Min1(s.ecosystemDegradation * 1.5),
      s.financialStability * 0.5,
      Min1(s.supplyChainDisruption * 2.0),
      s.biodiversityIndex, s.ecosystemHealth, s.financialSystemStability, s.globalSupplyChainResilience)
  }

  function Min1(x: real): (r: real)
    ensures r <= 1.0 && r <= x && (r == x || r == 1.0)
  {
    if x < 1.0 then x else 1.0
  }

  /**
   * Stressing never lowers a risk's impact or likelihood score when the
   * scenario lies in the usual ranges (it can leave it equal, once clamping
   * to 1 applies).
   */
  lemma StressNeverLowersScores(risk: Risk, table: IndicatorTable, name: string, s: Scenario)
    requires |table| > 0
    ensures ImpactDomain(risk, s, LatestIndicators(table).value.gdpGrowth) ==>
      CalculateRiskImpact(risk, table, s).value <= CalculateRiskImpact(risk, table, StressedScenario(name, s)).value
    ensures LikelihoodDomain(risk, s, LatestIndicators(table).value.population) ==>
      CalculateRiskLikelihood(risk, table, s).value <= CalculateRiskLikelihood(risk, table, StressedScenario(name, s)).value
  {
    var latest := LatestIndicators(table).value;
    var t := StressedScenario(name, s);
    if ImpactDomain(risk, s, latest.gdpGrowth) {
      var a := ImpactFactors(risk.impact, s, latest.gdpGrowth);
      var b := ImpactFactors(risk.impact, t, latest.gdpGrowth);
      assert forall i :: 0 <= i < 7 ==> 0.0 <= a[i] <= b[i];
      ProductMonotone(a, b);
      Clamp01Monotone(Product(a), Product(b));
    }
    if LikelihoodDomain(risk, s, latest.population) {
      var a := LikelihoodFactors(risk.likelihood, s, latest.population);
      var b := LikelihoodFactors(risk.likelihood, t, latest.population);
      assert a[5] >= 0.0 by {
        assert latest.population as real / 10000000000.0 >= 0.0;
      }
      assert forall i :: 0 <= i < 6 ==> 0.0 <= a[i] <= b[i];
      ProductMonotone(a, b);
      Clamp01Monotone(Product(a), Product(b));
    }
  }

  /** perform_stress_testing as written: Scenario(...) is called with eight of its twelve fields, a TypeError for any scenario. */
  function StressTestingAsWritten(risks: seq<Risk>, scenarios: map<string, Scenario>, table: IndicatorTable): (r: Result<map<string, seq<(Risk, real)>>>)
    ensures r.Failure? <==> |scenarios| > 0
    ensures r.Success? ==> r.value == map[]
  {
    if |scenarios| > 0 then Failure(MissingScenarioFields) else Success(map[])
  }

  /** The stress test of the unit tests has one scenario, so as written it cannot return. */
  lemma StressTestingAsWrittenFails(risks: seq<Risk>, table: IndicatorTable, s: Scenario)
    ensures StressTestingAsWritten(risks, map["Net Zero 2050" := s], table).Failure?
  {
    assert "Net Zero 2050" in map["Net Zero 2050" := s];
  }

  // ---------------------------------------------------------------------
  // simulate_scenario_impact and perform_stress_testing

  /** The (risk, impact) pairs of simulate_scenario_impact, one per risk in input order. */
  predicate IsScenarioImpact(pairs: seq<(Risk, real)>, risks: seq<Risk>, table: IndicatorTable, s: Scenario) {
    |pairs| == |risks|
    && forall i :: 0 <= i < |risks| ==> pairs[i].0 == risks[i] && CalculateRiskImpact(risks[i], table, s) == Success(pairs[i].1)
  }

  method SimulateScenarioImpact(risks: seq<Risk>, table: IndicatorTable, s: Scenario) returns (r: Result<seq<(Risk, real)>>)
    ensures r.Failure? <==> |table| == 0 && |risks| > 0
    ensures r.Success? ==> IsScenarioImpact(r.value, risks, table, s)
  {
    var impacts: seq<(Risk, real)> := [];
    for i := 0 to |risks|
      invariant |table| > 0 || i == 0
      invariant IsScenarioImpact(impacts, risks[..i], table, s)
    {
      var impact := CalculateRiskImpact(risks[i], table, s);
      if impact.Failure? {
        return Failure(impact.error);
      }
      impacts := impacts + [(risks[i], impact.value)];
    }
    assert risks[..|risks|] == risks;
    return Success(impacts);
  }

  /** Every impact simulate_scenario_impact reports lies in [0, 1]. */
  lemma ScenarioImpactsInUnitRange(pairs: seq<(Risk, real)>, risks: seq<Risk>, table: IndicatorTable, s: Scenario, i: int)
    requires IsScenarioImpact(pairs, risks, table, s) && 0 <= i < |pairs|
    ensures 0.0 <= pairs[i].1 <= 1.0
  {
    var r := CalculateRiskImpact(risks[i], table, s);
    assert r == Success(pairs[i].1);
  }

  /** perform_stress_testing, with the stressed scenario complete: one impact list per scenario, scored under its stressed form. */
  method PerformStressTesting(risks: seq<Risk>, scenarios: map<string, Scenario>, table: IndicatorTable)
    returns (r: Result<map<string, seq<(Risk, real)>>>)
    ensures r.Failure? <==> |table| == 0 && |risks| > 0 && |scenarios| > 0
    ensures r.Success? ==> r.value.Keys == scenarios.Keys
    ensures r.Success? ==> forall name :: name in r.value ==>
      IsScenarioImpact(r.value[name], risks, table, StressedScenario(name, scenarios[name]))
  {
    var results: map<string, seq<(Risk, real)>> := map[];
    var remaining := scenarios.Keys;
    while remaining != {}
      invariant remaining <= scenarios.Keys
      invariant results.Keys == scenarios.Keys - remaining
      invariant forall name :: name in results ==>
        IsScenarioImpact(results[name], risks, table, StressedScenario(name, scenarios[name]))
      invariant |table| == 0 && |risks| > 0 ==> remaining == scenarios.Keys
      decreases remaining
    {
      var name := Pick(remaining);
      var impacts := SimulateScenarioImpact(risks, table, StressedScenario(name, scenarios[name]));
      if impacts.Failure? {
        return Failure(impacts.error);
      }
      results := results[name := impacts.value];
      remaining := remaining - {name};
    }
    return Success(results);
  }

  // ---------------------------------------------------------------------
  // analyze_scenario_sensitivity

  datatype SensitivityReport = SensitivityReport(
    variable: string, baseImpact: real, highImpact: real, lowImpact: real, sensitivity: real)

  /** sum(calculate_risk_impact(risk, external_data, s) for risk in risks): at most one per risk. */
  function TotalImpact(risks: seq<Risk>, table: IndicatorTable, s: Scenario): (t: real)
    requires |table| > 0 || |risks| == 0
    ensures 0.0 <= t <= |risks| as real
  {
    if risks == [] then 0.0
    else TotalImpact(risks[..|risks| - 1], table, s) + CalculateRiskImpact(risks[|risks| - 1], table, s).value
  }

  /**
   * analyze_scenario_sensitivity with an indicator dict supplied and the high
   * and low variants of the scenario given: the central difference of the
   * total impact, divided by 2 * range_pct * the variable's base value.
   */
  function ScenarioSensitivity(
    risks: seq<Risk>, table: IndicatorTable, base: Scenario, high: Scenario, low: Scenario,
    variable: string, rangePct: real): (r: Result<SensitivityReport>)
    ensures |table| == 0 && |risks| > 0 ==> r == Failure(EmptyIndicatorTable)
    ensures (|table| > 0 || |risks| == 0) && variable !in ScenarioFieldNames ==> r.Failure?
    ensures r.Failure? && r.error == DivisionByZero <==>
      (|table| > 0 || |risks| == 0) && ScenarioAttribute(base, variable).Success?
      && (rangePct == 0.0 || ScenarioAttribute(base, variable).value == 0.0)
    ensures r.Success? <==>
      (|table| > 0 || |risks| == 0) && ScenarioAttribute(base, variable).Success?
      && rangePct != 0.0 && ScenarioAttribute(base, variable).value != 0.0
    ensures r.Success? ==> r.value.variable == variable
    ensures r.Success? ==>
      r.value.baseImpact == TotalImpact(risks, table, base) && r.value.highImpact == TotalImpact(risks, table, high)
      && r.value.lowImpact == TotalImpact(risks, table, low)
    ensures r.Success? ==> CentralDifference(r.value.highImpact, r.value.lowImpact,
                                             ScenarioAttribute(base, variable).value, rangePct) == Success(r.value.sensitivity)
  {
    if |table| == 0 && |risks| > 0 then Failure(EmptyIndicatorTable)
    else
      var baseImpact := TotalImpact(risks, table, base);
      var highImpact := TotalImpact(risks, table, high);
      var lowImpact := TotalImpact(risks, table, low);
      var value := ScenarioAttribute(base, variable);
      if value.Failure? then Failure(value.error)
      else
        var sensitivity := CentralDifference(highImpact, lowImpact, value.value, rangePct);
        if sensitivity.Failure? then Failure(sensitivity.error)
        else Success(SensitivityReport(variable, baseImpact, highImpact, lowImpact, sensitivity.value))
  }

  /** (high - low) / (2 * range_pct * base_value), or the ZeroDivisionError of a zero denominator. */
  function CentralDifference(highImpact: real, lowImpact: real, baseValue: real, rangePct: real): (r: Result<real>)
    ensures r.Failure? <==> rangePct == 0.0 || baseValue == 0.0
    ensures r.Failure? ==> r.error == DivisionByZero
    ensures r.Success? ==> r.value * (2.0 * rangePct * baseValue) == highImpact - lowImpact
  {
    var denominator := 2.0 * rangePct * baseValue;
    ZeroProduct(2.0 * rangePct, baseValue);
    ZeroProduct(2.0, rangePct);
    if denominator == 0.0 then Failure(DivisionByZero)
    else
      DivTimes(highImpact - lowImpact, denominator);
      Success((highImpact - lowImpact) / denominator)
  }

  /** Raising the carbon price of every scenario never lowers the total impact. */
  lemma {:induction false} TotalImpactCarbonMonotone(risks: seq<Risk>, table: IndicatorTable, s: Scenario, price: real)
    requires |table| > 0 && price >= s.carbonPrice
    requires forall i :: 0 <= i < |risks| ==> ImpactDomain(risks[i], s, LatestIndicators(table).value.gdpGrowth)
    ensures TotalImpact(risks, table, s) <= TotalImpact(risks, table, s.(carbonPrice := price))
  {
    if risks != [] {
      var n := |risks| - 1;
      assert forall i :: 0 <= i < n ==> risks[..n][i] == risks[i];
      TotalImpactCarbonMonotone(risks[..n], table, s, price);
      CarbonPriceRaisesImpact(risks[n], table, s, price);
    }
  }

  /**
   * The carbon-price sensitivity is never negative: the high variant (price
   * raised by range_pct) scores at least as much as the low one (price
   * lowered by range_pct) for risks in the usual ranges.
   */
  lemma CarbonPriceSensitivityNonNegative(risks: seq<Risk>, table: IndicatorTable, base: Scenario, rangePct: real)
    requires |table| > 0 && base.carbonPrice > 0.0 && 0.0 < rangePct <= 1.0
    requires forall i :: 0 <= i < |risks| ==> ImpactDomain(risks[i], base, LatestIndicators(table).value.gdpGrowth)
    ensures var r := ScenarioSensitivity(risks, table, base,
                                         base.(carbonPrice := base.carbonPrice * (1.0 + rangePct)),
                                         base.(carbonPrice := base.carbonPrice * (1.0 - rangePct)),
                                         "carbon_price", rangePct);
            r.Success? && r.value.sensitivity >= 0.0
  {
    CarbonBandOrdered(base.carbonPrice, rangePct);
    CarbonBandSensitivity(risks, table, base, base.carbonPrice * (1.0 - rangePct), base.carbonPrice * (1.0 + rangePct),
                          rangePct);
  }

  /** Lowering a positive price by at most all of it, and raising it by as much, keeps the band ordered. */
  lemma CarbonBandOrdered(c: real, rangePct: real)
    requires c > 0.0 && 0.0 < rangePct <= 1.0
    ensures 0.0 <= c * (1.0 - rangePct) <= c * (1.0 + rangePct)
  {
    MulNonNegative(c, 1.0 - rangePct);
    MulNonNegative(c, 2.0 * rangePct);
    assert c * (1.0 + rangePct) - c * (1.0 - rangePct) == c * (2.0 * rangePct);
  }

  /** Any ordered pair of carbon prices gives a successful, non-negative sensitivity. */
  lemma CarbonBandSensitivity(risks: seq<Risk>, table: IndicatorTable, base: Scenario, lo: real, hi: real, rangePct: real)
    requires |table| > 0 && base.carbonPrice > 0.0 && rangePct > 0.0 && 0.0 <= lo <= hi
    requires forall i :: 0 <= i < |risks| ==> ImpactDomain(risks[i], base, LatestIndicators(table).value.gdpGrowth)
    ensures var r := ScenarioSensitivity(risks, table, base, base.(carbonPrice := hi), base.(carbonPrice := lo),
                                         "carbon_price", rangePct);
            r.Success? && r.value.sensitivity >= 0.0
  {
    CarbonPricesOrdered(risks, table, base, lo, hi);
    OrderedVariantsSensitivity(risks, table, base, base.(carbonPrice := hi), base.(carbonPrice := lo), rangePct);
  }

  /** Variants ordered by total impact give a non-negative carbon-price sensitivity. */
  lemma OrderedVariantsSensitivity(risks: seq<Risk>, table: IndicatorTable, base: Scenario, high: Scenario, low: Scenario,
                                   rangePct: real)
    requires |table| > 0 && base.carbonPrice > 0.0 && rangePct > 0.0
    requires TotalImpact(risks, table, low) <= TotalImpact(risks, table, high)
    ensures var r := ScenarioSensitivity(risks, table, base, high, low, "carbon_price", rangePct);
      r.Success? && r.value.sensitivity >= 0.0
  {
    CarbonPriceAttribute(base);
    CentralDifferenceSign(TotalImpact(risks, table, high), TotalImpact(risks, table, low), base.carbonPrice, rangePct);
  }

  /** A higher carbon price gives at least the total impact of a lower one. */
  lemma CarbonPricesOrdered(risks: seq<Risk>, table: IndicatorTable, base: Scenario, lo: real, hi: real)
    requires |table| > 0 && 0.0 <= lo <= hi
    requires forall i :: 0 <= i < |risks| ==> ImpactDomain(risks[i], base, LatestIndicators(table).value.gdpGrowth)
    ensures TotalImpact(risks, table, base.(carbonPrice := lo)) <= TotalImpact(risks, table, base.(carbonPrice := hi))
  {
    var low := base.(carbonPrice := lo);
    LowerCarbonPriceStaysInDomain(risks, table, base, lo);
    assert low.(carbonPrice := hi) == base.(carbonPrice := hi);
    TotalImpactCarbonMonotone(risks, table, low, hi);
  }

  lemma LowerCarbonPriceStaysInDomain(risks: seq<Risk>, table: IndicatorTable, base: Scenario, price: real)
    requires |table| > 0 && 0.0 <= price
    requires forall i :: 0 <= i < |risks| ==> ImpactDomain(risks[i], base, LatestIndicators(table).value.gdpGrowth)
    ensures forall i :: 0 <= i < |risks| ==>
      ImpactDomain(risks[i], base.(carbonPrice := price), LatestIndicators(table).value.gdpGrowth)
  {
  }

  lemma CarbonPriceAttribute(s: Scenario)
    ensures ScenarioAttribute(s, "carbon_price") == Success(s.carbonPrice)
  {
    assert ScenarioFieldNames[1] == "carbon_price";
  }

  /** A rise from the low to the high variant gives a non-negative sensitivity for a positive base value. */
  lemma CentralDifferenceSign(highImpact: real, lowImpact: real, baseValue: real, rangePct: real)
    requires highImpact >= lowImpact && baseValue > 0.0 && rangePct > 0.0
    ensures CentralDifference(highImpact, lowImpact, baseValue, rangePct).Success?
    ensures CentralDifference(highImpact, lowImpact, baseValue, rangePct).value >= 0.0
  {
    var denominator := 2.0 * rangePct * baseValue;
    MulNonNegative(2.0 * rangePct, baseValue);
    ZeroProduct(2.0 * rangePct, baseValue);
    DivAtLeast(highImpact - lowImpact, denominator, 0.0);
  }

  /**
   * analyze_scenario_sensitivity as written: it scores every risk against the
   * empty dict {}, so max() fails on the first risk; with no risks,
   * perturb_scenario raises TypeError at vars() of the Scenario NamedTuple.
   */
  function SensitivityAsWritten(risks: seq<Risk>, base: Scenario, variable: string, rangePct: real): (r: Result<SensitivityReport>)
    ensures r.Failure?
  {
    if |risks| > 0 then
      var first := CalculateRiskImpact(risks[0], [], base);
      Failure(first.error)
    else Failure(WrongArgumentType)
  }

  /** The discrepancy: as written no risk list is ever analysed, while the corrected formula succeeds for the same risks once indicators are supplied. */
  lemma SensitivityAsWrittenNeverAnalyses(risks: seq<Risk>, table: IndicatorTable, base: Scenario, rangePct: real)
    requires |risks| > 0 && |table| > 0 && base.carbonPrice > 0.0 && 0.0 < rangePct <= 1.0
    requires forall i :: 0 <= i < |risks| ==> ImpactDomain(risks[i], base, LatestIndicators(table).value.gdpGrowth)
    ensures SensitivityAsWritten(risks, base, "carbon_price", rangePct) == Failure(EmptyIndicatorTable)
    ensures ScenarioSensitivity(risks, table, base,
                                base.(carbonPrice := base.carbonPrice * (1.0 + rangePct)),
                                base.(carbonPrice := base.carbonPrice * (1.0 - rangePct)),
                                "carbon_price", rangePct).Success?
  {
    CarbonPriceSensitivityNonNegative(risks, table, base, rangePct);
  }

  // ---------------------------------------------------------------------
  // Perturbation: z(k) is the normal draw for the k-th numeric field

  /** One field after perturbation: scaled by 1 + z and floored at 0. */
  function PerturbedValue(x: real, zk: real): real {
    Max0(x * (1.0 + zk))
  }

  /** max(0, value * (1 + z)) for each field in turn. */
  function PerturbedValues(f: seq<real>, z: nat -> real): (g: seq<real>)
    ensures |g| == |f|
    ensures forall k :: 0 <= k < |f| ==> g[k] == PerturbedValue(f[k], z(k))
  {
    seq(|f|, k requires 0 <= k < |f| => PerturbedValue(f[k], z(k)))
  }

  /** perturb_scenario: keeps the name and floors every perturbed numeric field at 0. */
  function PerturbedScenario(s: Scenario, z: nat -> real): (p: Scenario)
    ensures p.name == s.name
  {
    ScenarioFromFields(s.name, PerturbedValues(s.Fields(), z))
  }

  /** Each perturbed value is the original times (1 + z), floored at 0. */
  lemma PerturbedValuesFloored(f: seq<real>, z: nat -> real)
    ensures var g := PerturbedValues(f, z);
      forall k :: 0 <= k < |f| ==> g[k] >= 0.0 && (g[k] == 0.0 || g[k] == f[k] * (1.0 + z(k)))
  {
  }

  /** Every numeric field of the perturbed scenario is the original times (1 + z), floored at 0. */
  lemma PerturbedScenarioFields(s: Scenario, z: nat -> real)
    ensures var p := PerturbedScenario(s, z);
      forall k :: 0 <= k < ScenarioFieldCount ==>
        p.Fields()[k] >= 0.0 && (p.Fields()[k] == 0.0 || p.Fields()[k] == s.Fields()[k] * (1.0 + z(k)))
  {
    var f := s.Fields();
    var g := PerturbedValues(f, z);
    ScenarioFieldsRoundTrip(s, s.name, g);
    PerturbedValuesFloored(f, z);
    var p := PerturbedScenario(s, z);
    assert p.Fields() == g;
    forall k | 0 <= k < ScenarioFieldCount
      ensures p.Fields()[k] >= 0.0 && (p.Fields()[k] == 0.0 || p.Fields()[k] == f[k] * (1.0 + z(k)))
    {
      assert p.Fields()[k] == g[k];
    }
  }

  method PerturbScenario(s: Scenario, z: nat -> real) returns (p: Scenario)
    ensures p == PerturbedScenario(s, z)
  {
    var f := s.Fields();
    var values: seq<real> := [];
    for k := 0 to ScenarioFieldCount
      invariant |values| == k
      invariant forall j :: 0 <= j < k ==> values[j] == Max0(f[j] * (1.0 + z(j)))
    {
      values := values + [Max0(f[k] * (1.0 + z(k)))];
    }
    PerturbedValuesAre(values, f, z);
    p := ScenarioFromFields(s.name, values);
  }

  /** A draw of all zeros leaves a scenario with non-negative fields as it was. */
  lemma ZeroNoiseKeepsScenario(s: Scenario, z: nat -> real)
    requires forall k :: 0 <= k < ScenarioFieldCount ==> z(k) == 0.0 && s.Fields()[k] >= 0.0
    ensures PerturbedScenario(s, z) == s
  {
    var g := PerturbedValues(s.Fields(), z);
    assert g == s.Fields();
    ScenarioFieldsRoundTrip(s, s.name, g);
  }

  /** One indicator set of perturb_external_data; every field ends non-negative. */
  function PerturbedIndicators(d: ExternalData, z: nat -> real): (p: ExternalData)
    ensures forall k :: 0 <= k < IndicatorFieldCount ==> p.Fields()[k] >= 0.0
  {
    var g := PerturbedValues(d.Fields(), z);
    var p := IndicatorsFromFields(g);
    assert p.year >= 0 && p.population >= 0;
    p
  }

  /** perturb_external_data: same keys in the same order, each set perturbed with its own draws. */
  function PerturbedTable(t: IndicatorTable, noise: (nat, nat) -> real): (p: IndicatorTable)
    ensures |p| == |t|
    ensures forall i :: 0 <= i < |t| ==> p[i].0 == t[i].0
  {
    if t == [] then []
    else
      var i := |t| - 1;
      PerturbedTable(t[..i], noise) + [(t[i].0, PerturbedIndicators(t[i].1, (k: nat) => noise(i, k)))]
  }

  method PerturbIndicators(d: ExternalData, z: nat -> real) returns (p: ExternalData)
    ensures p == PerturbedIndicators(d, z)
  {
    var f := d.Fields();
    var values: seq<real> := [];
    for k := 0 to IndicatorFieldCount
      invariant |values| == k
      invariant forall j :: 0 <= j < k ==> values[j] == Max0(f[j] * (1.0 + z(j)))
    {
      values := values + [Max0(f[k] * (1.0 + z(k)))];
    }
    PerturbedValuesAre(values, f, z);
    p := IndicatorsFromFields(values);
  }

  method PerturbExternalData(t: IndicatorTable, noise: (nat, nat) -> real) returns (p: IndicatorTable)
    ensures p == PerturbedTable(t, noise)
  {
    p := [];
    for i := 0 to |t|
      invariant p == PerturbedTable(t[..i], noise)
    {
      var d := PerturbIndicators(t[i].1, (k: nat) => noise(i, k));
      p := p + [(t[i].0, d)];
      assert t[..i + 1][..i] == t[..i];
    }
    assert t[..|t|] == t;
  }

  /** A list built field by field is the perturbed list. */
  lemma PerturbedValuesAre(values: seq<real>, f: seq<real>, z: nat -> real)
    requires |values| == |f|
    requires forall j :: 0 <= j < |f| ==> values[j] == Max0(f[j] * (1.0 + z(j)))
    ensures values == PerturbedValues(f, z)
  {
    var g := PerturbedValues(f, z);
    assert forall j :: 0 <= j < |f| ==> values[j] == g[j];
  }

  /** Perturbing the indicators keeps their keys, so scoring fails on the perturbed dict exactly when it fails on the original. */
  lemma PerturbedTableKeepsKeys(t: IndicatorTable, noise: (nat, nat) -> real)
    requires DistinctKeys(t)
    ensures DistinctKeys(PerturbedTable(t, noise))
    ensures |PerturbedTable(t, noise)| > 0 <==> |t| > 0
  {
  }

  // ---------------------------------------------------------------------
  // monte_carlo_simulation: the normal draws of one simulation are an input

  /** The draws perturb_scenario and perturb_external_data take in one simulation. */
  datatype Draw = Draw(scenarioNoise: nat -> real, indicatorNoise: (nat, nat) -> real)

  /** The impact and likelihood of one simulation: both scores on the perturbed scenario and indicators. */
  function SampleAt(risk: Risk, table: IndicatorTable, s: Scenario, d: Draw): (r: (real, real))
    requires |table| > 0
    ensures 0.0 <= r.0 <= 1.0 && 0.0 <= r.1 <= 1.0
  {
    var ps := PerturbedScenario(s, d.scenarioNoise);
    var pt := PerturbedTable(table, d.indicatorNoise);
    (CalculateRiskImpact(risk, pt, ps).value, CalculateRiskLikelihood(risk, pt, ps).value)
  }

  /**
   * Simulation k of the risk at position pos under scenario name, as one
   * function of (pos, k); it is only ever applied to positions of risks and
   * to a non-empty indicator dict.
   */
  function Sampler(risks: seq<Risk>, table: IndicatorTable, name: string, s: Scenario,
                   draws: (string, nat, nat) -> Draw): (nat, nat) -> (real, real)
  {
    (pos: nat, k: nat) =>
      if pos < |risks| && |table| > 0 then SampleAt(risks[pos], table, s, draws(name, pos, k)) else (0.0, 0.0)
  }

  /** Applying the sampler to a position of a risk is one simulation of that risk. */
  lemma SamplerAt(risks: seq<Risk>, table: IndicatorTable, name: string, s: Scenario,
                  draws: (string, nat, nat) -> Draw, pos: nat, k: nat)
    requires pos < |risks| && |table| > 0
    ensures Sampler(risks, table, name, s, draws)(pos, k) == SampleAt(risks[pos], table, s, draws(name, pos, k))
  {
  }

  /** Every sample the first count risks draw in n simulations lies in [0, 1] for both scores. */
  ghost predicate SamplesInUnitRange(sample: (nat, nat) -> (real, real), count: nat, n: nat) {
    forall pos: nat, k: nat :: pos < count && k < n ==>
      0.0 <= sample(pos, k).0 <= 1.0 && 0.0 <= sample(pos, k).1 <= 1.0
  }

  lemma SamplerInUnitRange(risks: seq<Risk>, table: IndicatorTable, name: string, s: Scenario,
                           draws: (string, nat, nat) -> Draw, n: nat)
    ensures SamplesInUnitRange(Sampler(risks, table, name, s, draws), |risks|, n)
  {
    var sample := Sampler(risks, table, name, s, draws);
    forall pos: nat, k: nat | pos < |risks| && k < n
      ensures 0.0 <= sample(pos, k).0 <= 1.0 && 0.0 <= sample(pos, k).1 <= 1.0
    {
      if |table| > 0 {
        var x := SampleAt(risks[pos], table, s, draws(name, pos, k));
        assert sample(pos, k) == x;
      }
    }
  }

  /** The first n impact samples of the risk at position pos. */
  function ImpactSamples(pos: nat, n: nat, sample: (nat, nat) -> (real, real)): (r: seq<real>)
    ensures |r| == n
  {
    seq(n, k requires 0 <= k < n => sample(pos, k).0)
  }

  /** The first n likelihood samples, drawn alongside the impacts. */
  function LikelihoodSamples(pos: nat, n: nat, sample: (nat, nat) -> (real, real)): (r: seq<real>)
    ensures |r| == n
  {
    seq(n, k requires 0 <= k < n => sample(pos, k).1)
  }

  /** Sample k of each distribution is simulation k's score, and with samples in [0, 1] so is every entry. */
  lemma SamplesAt(pos: nat, n: nat, sample: (nat, nat) -> (real, real))
    ensures forall k :: 0 <= k < n ==>
      ImpactSamples(pos, n, sample)[k] == sample(pos, k).0 && LikelihoodSamples(pos, n, sample)[k] == sample(pos, k).1
    ensures SamplesInUnitRange(sample, pos + 1, n) ==>
      AllIn(ImpactSamples(pos, n, sample), 0.0, 1.0) && AllIn(LikelihoodSamples(pos, n, sample), 0.0, 1.0)
  {
  }

  /** One more simulation appends its scores to both distributions. */
  lemma SamplesSnoc(pos: nat, k: nat, sample: (nat, nat) -> (real, real))
    ensures ImpactSamples(pos, k + 1, sample) == ImpactSamples(pos, k, sample) + [sample(pos, k).0]
    ensures LikelihoodSamples(pos, k + 1, sample) == LikelihoodSamples(pos, k, sample) + [sample(pos, k).1]
  {
    assert forall j :: 0 <= j < k ==> ImpactSamples(pos, k + 1, sample)[j] == ImpactSamples(pos, k, sample)[j];
    assert forall j :: 0 <= j < k ==> LikelihoodSamples(pos, k + 1, sample)[j] == LikelihoodSamples(pos, k, sample)[j];
  }

  /** The SimulationResult of the risk at position pos. */
  function RiskSimulation(risk: Risk, pos: nat, name: string, n: nat, sample: (nat, nat) -> (real, real)): SimulationResult {
    SimulationResult(risk.id, name, ImpactSamples(pos, n, sample), LikelihoodSamples(pos, n, sample))
  }

  /** A result for risk id under scenario name with n samples of each score, all in [0, 1]. */
  ghost predicate WellFormedResult(r: SimulationResult, id: int, name: string, n: nat) {
    r.riskId == id && r.scenario == name
    && |r.impactDistribution| == n && AllIn(r.impactDistribution, 0.0, 1.0)
    && |r.likelihoodDistribution| == n && AllIn(r.likelihoodDistribution, 0.0, 1.0)
  }

  /**
   * scenario_results of one scenario: one entry per risk id, holding
   * num_simulations samples in [0, 1] of each score (a later risk with the
   * same id replaces an earlier one).
   */
  function ScenarioResults(risks: seq<Risk>, name: string, n: nat, sample: (nat, nat) -> (real, real)): (m: map<int, SimulationResult>)
    ensures |m| <= |risks|
  {
    if risks == [] then map[]
    else
      var last := |risks| - 1;
      var m := ScenarioResults(risks[..last], name, n, sample);
      m[risks[last].id := RiskSimulation(risks[last], last, name, n, sample)]
  }

  /** One entry per risk id. */
  lemma {:induction false} ScenarioResultsKeys(risks: seq<Risk>, name: string, n: nat, sample: (nat, nat) -> (real, real))
    ensures ScenarioResults(risks, name, n, sample).Keys == Ids(risks)
  {
    if risks != [] {
      var last := |risks| - 1;
      ScenarioResultsKeys(risks[..last], name, n, sample);
      assert Ids(risks) == Ids(risks[..last]) + {risks[last].id};
    }
  }

  /** With samples in [0, 1], every entry is well formed for its key. */
  lemma {:induction false} ScenarioResultsWellFormed(risks: seq<Risk>, name: string, n: nat, sample: (nat, nat) -> (real, real))
    requires SamplesInUnitRange(sample, |risks|, n)
    ensures var m := ScenarioResults(risks, name, n, sample);
      forall id :: id in m ==> WellFormedResult(m[id], id, name, n)
  {
    if risks != [] {
      var last := |risks| - 1;
      assert SamplesInUnitRange(sample, last, n);
      ScenarioResultsWellFormed(risks[..last], name, n, sample);
      SamplesAt(last, n, sample);
      var r := RiskSimulation(risks[last], last, name, n, sample);
      assert WellFormedResult(r, risks[last].id, name, n);
      assert ScenarioResults(risks, name, n, sample) == ScenarioResults(risks[..last], name, n, sample)[risks[last].id := r];
    }
  }

  lemma ScenarioResultsStep(risks: seq<Risk>, i: nat, name: string, n: nat, sample: (nat, nat) -> (real, real))
    requires i < |risks|
    ensures ScenarioResults(risks[..i + 1], name, n, sample)
         == ScenarioResults(risks[..i], name, n, sample)[risks[i].id := RiskSimulation(risks[i], i, name, n, sample)]
  {
    assert risks[..i + 1][..i] == risks[..i];
  }

  /** One simulation: perturb the scenario and the indicators with draw d, then score both. */
  method SimulateOnce(risk: Risk, table: IndicatorTable, s: Scenario, d: Draw) returns (r: Result<(real, real)>)
    ensures r.Failure? <==> |table| == 0
    ensures r.Success? ==> r.value == SampleAt(risk, table, s, d)
  {
    var perturbedScenario := PerturbScenario(s, d.scenarioNoise);
    var perturbedTable := PerturbExternalData(table, d.indicatorNoise);
    var impact := CalculateRiskImpact(risk, perturbedTable, perturbedScenario);
    var likelihood := CalculateRiskLikelihood(risk, perturbedTable, perturbedScenario);
    if impact.Failure? {
      return Failure(impact.error);
    }
    return Success((impact.value, likelihood.value));
  }

  method SimulateRisk(risks: seq<Risk>, pos: nat, table: IndicatorTable, name: string, s: Scenario, n: nat,
                      draws: (string, nat, nat) -> Draw) returns (r: Result<SimulationResult>)
    requires pos < |risks|
    ensures r.Failure? <==> |table| == 0 && n > 0
    ensures r.Success? ==> r.value == RiskSimulation(risks[pos], pos, name, n, Sampler(risks, table, name, s, draws))
  {
    var sampler := Sampler(risks, table, name, s, draws);
    var impacts: seq<real> := [];
    var likelihoods: seq<real> := [];
    for k := 0 to n
      invariant |table| > 0 || k == 0
      invariant impacts == ImpactSamples(pos, k, sampler)
      invariant likelihoods == LikelihoodSamples(pos, k, sampler)
    {
      var sample := SimulateOnce(risks[pos], table, s, draws(name, pos, k));
      if sample.Failure? {
        return Failure(sample.error);
      }
      SamplerAt(risks, table, name, s, draws, pos, k);
      SamplesSnoc(pos, k, sampler);
      impacts := impacts + [sample.value.0];
      likelihoods := likelihoods + [sample.value.1];
    }
    return Success(SimulationResult(risks[pos].id, name, impacts, likelihoods));
  }

  method SimulateScenario(risks: seq<Risk>, table: IndicatorTable, name: string, s: Scenario, n: nat,
                          draws: (string, nat, nat) -> Draw) returns (r: Result<map<int, SimulationResult>>)
    ensures r.Failure? <==> |table| == 0 && n > 0 && |risks| > 0
    ensures r.Success? ==> r.value == ScenarioResults(risks, name, n, Sampler(risks, table, name, s, draws))
  {
    var sampler := Sampler(risks, table, name, s, draws);
    var results: map<int, SimulationResult> := map[];
    for i := 0 to |risks|
      invariant |table| > 0 || n == 0 || i == 0
      invariant results == ScenarioResults(risks[..i], name, n, sampler)
    {
      var result := SimulateRisk(risks, i, table, name, s, n, draws);
      if result.Failure? {
        return Failure(result.error);
      }
      ScenarioResultsStep(risks, i, name, n, sampler);
      results := results[risks[i].id := result.value];
    }
    assert risks[..|risks|] == risks;
    return Success(results);
  }

  /** Each scenario's entry is its results for n draws per risk, as the driver below fills it. */
  ghost predicate ResultsOfScenarios(results: map<string, map<int, SimulationResult>>, risks: seq<Risk>,
                                     table: IndicatorTable, scenarios: map<string, Scenario>, n: nat,
                                     draws: (string, nat, nat) -> Draw)
  {
    forall name :: name in results && name in scenarios ==>
      results[name] == ScenarioResults(risks, name, n, Sampler(risks, table, name, scenarios[name], draws))
  }

  /**
   * monte_carlo_simulation with num_simulations draws per risk: one result map
   * per scenario; it fails only when there are no indicators to score with.
   */
  method MonteCarloSimulation(risks: seq<Risk>, table: IndicatorTable, scenarios: map<string, Scenario>,
                              numSimulations: nat, draws: (string, nat, nat) -> Draw)
    returns (r: Result<map<string, map<int, SimulationResult>>>)
    ensures r.Failure? <==> |table| == 0 && numSimulations > 0 && |risks| > 0 && |scenarios| > 0
    ensures r.Success? ==> r.value.Keys == scenarios.Keys
    ensures r.Success? ==> ResultsOfScenarios(r.value, risks, table, scenarios, numSimulations, draws)
  {
    var results: map<string, map<int, SimulationResult>> := map[];
    var remaining := scenarios.Keys;
    while remaining != {}
      invariant remaining <= scenarios.Keys
      invariant results.Keys == scenarios.Keys - remaining
      invariant ResultsOfScenarios(results, risks, table, scenarios, numSimulations, draws)
      invariant |table| == 0 && numSimulations > 0 && |risks| > 0 ==> remaining == scenarios.Keys
      decreases remaining
    {
      var name := Pick(remaining);
      var scenarioResults := SimulateScenario(risks, table, name, scenarios[name], numSimulations, draws);
      if scenarioResults.Failure? {
        return Failure(scenarioResults.error);
      }
      results := results[name := scenarioResults.value];
      remaining := remaining - {name};
    }
    return Success(results);
  }

  /**
   * The loop over the risks of one scenario as both drivers write it: the first
   * simulation calls perturb_scenario, whose vars() of the Scenario NamedTuple
   * raises TypeError, so only a scenario that draws nothing is filled, and then
   * with the results any sampler gives.
   */
  method SimulateScenarioAsWritten(risks: seq<Risk>, name: string, n: nat, sample: (nat, nat) -> (real, real))
    returns (r: Result<map<int, SimulationResult>>)
    ensures r.Failure? <==> n > 0 && |risks| > 0
    ensures r.Failure? ==> r.error == WrongArgumentType
    ensures r.Success? ==> r.value == ScenarioResults(risks, name, n, sample)
  {
    var results: map<int, SimulationResult> := map[];
    for i := 0 to |risks|
      invariant n == 0 || i == 0
      invariant results == ScenarioResults(risks[..i], name, n, sample)
    {
      if n > 0 {
        // perturb_scenario(scenario): vars() of a NamedTuple raises TypeError
        return Failure(WrongArgumentType);
      }
      ScenarioResultsStep(risks, i, name, n, sample);
      results := results[risks[i].id := SimulationResult(risks[i].id, name, [], [])];
    }
    assert risks[..|risks|] == risks;
    return Success(results);
  }

  /**
   * monte_carlo_simulation as written: perturb_scenario calls vars() on the
   * Scenario NamedTuple, which has no __dict__, so the first simulation of the
   * first risk raises TypeError. Only a call that never draws returns, and then
   * it agrees with the driver above.
   */
  method MonteCarloSimulationAsWritten(risks: seq<Risk>, table: IndicatorTable, scenarios: map<string, Scenario>,
                                       numSimulations: nat, draws: (string, nat, nat) -> Draw)
    returns (r: Result<map<string, map<int, SimulationResult>>>)
    ensures r.Failure? <==> numSimulations > 0 && |risks| > 0 && |scenarios| > 0
    ensures r.Failure? ==> r.error == WrongArgumentType
    ensures r.Success? ==> r.value.Keys == scenarios.Keys
    ensures r.Success? ==> ResultsOfScenarios(r.value, risks, table, scenarios, numSimulations, draws)
  {
    var results: map<string, map<int, SimulationResult>> := map[];
    var remaining := scenarios.Keys;
    while remaining != {}
      invariant remaining <= scenarios.Keys
      invariant results.Keys == scenarios.Keys - remaining
      invariant ResultsOfScenarios(results, risks, table, scenarios, numSimulations, draws)
      invariant numSimulations > 0 && |risks| > 0 ==> remaining == scenarios.Keys
      decreases remaining
    {
      var name := Pick(remaining);
      var scenarioResults := SimulateScenarioAsWritten(risks, name, numSimulations,
                                                       Sampler(risks, table, name, scenarios[name], draws));
      if scenarioResults.Failure? {
        return Failure(scenarioResults.error);
      }
      results := results[name := scenarioResults.value];
      remaining := remaining - {name};
    }
    return Success(results);
  }

  /**
   * The shape of every scenario's results: exactly one entry per risk id,
   * each holding num_simulations impact and likelihood samples in [0, 1].
   */
  lemma MonteCarloResultShape(risks: seq<Risk>, table: IndicatorTable, name: string, s: Scenario, n: nat,
                              draws: (string, nat, nat) -> Draw)
    ensures var m := ScenarioResults(risks, name, n, Sampler(risks, table, name, s, draws));
      m.Keys == Ids(risks) && forall id :: id in m ==> WellFormedResult(m[id], id, name, n)
  {
    SamplerInUnitRange(risks, table, name, s, draws, n);
    ScenarioResultsKeys(risks, name, n, Sampler(risks, table, name, s, draws));
    ScenarioResultsWellFormed(risks, name, n, Sampler(risks, table, name, s, draws));
  }

  // ---------------------------------------------------------------------
  // calculate_var_cvar

  /** VaR, and CVaR unless no sample lies strictly above VaR (numpy's mean of nothing is NaN). */
  datatype TailStats = TailStats(valueAtRisk: real, conditionalValueAtRisk: Option<real>)

  /**
   * VaR is the (1 - confidence) * 100 percentile of the impacts; CVaR the mean
   * of the impacts strictly above it.
   */
  function TailRisk(impacts: seq<real>, confidence: real): (r: Result<TailStats>)
    ensures r.Failure? <==> |impacts| == 0 || confidence < 0.0 || confidence > 1.0
    ensures r.Success? ==> MinOfBound(impacts, r.value.valueAtRisk) && r.value.valueAtRisk <= MaxOf(impacts)
    ensures r.Success? ==> (r.value.conditionalValueAtRisk.Some? <==>
      exists i :: 0 <= i < |impacts| && impacts[i] > r.value.valueAtRisk)
    ensures r.Success? && r.value.conditionalValueAtRisk.Some? ==>
      r.value.conditionalValueAtRisk.value > r.value.valueAtRisk
  {
    var q := (1.0 - confidence) * 100.0;
    assert q < 0.0 || q > 100.0 <==> confidence < 0.0 || confidence > 1.0;
    var v := Percentile(impacts, q);
    if v.Failure? then Failure(v.error)
    else
      var above := StrictlyAbove(impacts, v.value);
      if |above| == 0 then
        Success(TailStats(v.value, None))
      else
        MeanAbove(above, v.value);
        Success(TailStats(v.value, Some(Mean(above))))
  }

  /** With impacts in [0, 1], as the scoring functions produce, VaR and CVaR lie in [0, 1] too. */
  lemma TailRiskInUnitRange(impacts: seq<real>, confidence: real)
    requires |impacts| > 0 && 0.0 <= confidence <= 1.0 && AllIn(impacts, 0.0, 1.0)
    ensures var r := TailRisk(impacts, confidence);
      0.0 <= r.value.valueAtRisk <= 1.0
      && (r.value.conditionalValueAtRisk.Some? ==> r.value.conditionalValueAtRisk.value <= 1.0)
  {
    var r := TailRisk(impacts, confidence);
    var v := r.value.valueAtRisk;
    var above := StrictlyAbove(impacts, v);
    if |above| > 0 {
      forall i | 0 <= i < |above| ensures 0.0 <= above[i] <= 1.0 {
        var j :| 0 <= j < |impacts| && impacts[j] == above[i];
      }
      MeanBounds(above, 0.0, 1.0);
    }
  }

  method TailRiskOfScenario(results: map<int, SimulationResult>, confidence: real) returns (r: Result<map<int, TailStats>>)
    ensures r.Failure? <==> exists id :: id in results && TailRisk(results[id].impactDistribution, confidence).Failure?
    ensures r.Success? ==> r.value.Keys == results.Keys
    ensures r.Success? ==> forall id :: id in r.value ==>
      Success(r.value[id]) == TailRisk(results[id].impactDistribution, confidence)
  {
    var stats: map<int, TailStats> := map[];
    var remaining := results.Keys;
    while remaining != {}
      invariant remaining <= results.Keys
      invariant stats.Keys == results.Keys - remaining
      invariant forall id :: id in stats ==> Success(stats[id]) == TailRisk(results[id].impactDistribution, confidence)
      decreases remaining
    {
      var id := Pick(remaining);
      var t := TailRisk(results[id].impactDistribution, confidence);
      if t.Failure? {
        return Failure(t.error);
      }
      stats := stats[id := t.value];
      remaining := remaining - {id};
    }
    return Success(stats);
  }

  /** calculate_var_cvar: the tail statistics of every risk under every scenario, keyed as the simulation results are. */
  method CalculateVarCvar(simulationResults: map<string, map<int, SimulationResult>>, confidence: real)
    returns (r: Result<map<string, map<int, TailStats>>>)
    ensures r.Failure? <==> exists name, id :: name in simulationResults && id in simulationResults[name] &&
                                               TailRisk(simulationResults[name][id].impactDistribution, confidence).Failure?
    ensures r.Success? ==> r.value.Keys == simulationResults.Keys
    ensures r.Success? ==> forall name :: name in r.value ==> r.value[name].Keys == simulationResults[name].Keys
    ensures r.Success? ==> forall name, id :: name in r.value && id in r.value[name] ==>
      Success(r.value[name][id]) == TailRisk(simulationResults[name][id].impactDistribution, confidence)
  {
    var out: map<string, map<int, TailStats>> := map[];
    var remaining := simulationResults.Keys;
    while remaining != {}
      invariant remaining <= simulationResults.Keys
      invariant out.Keys == simulationResults.Keys - remaining
      invariant forall name :: name in out ==> out[name].Keys == simulationResults[name].Keys
      invariant forall name, id :: name in out && id in out[name] ==>
        Success(out[name][id]) == TailRisk(simulationResults[name][id].impactDistribution, confidence)
      invariant forall name, id :: name in out && id in simulationResults[name] ==>
        TailRisk(simulationResults[name][id].impactDistribution, confidence).Success?
      decreases remaining
    {
      var name := Pick(remaining);
      var stats := TailRiskOfScenario(simulationResults[name], confidence);
      if stats.Failure? {
        return Failure(stats.error);
      }
      out := out[name := stats.value];
      remaining := remaining - {name};
    }
    return Success(out);
  }
}
