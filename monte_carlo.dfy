/**
 * src/sensitivity_analysis/monte_carlo.py: a simpler impact and likelihood
 * score that reads only the scenario, a perturbation that multiplies every
 * numeric field by its own normal draw, and the Monte Carlo driver. The
 * draws are inputs.
 */
module MonteCarlo {
  import opened Reals
  import opened Models
  import opened Common
  import SA = ScenarioAnalysis

  // ---------------------------------------------------------------------
  // Scoring

  /** The four factors calculate_risk_impact multiplies, base impact first. */
  function ImpactFactors(base: real, s: Scenario): (fs: seq<real>)
    ensures |fs| == 4 && fs[0] == base
  {
    [base,
     1.0 + (s.tempIncrease - 1.5) * 0.1,
     1.0 + (s.carbonPrice / 100.0) * 0.05,
     1.0 - s.renewableEnergy * 0.2]
  }

  /** calculate_risk_impact: the clamped product, always in [0, 1]. */
  function CalculateRiskImpact(risk: Risk, s: Scenario): (r: real)
    ensures 0.0 <= r <= 1.0
  {
    Clamp01(Product(ImpactFactors(risk.impact, s)))
  }

  /** The three factors calculate_risk_likelihood multiplies, base likelihood first. */
  function LikelihoodFactors(base: real, s: Scenario): (fs: seq<real>)
    ensures |fs| == 3 && fs[0] == base
  {
    [base,
     1.0 - s.policyStringency * 0.3,
     1.0 + s.ecosystemDegradation * 0.4]
  }

  /** calculate_risk_likelihood: the clamped product, always in [0, 1]. */
  function CalculateRiskLikelihood(risk: Risk, s: Scenario): (r: real)
    ensures 0.0 <= r <= 1.0
  {
    Clamp01(Product(LikelihoodFactors(risk.likelihood, s)))
  }

  /** Base impact 0 scores impact 0, and base likelihood 0 scores likelihood 0, under every scenario. */
  lemma ZeroBaseScoresZero(risk: Risk, s: Scenario)
    ensures risk.impact == 0.0 ==> CalculateRiskImpact(risk, s) == 0.0
    ensures risk.likelihood == 0.0 ==> CalculateRiskLikelihood(risk, s) == 0.0
  {
    if risk.impact == 0.0 {
      ProductZero(ImpactFactors(risk.impact, s), 0);
    }
    if risk.likelihood == 0.0 {
      ProductZero(LikelihoodFactors(risk.likelihood, s), 0);
    }
  }

  /**
   * Under a scenario whose factors are all non-negative, a higher base impact
   * never scores lower.
   */
  lemma ImpactMonotoneInBase(r1: Risk, r2: Risk, s: Scenario)
    requires 0.0 <= r1.impact <= r2.impact
    requires s.tempIncrease >= -8.5 && s.carbonPrice >= -2000.0 && s.renewableEnergy <= 5.0
    ensures CalculateRiskImpact(r1, s) <= CalculateRiskImpact(r2, s)
  {
    var a := ImpactFactors(r1.impact, s);
    var b := ImpactFactors(r2.impact, s);
    assert forall k :: 0 <= k < 4 ==> 0.0 <= a[k] <= b[k];
    ProductMonotone(a, b);
  }

  // ---------------------------------------------------------------------
  // perturb_scenario: z(k) is the normal(1, 0.1) factor of the k-th numeric field

  /** value * z for each field in turn; nothing is floored. */
  function ScaledValues(f: seq<real>, z: nat -> real): (g: seq<real>)
    ensures |g| == |f|
    ensures forall k :: 0 <= k < |f| ==> g[k] == f[k] * z(k)
  {
    seq(|f|, k requires 0 <= k < |f| => f[k] * z(k))
  }

  /** perturb_scenario: the same name, every numeric field multiplied by its own factor. */
  function PerturbedScenario(s: Scenario, z: nat -> real): (p: Scenario)
    ensures p.name == s.name
    ensures forall k :: 0 <= k < ScenarioFieldCount ==> p.Fields()[k] == s.Fields()[k] * z(k)
  {
    var g := ScaledValues(s.Fields(), z);
    ScenarioFieldsRoundTrip(s, s.name, g);
    ScenarioFromFields(s.name, g)
  }

  method PerturbScenario(s: Scenario, z: nat -> real) returns (p: Scenario)
    ensures p == PerturbedScenario(s, z)
  {
    var f := s.Fields();
    var values: seq<real> := [];
    for k := 0 to ScenarioFieldCount
      invariant |values| == k
      invariant forall j :: 0 <= j < k ==> values[j] == f[j] * z(j)
    {
      values := values + [f[k] * z(k)];
    }
    var g := ScaledValues(f, z);
    assert forall j :: 0 <= j < |f| ==> values[j] == g[j];
    p := ScenarioFromFields(s.name, values);
  }

  /** Factors of exactly 1 leave the scenario as it was. */
  lemma UnitFactorsKeepScenario(s: Scenario, z: nat -> real)
    requires forall k :: 0 <= k < ScenarioFieldCount ==> z(k) == 1.0
    ensures PerturbedScenario(s, z) == s
  {
    var p := PerturbedScenario(s, z);
    assert forall k :: 0 <= k < ScenarioFieldCount ==> p.Fields()[k] == s.Fields()[k];
    ScenarioFieldsRoundTrip(s, s.name, s.Fields());
    ScenarioFieldsRoundTrip(p, p.name, p.Fields());
  }

  /** Perturbing by z and then by the reciprocal factors restores the scenario. */
  lemma PerturbInverse(s: Scenario, z: nat -> real, w: nat -> real)
    requires forall k :: 0 <= k < ScenarioFieldCount ==> z(k) != 0.0 && w(k) == 1.0 / z(k)
    ensures PerturbedScenario(PerturbedScenario(s, z), w) == s
  {
    var f := s.Fields();
    var g := ScaledValues(f, z);
    ScaledValuesInverse(f, z, w);
    ScenarioFieldsRoundTrip(s, s.name, g);
    ScenarioFieldsRoundTrip(ScenarioFromFields(s.name, g), s.name, f);
  }

  lemma ScaledValuesInverse(f: seq<real>, z: nat -> real, w: nat -> real)
    requires forall k :: 0 <= k < |f| ==> z(k) != 0.0 && w(k) == 1.0 / z(k)
    ensures ScaledValues(ScaledValues(f, z), w) == f
  {
    var g := ScaledValues(f, z);
    var h := ScaledValues(g, w);
    forall k | 0 <= k < |f|
      ensures h[k] == f[k]
    {
      ScaleBack(f[k], z(k), w(k));
    }
  }

  lemma ScaleBack(x: real, z: real, w: real)
    requires z != 0.0 && w == 1.0 / z
    ensures x * z * w == x
  {
    DivTimes(1.0, z);
    assert z * w == 1.0;
    assert x * z * w == x * (z * w);
  }

  // ---------------------------------------------------------------------
  // perform_monte_carlo_simulations

  /** Simulation k of the risk at position pos under scenario name: both scores on the perturbed scenario. */
  function Sampler(risks: seq<Risk>, name: string, s: Scenario,
                   draws: (string, nat, nat) -> (nat -> real)): (nat, nat) -> (real, real)
  {
    (pos: nat, k: nat) =>
      if pos < |risks| then
        var p := PerturbedScenario(s, draws(name, pos, k));
        (CalculateRiskImpact(risks[pos], p), CalculateRiskLikelihood(risks[pos], p))
      else (0.0, 0.0)
  }

  lemma SamplerInUnitRange(risks: seq<Risk>, name: string, s: Scenario,
                           draws: (string, nat, nat) -> (nat -> real), n: nat)
    ensures SA.SamplesInUnitRange(Sampler(risks, name, s, draws), |risks|, n)
  {
    var sample := Sampler(risks, name, s, draws);
    forall pos: nat, k: nat | pos < |risks| && k < n
      ensures 0.0 <= sample(pos, k).0 <= 1.0 && 0.0 <= sample(pos, k).1 <= 1.0
    {
      var p := PerturbedScenario(s, draws(name, pos, k));
      assert sample(pos, k) == (CalculateRiskImpact(risks[pos], p), CalculateRiskLikelihood(risks[pos], p));
    }
  }

  method SimulateRisk(risks: seq<Risk>, pos: nat, name: string, s: Scenario, n: nat,
                      draws: (string, nat, nat) -> (nat -> real)) returns (r: SimulationResult)
    requires pos < |risks|
    ensures r == SA.RiskSimulation(risks[pos], pos, name, n, Sampler(risks, name, s, draws))
  {
    var sampler := Sampler(risks, name, s, draws);
    var impacts: seq<real> := [];
    var likelihoods: seq<real> := [];
    for k := 0 to n
      invariant impacts == SA.ImpactSamples(pos, k, sampler)
      invariant likelihoods == SA.LikelihoodSamples(pos, k, sampler)
    {
      var perturbed := PerturbScenario(s, draws(name, pos, k));
      var impact := CalculateRiskImpact(risks[pos], perturbed);
      var likelihood := CalculateRiskLikelihood(risks[pos], perturbed);
      assert (impact, likelihood) == sampler(pos, k);
      SA.SamplesSnoc(pos, k, sampler);
      impacts := impacts + [impact];
      likelihoods := likelihoods + [likelihood];
    }
    r := SimulationResult(risks[pos].id, name, impacts, likelihoods);
  }

  method SimulateScenario(risks: seq<Risk>, name: string, s: Scenario, n: nat,
                          draws: (string, nat, nat) -> (nat -> real)) returns (m: map<int, SimulationResult>)
    ensures m == SA.ScenarioResults(risks, name, n, Sampler(risks, name, s, draws))
  {
    var sampler := Sampler(risks, name, s, draws);
    m := map[];
    for i := 0 to |risks|
      invariant m == SA.ScenarioResults(risks[..i], name, n, sampler)
    {
      var result := SimulateRisk(risks, i, name, s, n, draws);
      SA.ScenarioResultsStep(risks, i, name, n, sampler);
      m := m[risks[i].id := result];
    }
    assert risks[..|risks|] == risks;
  }

  /** Each scenario's entry is its results for n draws per risk, as the driver above fills it. */
  ghost predicate ResultsOfScenarios(results: map<string, map<int, SimulationResult>>, risks: seq<Risk>,
                                     scenarios: map<string, Scenario>, n: nat, draws: (string, nat, nat) -> (nat -> real))
  {
    forall name :: name in results && name in scenarios ==>
      results[name] == SA.ScenarioResults(risks, name, n, Sampler(risks, name, scenarios[name], draws))
  }

  /**
   * perform_monte_carlo_simulations: one result map per scenario, each the
   * scenario's results for num_simulations draws per risk.
   */
  method PerformMonteCarloSimulations(risks: seq<Risk>, scenarios: map<string, Scenario>, numSimulations: nat,
                                      draws: (string, nat, nat) -> (nat -> real))
    returns (results: map<string, map<int, SimulationResult>>)
    ensures results.Keys == scenarios.Keys
    ensures ResultsOfScenarios(results, risks, scenarios, numSimulations, draws)
  {
    results := map[];
    var remaining := scenarios.Keys;
    while remaining != {}
      invariant remaining <= scenarios.Keys
      invariant results.Keys == scenarios.Keys - remaining
      invariant ResultsOfScenarios(results, risks, scenarios, numSimulations, draws)
      decreases remaining
    {
      var name := Pick(remaining);
      var scenarioResults := SimulateScenario(risks, name, scenarios[name], numSimulations, draws);
      results := results[name := scenarioResults];
      remaining := remaining - {name};
    }
  }

  /**
   * perform_monte_carlo_simulations as written: perturb_scenario calls vars()
   * on the Scenario NamedTuple, which has no __dict__, so the first simulation
   * of the first risk raises TypeError. Only a call that never draws returns,
   * and then it agrees with the driver above.
   */
  method PerformMonteCarloSimulationsAsWritten(risks: seq<Risk>, scenarios: map<string, Scenario>, numSimulations: nat,
                                               draws: (string, nat, nat) -> (nat -> real))
    returns (r: Result<map<string, map<int, SimulationResult>>>)
    ensures r.Failure? <==> numSimulations > 0 && |risks| > 0 && |scenarios| > 0
    ensures r.Failure? ==> r.error == WrongArgumentType
    ensures r.Success? ==> r.value.Keys == scenarios.Keys
    ensures r.Success? ==> ResultsOfScenarios(r.value, risks, scenarios, numSimulations, draws)
  {
    var results: map<string, map<int, SimulationResult>> := map[];
    var remaining := scenarios.Keys;
    while remaining != {}
      invariant remaining <= scenarios.Keys
      invariant results.Keys == scenarios.Keys - remaining
      invariant ResultsOfScenarios(results, risks, scenarios, numSimulations, draws)
      invariant numSimulations > 0 && |risks| > 0 ==> remaining == scenarios.Keys
      decreases remaining
    {
      var name := Pick(remaining);
      var scenarioResults := SA.SimulateScenarioAsWritten(risks, name, numSimulations,
                                                          Sampler(risks, name, scenarios[name], draws));
      if scenarioResults.Failure? {
        return Failure(scenarioResults.error);
      }
      results := results[name := scenarioResults.value];
      remaining := remaining - {name};
    }
    return Success(results);
  }

  /**
   * Every scenario's results hold exactly one entry per risk id, keyed by that
   * id and the scenario's name, with num_simulations samples of each score in [0, 1].
   */
  lemma MonteCarloResultShape(risks: seq<Risk>, name: string, s: Scenario, n: nat,
                              draws: (string, nat, nat) -> (nat -> real))
    ensures var m := SA.ScenarioResults(risks, name, n, Sampler(risks, name, s, draws));
      m.Keys == Ids(risks) && forall id :: id in m ==> SA.WellFormedResult(m[id], id, name, n)
  {
    SamplerInUnitRange(risks, name, s, draws, n);
    SA.ScenarioResultsKeys(risks, name, n, Sampler(risks, name, s, draws));
    SA.ScenarioResultsWellFormed(risks, name, n, Sampler(risks, name, s, draws));
  }
}
