# Climate-risk engine: a verified model of the scoring and aggregation core

This project models, in Dafny, the deterministic core of a climate-risk
assessment engine: the records of `src/models.py` and the arithmetic, list and
dict logic of the analysis modules. It proves properties of that model.

- **Scoring.** `calculate_risk_impact` and `calculate_risk_likelihood` exist in
  two versions. The scenario-analysis version reads the indicator set under the
  lexicographically largest year key. The sensitivity version reads no
  indicators. `calculate_historical_impact` is the third scorer. Each is a
  product of linear factors clamped to [0, 1].
- **Scenario analysis.** The module covers:
  - perturbation of scenarios and indicator tables;
  - the Monte-Carlo drivers;
  - stress testing;
  - the sensitivity formula;
  - VaR/CVaR. `np.percentile` is modelled as linear interpolation on the
    sorted samples, and CVaR is the mean of the samples strictly above VaR.
- **Risk interactions.** The symmetric interaction matrix is filled pair by
  pair. The synchronous diffusion step is
  `level' = clip(level + 0.1·(M·level), 0, 1)`. The progression dict collects
  each risk's levels.
- **Advanced analysis.** The aggregate-impact trials and their statistics. The
  100-point tipping sweep finds the first difference above `mean + 2·std`.
  This test is stated without a square root: `d > mean` and
  `(d − mean)² > 4·variance`.
- **Systemic analysis.** Trigger points, and the resilience metrics. Centrality
  and the three graph metrics are inputs.
- **Time series.** Critical periods and the cumulative forecast.
- **Grouping rules.** Categorisation, priority bands, the PESTEL keyword
  classifier with its enrichment, and SASB materiality matching.

### How the model represents the source

- **Inputs that are random or external.** Random draws, the LLM scorer and the
  networkx results are inputs to the model:
  - noise as `nat -> real` functions;
  - the scorer as a `(Risk, Risk) -> RiskInteraction` function;
  - centrality as `(node, value)` pairs;
  - the network as each node's `(neighbour, weight)` list.
- **Dicts whose insertion order matters.** These are sequences of pairs:
  - the indicator table (the max key and the last inserted value are both read);
  - the centrality values;
  - the time-series projections;
  - the scenario impacts.
- **Dicts that are only results.** These are Dafny maps.
- **Loops.** Code that appends in loops is written as Dafny methods with loop
  invariants. Each method is proved equal to a specification function, and the
  lemmas about that function carry the properties.
- **PESTEL.** The category dict that enrichment mutates in place is a class,
  `Pestel.PestelCategories`, with a map field.
- **Errors.** Python's exceptions become `Result` failures:
  - `max()` of an empty dict;
  - `list(...)[-1]` of an empty dict;
  - a missing key;
  - division by zero;
  - a constructor called with missing fields.

### Where the tests and the code disagree

In each of these cases the model follows the code.

- `tests/test_sasb_integration.py:24-26` expects "Employee health and safety" to
  be filed under "Employee Health & Safety". Matching is a literal substring
  test, so it is not (`Sasb.AndDoesNotMatchAmpersand`).
- `tests/test_risk_analysis.py:26` expects risk 3 (impact 0.5, likelihood 0.4) to
  be Low. `assign_risk_priority` returns Medium for it, because both values
  exceed 0.3 (`Categorization.AssignRiskPriority`).

## Model

| member | source | states |
|---|---|---|
| Models.NewRisk | src/models.py:5-21 | construction succeeds iff likelihood and impact both lie in [0, 1] (bounds inclusive); a failure names exactly the out-of-range fields; a success keeps the given values and is valid |
| Models.ToDict | src/models.py:23-24 | the dict's keys are exactly the ten field names of the record |
| Models.ToDictRoundTrip | src/models.py:23-24 | reading the dict back gives the same valid risk |
| Models.NewSASBMaterialRisk | src/models.py:58-68 | construction succeeds iff impact lies in [0, 1]; otherwise the failure names the impact field |
| Models.NewSystemicRisk | src/models.py:70-82 | construction succeeds iff impact lies in [0, 1]; a success keeps impact and the connected risks |
| Models.ScenarioAttribute | src/risk_analysis/scenario_analysis.py:95 | getattr(scenario, variable) succeeds iff the name is one of the twelve numeric fields, and then returns that field; "name" is a wrong-type failure |
| Models.ScenarioFieldsRoundTrip | src/config.py:5-18 | a scenario taken apart into its twelve numeric fields and rebuilt is the same scenario, and rebuilding from any twelve values gives back those values |
| Models.MaxKeyIndex | src/risk_analysis/scenario_analysis.py:45 | picks an entry whose key is not below any other key under Python's string order |
| Models.LatestIndicators | src/risk_analysis/scenario_analysis.py:45-46 | fails iff the table is empty; otherwise returns the indicators stored under a largest key |
| Models.LatestDependsOnlyOnMaxKey | src/risk_analysis/scenario_analysis.py:45-46 | two tables with distinct keys that share the largest key and its entry give the same indicators |
| Models.LatestIsEntryUnderMaxKey | src/risk_analysis/scenario_analysis.py:45-46 | with distinct keys, the result is exactly the entry under the largest key |
| Models.LastInserted | src/risk_analysis/pestel_analysis.py:47 | fails iff the dict is empty; otherwise returns the last inserted value |
| Reals.Clamp01 | src/risk_analysis/scenario_analysis.py:51 | the result lies in [0, 1], equals the input inside [0, 1] and saturates outside it |
| Reals.Percentile | src/risk_analysis/scenario_analysis.py:111 | fails iff there are no samples or q is outside [0, 100]; otherwise lies between the smallest and the largest sample |
| Reals.Median | src/risk_analysis/advanced_analysis.py:33 | fails iff there are no samples |
| Reals.MedianIsMiddle | src/risk_analysis/advanced_analysis.py:33 | interpolating at 50 gives the middle element of an odd-length sorted list and the mean of the two middle elements of an even-length one |
| Reals.Sort | src/risk_analysis/scenario_analysis.py:111 | the result is sorted and is a permutation of the input |
| ScenarioAnalysis.CalculateRiskImpact | src/risk_analysis/scenario_analysis.py:36-51 | fails iff the indicator dict is empty (max of no keys); otherwise the impact lies in [0, 1] |
| ScenarioAnalysis.CalculateRiskLikelihood | src/risk_analysis/scenario_analysis.py:53-67 | fails iff the indicator dict is empty; otherwise the likelihood lies in [0, 1] |
| ScenarioAnalysis.ZeroBaseScoresZero | src/risk_analysis/scenario_analysis.py:49-51 | base impact 0 gives impact exactly 0, and base likelihood 0 gives likelihood exactly 0 |
| ScenarioAnalysis.ScoringReadsOnlyMaxKey | src/risk_analysis/scenario_analysis.py:45-46 | two indicator tables that agree on the entry under the largest key give the same impact and likelihood |
| ScenarioAnalysis.ExtremeScenarioSaturates | src/risk_analysis/scenario_analysis.py:36-51 | base impact 1 under the extreme scenario (5 °C, carbon 1000, full renewables, full loss and degradation) clamps to exactly 1.0 whenever the latest GDP growth is at most 5.7 (at higher growth the GDP factor can bring it below 1) |
| ScenarioAnalysis.ProductOfConstants | src/risk_analysis/scenario_analysis.py:49-50 | the constant factors of the extreme scenario multiply to 2.32875 |
| ScenarioAnalysis.CarbonPriceRaisesImpact | src/risk_analysis/scenario_analysis.py:39 | within the usual scenario ranges, a higher carbon price never lowers the impact |
| ScenarioAnalysis.StressedScenario | src/risk_analysis/scenario_analysis.py:123-133 | the stressed scenario is named "Stressed_" + name; the three fields capped by min(1.0, ...) are at most 1; the four fields the call omits keep the base scenario's values |
| ScenarioAnalysis.StressNeverLowersScores | src/risk_analysis/scenario_analysis.py:119-136 | within the usual ranges, stressing a scenario never lowers a risk's impact or its likelihood |
| ScenarioAnalysis.StressTestingAsWritten | src/risk_analysis/scenario_analysis.py:123-133 | as written, stress testing fails iff there is at least one scenario |
| ScenarioAnalysis.StressTestingAsWrittenFails | src/risk_analysis/scenario_analysis.py:123-133 | the one-scenario call of the unit tests fails as written |
| ScenarioAnalysis.SimulateScenarioImpact | src/risk_analysis/scenario_analysis.py:11-16 | fails iff some risk is scored against an empty indicator dict; otherwise returns one (risk, impact) pair per risk, in input order, each impact being that risk's score |
| ScenarioAnalysis.ScenarioImpactsInUnitRange | src/risk_analysis/scenario_analysis.py:11-16 | every impact in the pairs lies in [0, 1] |
| ScenarioAnalysis.PerformStressTesting | src/risk_analysis/scenario_analysis.py:119-138 | keys are exactly the scenario names; each entry holds the scenario impacts of the stressed scenario; fails iff scoring fails |
| ScenarioAnalysis.TotalImpact | src/risk_analysis/scenario_analysis.py:87 | the summed impact of n risks lies in [0, n] |
| ScenarioAnalysis.TotalImpactCarbonMonotone | src/risk_analysis/scenario_analysis.py:92-93 | within the usual ranges, raising the carbon price never lowers the total impact |
| ScenarioAnalysis.CarbonPricesOrdered | src/risk_analysis/scenario_analysis.py:92-93 | the low-price variant's total impact is at most the high-price variant's |
| ScenarioAnalysis.CentralDifference | src/risk_analysis/scenario_analysis.py:95 | fails iff the denominator is zero; otherwise the result times 2·range_pct·base equals high − low |
| ScenarioAnalysis.CentralDifferenceSign | src/risk_analysis/scenario_analysis.py:95 | with high ≥ low and a positive denominator, the sensitivity exists and is ≥ 0 |
| ScenarioAnalysis.ScenarioSensitivity | src/risk_analysis/scenario_analysis.py:86-103 | succeeds exactly when there are indicators (or no risks), the variable is a numeric scenario field, and neither range_pct nor its base value is 0; fails on an empty indicator dict, on an unknown variable, and with division by zero in those zero cases; a success reports the variable, the total impacts of the base, high and low scenarios, and their central difference |
| ScenarioAnalysis.CarbonPriceSensitivityNonNegative | src/risk_analysis/scenario_analysis.py:86-103 | with the carbon price moved ±range_pct, the sensitivity exists and is non-negative |
| ScenarioAnalysis.SensitivityAsWritten | src/risk_analysis/scenario_analysis.py:86-93 | as written, the analysis never succeeds |
| ScenarioAnalysis.SensitivityAsWrittenNeverAnalyses | src/risk_analysis/scenario_analysis.py:86-95 | for every non-empty risk list the code as written fails on the empty dict, while the corrected formula succeeds for the same risks |
| ScenarioAnalysis.PerturbedValues | src/risk_analysis/scenario_analysis.py:71-73 | one value per field, each being max(0, value·(1 + z)) for that field's own draw |
| ScenarioAnalysis.PerturbedValuesFloored | src/risk_analysis/scenario_analysis.py:73 | every perturbed value is ≥ 0 and is either 0 or value·(1 + z) |
| ScenarioAnalysis.PerturbedScenario | src/risk_analysis/scenario_analysis.py:69-74 | the perturbed scenario keeps the name |
| ScenarioAnalysis.PerturbedScenarioFields | src/risk_analysis/scenario_analysis.py:69-74 | the name is kept, and every numeric field is floored at 0 and otherwise scaled by its own factor 1 + z |
| ScenarioAnalysis.PerturbScenario | src/risk_analysis/scenario_analysis.py:69-74 | the corrected perturbation (see Findings): the loop over the fields yields the perturbed scenario |
| ScenarioAnalysis.ZeroNoiseKeepsScenario | src/risk_analysis/scenario_analysis.py:69-74 | with zero draws, a scenario with non-negative fields is unchanged |
| ScenarioAnalysis.PerturbedIndicators | src/risk_analysis/scenario_analysis.py:79-83 | every perturbed indicator is ≥ 0 |
| ScenarioAnalysis.PerturbedTable | src/risk_analysis/scenario_analysis.py:76-84 | same length, same keys in the same order |
| ScenarioAnalysis.PerturbIndicators | src/risk_analysis/scenario_analysis.py:79-83 | the loop over one indicator set yields the perturbed indicators |
| ScenarioAnalysis.PerturbExternalData | src/risk_analysis/scenario_analysis.py:76-84 | the loop over the years yields the perturbed table |
| ScenarioAnalysis.PerturbedValuesAre | src/risk_analysis/scenario_analysis.py:80-82 | values built field by field as max(0, v·(1 + z)) are the perturbed values |
| ScenarioAnalysis.PerturbedTableKeepsKeys | src/risk_analysis/scenario_analysis.py:78-83 | perturbation keeps distinct keys distinct and keeps an empty table empty |
| ScenarioAnalysis.SampleAt | src/risk_analysis/scenario_analysis.py:26-29 | one simulation's impact and likelihood both lie in [0, 1] |
| ScenarioAnalysis.SamplerInUnitRange | src/risk_analysis/scenario_analysis.py:26-29 | every sample of every risk lies in [0, 1] |
| ScenarioAnalysis.ImpactSamples | src/risk_analysis/scenario_analysis.py:23-30 | the impact distribution has exactly NUM_SIMULATIONS entries |
| ScenarioAnalysis.LikelihoodSamples | src/risk_analysis/scenario_analysis.py:24-31 | the likelihood distribution has exactly NUM_SIMULATIONS entries |
| ScenarioAnalysis.SamplesAt | src/risk_analysis/scenario_analysis.py:25-31 | entry k of each distribution is simulation k, and every entry lies in [0, 1] when the samples do |
| ScenarioAnalysis.ScenarioResults | src/risk_analysis/scenario_analysis.py:21-32 | at most one result per risk |
| ScenarioAnalysis.ScenarioResultsKeys | src/risk_analysis/scenario_analysis.py:22-32 | the results are keyed by exactly the risk ids |
| ScenarioAnalysis.ScenarioResultsWellFormed | src/risk_analysis/scenario_analysis.py:22-32 | every result carries its own risk id and the scenario name, and has NUM_SIMULATIONS impact and likelihood samples in [0, 1] |
| ScenarioAnalysis.SimulateOnce | src/risk_analysis/scenario_analysis.py:26-29 | fails iff the indicator dict is empty; otherwise gives that simulation's sample |
| ScenarioAnalysis.SimulateRisk | src/risk_analysis/scenario_analysis.py:23-32 | the sampling loop yields the risk's simulation result; fails iff there is at least one simulation and no indicators |
| ScenarioAnalysis.SimulateScenario | src/risk_analysis/scenario_analysis.py:21-33 | the loop over risks yields the scenario's results |
| ScenarioAnalysis.MonteCarloSimulation | src/risk_analysis/scenario_analysis.py:18-34 | with the corrected perturbation (see Findings): keys are exactly the scenario names, and each entry is that scenario's results; fails iff scoring is ever attempted without indicators |
| ScenarioAnalysis.SimulateScenarioAsWritten | src/risk_analysis/scenario_analysis.py:22-32 | the loop over the risks of one scenario as written: fails with a TypeError iff it draws at all (a risk and a simulation); otherwise it gives the results any sampler gives |
| ScenarioAnalysis.MonteCarloSimulationAsWritten | src/risk_analysis/scenario_analysis.py:18-34 | as written, with vars() raising inside perturb_scenario: fails with a TypeError iff there is a scenario, a risk and a simulation; otherwise returns what the corrected driver returns |
| ScenarioAnalysis.MonteCarloResultShape | src/risk_analysis/scenario_analysis.py:19-34 | one result per risk id per scenario, each with NUM_SIMULATIONS samples of both scores in [0, 1] |
| ScenarioAnalysis.TailRisk | src/risk_analysis/scenario_analysis.py:110-116 | fails iff there are no samples or the confidence is outside [0, 1]; VaR lies between the smallest and the largest sample; CVaR exists iff some sample exceeds VaR, and then CVaR > VaR |
| ScenarioAnalysis.TailRiskInUnitRange | src/risk_analysis/scenario_analysis.py:110-116 | samples in [0, 1] give VaR and CVaR in [0, 1] |
| ScenarioAnalysis.TailRiskOfScenario | src/risk_analysis/scenario_analysis.py:109-116 | one tail statistic per risk id of the scenario; fails iff some risk's statistic fails |
| ScenarioAnalysis.CalculateVarCvar | src/risk_analysis/scenario_analysis.py:105-117 | the result is keyed like the simulation results, by scenario and then by risk id, and holds each risk's VaR and CVaR; fails iff some risk's statistic fails |
| MonteCarlo.CalculateRiskImpact | src/sensitivity_analysis/monte_carlo.py:29-37 | the impact lies in [0, 1] |
| MonteCarlo.CalculateRiskLikelihood | src/sensitivity_analysis/monte_carlo.py:39-46 | the likelihood lies in [0, 1] |
| MonteCarlo.ZeroBaseScoresZero | src/sensitivity_analysis/monte_carlo.py:31-46 | base impact 0 gives impact 0, and base likelihood 0 gives likelihood 0 |
| MonteCarlo.ImpactMonotoneInBase | src/sensitivity_analysis/monte_carlo.py:31-37 | within the usual scenario ranges, a larger base impact never gives a smaller impact |
| MonteCarlo.ScaledValues | src/sensitivity_analysis/monte_carlo.py:24-26 | every field is multiplied by its own factor |
| MonteCarlo.PerturbedScenario | src/sensitivity_analysis/monte_carlo.py:22-27 | keeps the name and multiplies every numeric field by its own factor |
| MonteCarlo.PerturbScenario | src/sensitivity_analysis/monte_carlo.py:22-27 | the corrected perturbation (see Findings): the loop over the fields yields the perturbed scenario |
| MonteCarlo.UnitFactorsKeepScenario | src/sensitivity_analysis/monte_carlo.py:22-27 | all factors 1 leave the scenario unchanged |
| MonteCarlo.PerturbInverse | src/sensitivity_analysis/monte_carlo.py:22-27 | perturbing by the reciprocal factors undoes a perturbation |
| MonteCarlo.SamplerInUnitRange | src/sensitivity_analysis/monte_carlo.py:13-17 | every simulated impact and likelihood lies in [0, 1] |
| MonteCarlo.SimulateRisk | src/sensitivity_analysis/monte_carlo.py:10-18 | the sampling loop yields the risk's simulation result |
| MonteCarlo.SimulateScenario | src/sensitivity_analysis/monte_carlo.py:8-19 | the loop over risks yields the scenario's results |
| MonteCarlo.PerformMonteCarloSimulations | src/sensitivity_analysis/monte_carlo.py:5-20 | with the corrected perturbation (see Findings): keys are exactly the scenario names, each entry being that scenario's results |
| MonteCarlo.PerformMonteCarloSimulationsAsWritten | src/sensitivity_analysis/monte_carlo.py:5-20 | as written, with vars() raising inside perturb_scenario: fails with a TypeError iff there is a scenario, a risk and a simulation; otherwise returns what the corrected driver returns |
| MonteCarlo.MonteCarloResultShape | src/sensitivity_analysis/monte_carlo.py:6-20 | one result per risk id, keyed by id and scenario name, each with num_simulations samples of both scores in [0, 1] |
| Interaction.PairsExactlyOnce | src/risk_analysis/interaction_analysis.py:18-20 | the pairs visited are exactly the (i, j) with i < j < n, in row-major order, with no repeats |
| Interaction.CreateRiskInteractionMatrix | src/risk_analysis/interaction_analysis.py:15-22 | the matrix is n×n; entry (i, j) is the pair's score; it is symmetric with a zero diagonal and lies in [0, 1] when the scorer does; the scorer is called once per unordered pair |
| Interaction.Step | src/risk_analysis/interaction_analysis.py:55-56 | one synchronous step keeps the length and puts every level in [0, 1] |
| Interaction.Levels | src/risk_analysis/interaction_analysis.py:54-56 | after at least one step every level lies in [0, 1] |
| Interaction.MatrixTimesVector | src/risk_analysis/interaction_analysis.py:55 | entry i is row i of M dotted with the current levels |
| Interaction.StepLevels | src/risk_analysis/interaction_analysis.py:55-56 | the new vector is computed from the previous vector alone |
| Interaction.Propagate | src/risk_analysis/interaction_analysis.py:54-56 | repeating the step gives the levels after that many steps |
| Interaction.RowDotZero | src/risk_analysis/interaction_analysis.py:55 | a zero row gives zero influence |
| Interaction.RowDotNonNegative | src/risk_analysis/interaction_analysis.py:55 | a non-negative row and non-negative levels give non-negative influence |
| Interaction.ZeroMatrixKeepsLevels | src/risk_analysis/interaction_analysis.py:55-56 | an all-zero matrix leaves levels already in [0, 1] unchanged at every step |
| Interaction.StepNeverLowers | src/risk_analysis/interaction_analysis.py:55-56 | with a non-negative matrix and levels in [0, 1], a step never lowers a level |
| Interaction.LevelsNeverDecrease | src/risk_analysis/interaction_analysis.py:54-56 | with a non-negative matrix, no level decreases from one step to the next |
| Interaction.Progression | src/risk_analysis/interaction_analysis.py:52-58 | a risk's progression has t + 1 entries, starts at its base impact, and entry s is its level after s steps |
| Interaction.ProgressionInUnitRange | src/risk_analysis/interaction_analysis.py:52-58 | starting from levels in [0, 1], every entry of a progression lies in [0, 1] |
| Interaction.InitialProgression | src/risk_analysis/interaction_analysis.py:52 | keys are exactly the risk ids; with distinct ids each list is [base impact] |
| Interaction.AppendLevels | src/risk_analysis/interaction_analysis.py:57-58 | keys unchanged; with distinct ids each risk's list gains exactly its new level |
| Interaction.AdvanceProgressions | src/risk_analysis/interaction_analysis.py:54-58 | appending the step-t+1 levels to the step-t progressions gives the step-t+1 progressions |
| Interaction.SimulateRiskInteractions | src/risk_analysis/interaction_analysis.py:49-60 | keys are exactly the risk ids; with distinct ids each list holds the risk's levels at steps 0 .. num_steps |
| Advanced.TrialStart | src/risk_analysis/advanced_analysis.py:25 | each starting level is the risk's Beta draw times its base impact |
| Advanced.AggregateSample | src/risk_analysis/advanced_analysis.py:25-29 | one trial's aggregate impact lies in [0, n] |
| Advanced.AggregateSamples | src/risk_analysis/advanced_analysis.py:24-29 | exactly num_simulations samples, each in [0, n] |
| Advanced.AggregateStatistics | src/risk_analysis/advanced_analysis.py:31-36 | fails iff there are no samples; max is the largest sample; mean, median and 95th percentile are at most max |
| Advanced.StatisticsInRange | src/risk_analysis/advanced_analysis.py:31-36 | samples in [lo, hi] give all four statistics in [lo, hi] |
| Advanced.AssessAggregateImpact | src/risk_analysis/advanced_analysis.py:19-36 | the trial loop yields the statistics of the aggregate samples |
| Advanced.AggregateImpactBounds | src/risk_analysis/advanced_analysis.py:23-36 | num_simulations samples; success iff there is at least one; every statistic lies in [0, n] and mean, median and percentile are at most max |
| Advanced.SweepLevel | src/risk_analysis/advanced_analysis.py:44 | level k of the 100-point grid lies in [0, 1] |
| Advanced.SweepStart | src/risk_analysis/advanced_analysis.py:47-48 | risk i starts at the sweep level and every other risk at its base impact |
| Advanced.Sweep | src/risk_analysis/advanced_analysis.py:44-52 | exactly 100 aggregate impacts, entry k being the aggregate after the steps from sweep level k |
| Advanced.Diffs | src/risk_analysis/advanced_analysis.py:55 | one fewer entry, each the difference of consecutive values |
| Advanced.IndicesAbove | src/risk_analysis/advanced_analysis.py:56-57 | exactly the indices whose difference is above mean + 2·std, in ascending order |
| Advanced.FirstIndexIsFirst | src/risk_analysis/advanced_analysis.py:57-63 | the first listed index is above the threshold and no earlier index is |
| Advanced.TippingFromSweep | src/risk_analysis/advanced_analysis.py:55-65 | a tipping point carries the risk's id and description, and its level lies in [0, 1] |
| Advanced.TippingIsFirstAboveThreshold | src/risk_analysis/advanced_analysis.py:44-65 | the tipping level is k/99 for the first k ≤ 98 above the threshold, and its aggregate impact is the sweep value at k; a risk with no such k has none |
| Advanced.Tippings | src/risk_analysis/advanced_analysis.py:43-65 | one optional tipping point per risk, in risk order |
| Advanced.PresentSources | src/risk_analysis/advanced_analysis.py:59-65 | the kept entries come from ascending positions, and every present entry is kept |
| Advanced.TippingPointsPerRisk | src/risk_analysis/advanced_analysis.py:43-65 | at most one entry per risk, in risk order, each carrying its risk's id, and every risk with a tipping point contributes |
| Advanced.SweepRisk | src/risk_analysis/advanced_analysis.py:44-52 | the sweep loop yields the risk's 100 aggregate impacts |
| Advanced.FindIndicesAbove | src/risk_analysis/advanced_analysis.py:57 | the loop yields the indices above the threshold |
| Advanced.TippingFromAggregates | src/risk_analysis/advanced_analysis.py:55-65 | computes the sweep's tipping point |
| Advanced.TippingPointsAfter | src/risk_analysis/advanced_analysis.py:43-65 | the loop over risks yields the tipping points |
| Advanced.IdentifyTippingPoints | src/risk_analysis/advanced_analysis.py:38-67 | the tipping points with ten interaction steps per sweep level |
| Systemic.Lookup | src/risk_analysis/systemic_risk_analysis.py:13 | absent iff no node has the id; otherwise the id's centrality |
| Systemic.Seconds | src/risk_analysis/systemic_risk_analysis.py:13-15 | the numbers of a list of pairs, in order: the centrality values in node order, the edge weights in adjacency order, and (at line 38) the impacts of the scenario pairs |
| Systemic.Neighbours | src/risk_analysis/systemic_risk_analysis.py:14 | the neighbour ids, in adjacency order |
| Systemic.TriggerOf | src/risk_analysis/systemic_risk_analysis.py:12-24 | a missing node is a KeyError; a risk is a trigger point iff its centrality is strictly above the mean and its total edge weight exceeds half its neighbour count; the point records the neighbours, the weight sum, the description and the external factors, and has at least one neighbour |
| Systemic.TriggerPointsFrom | src/risk_analysis/systemic_risk_analysis.py:12-24 | the accumulated dict only grows |
| Systemic.TriggerPointsFromFails | src/risk_analysis/systemic_risk_analysis.py:12-24 | the loop fails iff some risk's lookup fails |
| Systemic.TriggerPointsFromKeys | src/risk_analysis/systemic_risk_analysis.py:12-24 | earlier keys stay, and every trigger point found gets its id as a key |
| Systemic.TriggerPointsFromOrigin | src/risk_analysis/systemic_risk_analysis.py:12-24 | every entry was already there or is the trigger point of a remaining risk with that id |
| Systemic.TriggerPoints | src/risk_analysis/systemic_risk_analysis.py:8-26 | fails iff some risk's lookup fails; the keys are exactly the ids of the trigger risks, each entry being such a risk's trigger point |
| Systemic.IdentifyTriggerPoints | src/risk_analysis/systemic_risk_analysis.py:8-26 | the loop over risks yields the trigger points |
| Systemic.UniformCentralityNoTriggers | src/risk_analysis/systemic_risk_analysis.py:13 | when every node has the same centrality there is no trigger point |
| Systemic.Dispersion | src/risk_analysis/systemic_risk_analysis.py:39 | std/mean for a non-zero mean; for a zero mean, NaN when the spread is zero and infinite otherwise |
| Systemic.AdaptiveCapacity | src/risk_analysis/systemic_risk_analysis.py:43 | NaN iff there are no risks; otherwise 1 − mean base impact |
| Systemic.ScenarioMetricsFrom | src/risk_analysis/systemic_risk_analysis.py:37-40 | fails iff some scenario lists no impacts; otherwise adds exactly each scenario's two keys and leaves the other keys alone |
| Systemic.NetworkMetrics | src/risk_analysis/systemic_risk_analysis.py:32-34 | keys are exactly the three network metrics |
| Systemic.AssessSystemResilience | src/risk_analysis/systemic_risk_analysis.py:28-45 | the loop that fills the dict yields the resilience metrics |
| Systemic.FixedKeysAreNotScenarioKeys | src/risk_analysis/systemic_risk_analysis.py:32-43 | no scenario key collides with a fixed metric name |
| Systemic.ResilienceKeys | src/risk_analysis/systemic_risk_analysis.py:28-45 | fails iff some scenario lists no impacts; otherwise the keys are the three network metrics, every scenario's two keys and adaptive_capacity, and the fixed metrics hold their inputs |
| Systemic.ScenarioEntriesFrom | src/risk_analysis/systemic_risk_analysis.py:37-40 | with distinct names, every scenario's two keys hold its dispersion and its maximum impact |
| Systemic.ResilienceEntries | src/risk_analysis/systemic_risk_analysis.py:37-43 | in the final dict every scenario's dispersion and maximum impact sit under its two keys |
| Systemic.AdaptiveCapacityInUnitRange | src/risk_analysis/systemic_risk_analysis.py:43 | with impacts in [0, 1], the adaptive capacity lies in [0, 1] |
| Systemic.EqualImpactsNoDispersion | src/risk_analysis/systemic_risk_analysis.py:39 | equal non-zero impacts have zero dispersion |
| Systemic.NonNegativeImpactsDispersion | src/risk_analysis/systemic_risk_analysis.py:39 | non-negative impacts never give an infinite dispersion, and any std/mean they give has a positive mean |
| TimeSeries.CalculateHistoricalImpact | src/risk_analysis/time_series_analysis.py:27-35 | the historical impact lies in [0, 1] |
| TimeSeries.ZeroBaseNoHistoricalImpact | src/risk_analysis/time_series_analysis.py:29-35 | base impact 0 gives historical impact 0 |
| TimeSeries.HistoricalImpactMonotoneInBase | src/risk_analysis/time_series_analysis.py:29-35 | within the usual indicator ranges, a larger base impact never gives a smaller historical impact |
| TimeSeries.CriticalIndices | src/risk_analysis/time_series_analysis.py:56 | exactly the indices whose value is strictly above the threshold, ascending |
| TimeSeries.CriticalPeriods | src/risk_analysis/time_series_analysis.py:53-59 | at most one entry per series |
| TimeSeries.CriticalPeriodsSound | src/risk_analysis/time_series_analysis.py:55-58 | every entry is the non-empty critical list of a risk with that id |
| TimeSeries.CriticalPeriodsComplete | src/risk_analysis/time_series_analysis.py:55-58 | every risk with a critical index has an entry |
| TimeSeries.CriticalIndicesSnoc | src/risk_analysis/time_series_analysis.py:56 | one more period adds its index iff its value is above the threshold |
| TimeSeries.FindCriticalIndices | src/risk_analysis/time_series_analysis.py:56 | the loop yields the critical indices |
| TimeSeries.IdentifyCriticalPeriods | src/risk_analysis/time_series_analysis.py:53-59 | the loop over the series yields the critical periods |
| TimeSeries.CriticalPeriodsPerRisk | src/risk_analysis/time_series_analysis.py:53-59 | a risk has an entry iff it has a critical index, and the entry lists exactly those indices |
| TimeSeries.Column | src/risk_analysis/time_series_analysis.py:63 | period i of every series, in series order |
| TimeSeries.ForecastCumulativeImpact | src/risk_analysis/time_series_analysis.py:61-65 | fails iff there are no series or some series is shorter than the first; otherwise has the first series' length and entry i is the sum of period i over all risks |
| TimeSeries.CumulativeNonDecreasing | src/risk_analysis/time_series_analysis.py:63-64 | non-decreasing series give a non-decreasing cumulative series |
| TimeSeries.CumulativeOfNegative | src/risk_analysis/time_series_analysis.py:63-64 | all-negative series give an all-negative cumulative series |
| Categorization.Group | src/risk_analysis/categorization.py:5-10 | the keys are exactly the keys that occur |
| Categorization.GroupEntries | src/risk_analysis/categorization.py:6-9 | every list is non-empty and holds exactly the risks with that key, in input order |
| Categorization.GroupPartition | src/risk_analysis/categorization.py:6-9 | together the lists hold every risk exactly once |
| Categorization.CategorizeRisks | src/risk_analysis/categorization.py:4-10 | the insertion loop yields the grouping by category |
| Categorization.CategorizeRisksPartition | src/risk_analysis/categorization.py:4-10 | keys are exactly the categories present; every list is non-empty and holds exactly its category's risks; the lists partition the input |
| Categorization.MultiLevel | src/risk_analysis/categorization.py:12-20 | the outer keys are exactly the categories present |
| Categorization.MultiLevelEntries | src/risk_analysis/categorization.py:12-20 | categories[c][sc] is non-empty and holds exactly the risks of category c and subcategory sc, in input order, and every risk is reachable |
| Categorization.MultiLevelSnoc | src/risk_analysis/categorization.py:14-19 | one more risk updates exactly its own category and subcategory list |
| Categorization.MultiLevelAfterIsGrouping | src/risk_analysis/categorization.py:13-20 | inserting risk by risk gives the two-level grouping |
| Categorization.CategorizeRisksMultiLevel | src/risk_analysis/categorization.py:12-20 | the nested insertion loop yields the two-level grouping |
| Categorization.AssignRiskPriority | src/risk_analysis/categorization.py:22-28 | High iff both scores are strictly above 0.7; Medium iff not High and both strictly above 0.3; Low otherwise |
| Categorization.PriorityMonotone | src/risk_analysis/categorization.py:22-28 | raising impact and likelihood never lowers the priority band |
| Categorization.Prioritized | src/risk_analysis/categorization.py:31 | the keys are always exactly High, Medium and Low |
| Categorization.PrioritizedSnoc | src/risk_analysis/categorization.py:32-34 | one more risk is appended to exactly its own band |
| Categorization.PrioritizeRisks | src/risk_analysis/categorization.py:30-35 | the loop yields the banded lists |
| Categorization.PrioritizePartition | src/risk_analysis/categorization.py:30-35 | each band holds exactly the risks of that priority, and the three bands partition the input |
| Pestel.FirstMatch | src/risk_analysis/pestel_analysis.py:30-41 | none iff no later rule's keyword occurs; otherwise the label of the first rule whose keyword occurs |
| Pestel.CategorizeRiskPestel | src/risk_analysis/pestel_analysis.py:27-43 | always one of the six PESTEL labels |
| Pestel.CategorizeIsFirstMatch | src/risk_analysis/pestel_analysis.py:30-43 | the label is the first matching rule's, or Environmental when none matches |
| Pestel.FirstKeywordWins | src/risk_analysis/pestel_analysis.py:30-41 | when rule k is the first to match the lower-cased description, its label is returned |
| Pestel.NoKeywordIsEnvironmental | src/risk_analysis/pestel_analysis.py:42-43 | a description with no keyword is Environmental |
| Pestel.CategorizeIgnoresCase | src/risk_analysis/pestel_analysis.py:30-41 | lower-casing the description does not change the label |
| Pestel.RegulationsBeforeEnvironmental | src/risk_analysis/pestel_analysis.py:30-38 | "New environmental regulations" is Political, because regulation is checked first |
| Pestel.RiskEntryOf | src/risk_analysis/pestel_analysis.py:16-20 | the entry records the risk's id, description and impact |
| Pestel.Labelled | src/risk_analysis/pestel_analysis.py:14-20 | a heading's list holds at most one entry per risk |
| Pestel.LabelledMembers | src/risk_analysis/pestel_analysis.py:14-20 | an entry is under a heading iff it is the entry of a risk with that heading |
| Pestel.Categorized | src/risk_analysis/pestel_analysis.py:5-20 | the keys are exactly the six labels |
| Pestel.CategorizedSnoc | src/risk_analysis/pestel_analysis.py:14-20 | one more risk appends its entry to its own heading only |
| Pestel.CategorizedCount | src/risk_analysis/pestel_analysis.py:14-20 | each risk adds exactly one entry |
| Pestel.Enriched | src/risk_analysis/pestel_analysis.py:49-62 | enrichment keeps the six labels |
| Pestel.PestelAnalysis | src/risk_analysis/pestel_analysis.py:4-25 | fails iff the indicator dict is empty |
| Pestel.PestelCategories.constructor | src/risk_analysis/pestel_analysis.py:5-12 | the six labels, each with an empty list |
| Pestel.EnrichPestelWithExternalData | src/risk_analysis/pestel_analysis.py:45-62 | fails iff the dict is empty, leaving the lists untouched; otherwise appends the last-inserted indicators' three factors in place |
| Pestel.PerformPestelAnalysis | src/risk_analysis/pestel_analysis.py:4-25 | fails iff the dict is empty; otherwise a fresh category object holding the analysis |
| Pestel.PestelAnalysisContents | src/risk_analysis/pestel_analysis.py:4-25 | exactly the six keys; |risks| + 3 entries; every risk's entry under its own label; one factor each appended to Economic, Social and Environmental from the last-inserted indicators; the other three lists hold only risks |
| Sasb.SasbCategories | src/risk_analysis/sasb_integration.py:6-19 | seven distinct issues for Energy, none for any other industry |
| Sasb.Material | src/risk_analysis/sasb_integration.py:21-24 | an issue's list holds at most one entry per risk |
| Sasb.MaterialRisksOf | src/risk_analysis/sasb_integration.py:19 | one list per issue |
| Sasb.MaterialRisks | src/risk_analysis/sasb_integration.py:19-24 | the keys are exactly the industry's issues; an unknown industry gives an empty dict |
| Sasb.AddToMatching | src/risk_analysis/sasb_integration.py:22-24 | one risk's pass keeps the keys |
| Sasb.AddToMatchingEntries | src/risk_analysis/sasb_integration.py:22-24 | one risk's pass appends it to exactly the issues it mentions |
| Sasb.MaterialRisksSnoc | src/risk_analysis/sasb_integration.py:21-24 | one more risk is appended to exactly the issues it mentions |
| Sasb.AppendToMentioned | src/risk_analysis/sasb_integration.py:22-24 | the inner loop yields one risk's pass |
| Sasb.IntegrateSasbMateriality | src/risk_analysis/sasb_integration.py:4-26 | the nested loops yield the material-risk dict |
| Sasb.MaterialIndices | src/risk_analysis/sasb_integration.py:21-24 | exactly the positions of the matching risks, ascending |
| Sasb.MaterialAtIndices | src/risk_analysis/sasb_integration.py:21-24 | an issue's list is the risks at the matching positions, in order |
| Sasb.MaterialRisksContents | src/risk_analysis/sasb_integration.py:19-24 | a risk is under an issue iff its lower-cased description contains the lower-cased issue, in input order |
| Sasb.NonMaterialListedNowhere | src/risk_analysis/sasb_integration.py:22-24 | a risk that mentions no issue is in no list |
| Sasb.OneRiskSeveralIssues | src/risk_analysis/sasb_integration.py:22-24 | a risk that mentions two issues is in both lists |
| Sasb.AndDoesNotMatchAmpersand | src/risk_analysis/sasb_integration.py:23 | an issue written with "&" never matches a description without "&" |

## Left out

- generate_scenario_narratives and analyze_single_interaction: these call an LLM. The interaction scorer is a function parameter, and the narratives are not modelled.
- Network analysis: networkx is not part of this model.
  - Betweenness centrality, the neighbour lists, density, average clustering and assortativity are inputs.
  - identify_relevant_external_factors is called at src/risk_analysis/systemic_risk_analysis.py:23 but its definition is not in the module, so the model takes it as a function parameter.
- project_risk_impact_arima, time_series_analysis and analyze_impact_trends: these are ARIMA and np.polyfit library numerics.
- Randomness: the draws of np.random.normal and np.random.beta are inputs. No distributional property is claimed.
- Configuration: NUM_SIMULATIONS is a parameter, because its value lives in configuration.
- ScenarioAnalysis.PerturbScenario and MonteCarlo.PerturbScenario: these model the corrected perturbation of every numeric field. As written, vars() of the NamedTuple Scenario raises (see Findings); the drivers as written are ScenarioAnalysis.MonteCarloSimulationAsWritten and MonteCarlo.PerformMonteCarloSimulationsAsWritten.
- ScenarioAnalysis.PerturbIndicators and ScenarioAnalysis.PerturbExternalData: these assume pydantic v1, which the records' `validator` and `.dict()` indicate. ExternalData(**values) then takes int() of the perturbed year and population. Under pydantic v2 a fractional value is rejected, so almost every draw would raise; that behaviour is not modelled.
- Text.Lower: folds only the ASCII letters A-Z, while Python's str.lower() also folds non-ASCII letters (U+212A to "k", U+0130 to "i" with a combining dot). The PESTEL keywords and SASB issues are ASCII, but descriptions with such letters may match differently.
- ScenarioAnalysis.ScenarioSensitivity: the high and low scenarios are inputs, and the contract does not say how they relate to the base scenario. As written, perturb_scenario receives a dict as its scale and cannot build them, so the model takes them as given.
- Systemic.Dispersion: the square root is not taken. The metric is kept as the pair (variance, mean), i.e. std/mean before the root.
- Pestel.EnrichPestelWithExternalData: the factor values are kept as numbers with their unit suffix. The f-string rendering is not modelled.
- Interaction.SimulateRiskInteractions and Interaction.InitialProgression: entries are stated per risk only when risk ids are distinct. With duplicate ids Python appends several levels to one list, and the model states only the keys.
- Models.LatestDependsOnlyOnMaxKey and Models.LatestIsEntryUnderMaxKey: these assume distinct keys, as a dict has.
- Dict iteration order of scenario and result dicts: it is not modelled, because those dicts are Dafny maps.
- The delegating wrappers in src/risk_analysis/categorization.py:37-45: they are the same operations as the SASB and PESTEL modules.
- Reporting, visualisation, data loading, prompts and main: these are outside the modelled core.
- Floating point: all quantities are reals, with no rounding or NaN propagation except where stated as a Metric.

## Findings

| source | as written | input that shows it | evidently intended | confidence | as-written member | corrected member |
|---|---|---|---|---|---|---|
| src/risk_analysis/scenario_analysis.py:87-93 | every risk is scored against the empty dict `{}`, so `max()` raises; a dict is passed as the perturbation scale | any non-empty risk list | score against the caller's indicator dict and compare high/low variants of the scenario | not executed | ScenarioAnalysis.SensitivityAsWrittenNeverAnalyses | ScenarioAnalysis.CarbonPriceSensitivityNonNegative |
| src/risk_analysis/scenario_analysis.py:69-74 | perturb_scenario calls vars() on the Scenario NamedTuple (src/config.py:5), which has no __dict__, so it raises TypeError and monte_carlo_simulation fails on its first draw | any call with one scenario, one risk and NUM_SIMULATIONS > 0 | perturb every numeric field of the scenario and keep its name | not executed | ScenarioAnalysis.MonteCarloSimulationAsWritten | ScenarioAnalysis.MonteCarloResultShape |
| src/sensitivity_analysis/monte_carlo.py:22-27 | perturb_scenario calls vars() on the Scenario NamedTuple, so it raises TypeError and perform_monte_carlo_simulations fails on its first draw | any call with one scenario, one risk and num_simulations > 0 | multiply every numeric field by its own draw and keep the name | not executed | MonteCarlo.PerformMonteCarloSimulationsAsWritten | MonteCarlo.MonteCarloResultShape |
| src/risk_analysis/scenario_analysis.py:123-133 | Scenario(...) is called with 8 of its 12 numeric fields, a TypeError | any scenario, e.g. the "Net Zero 2050" one of the unit tests | keep the four unstressed fields from the base scenario | not executed | ScenarioAnalysis.StressTestingAsWrittenFails | ScenarioAnalysis.StressNeverLowersScores |
