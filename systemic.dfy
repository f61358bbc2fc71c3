/**
 * src/risk_analysis/systemic_risk_analysis.py: trigger points of the risk
 * network and the system-resilience metrics. The graph algorithms (betweenness
 * centrality, density, clustering, assortativity) are inputs: centrality as
 * the (node, value) pairs networkx reports in node order, the network as each
 * node's (neighbour, weight) list, and the three graph metrics as numbers.
 */
module Systemic {
  import opened Common
  import opened Reals
  import opened Models

  /** nx.betweenness_centrality: one (node, centrality) pair per node, in node order. */
  type Centrality = seq<(int, real)>

  /** risk_network[id]: each node's neighbours with the weight of the connecting edge, in adjacency order. */
  type Adjacency = map<int, seq<(int, real)>>

  datatype TriggerPoint = TriggerPoint(
    description: string,
    centrality: real,
    connectedRisks: seq<int>,
    totalInteractionWeight: real,
    externalFactors: seq<string>)

  // ---------------------------------------------------------------------
  // identify_trigger_points

  /** centrality[id], or nothing when the node is absent (a KeyError). */
  function Lookup(c: Centrality, id: int): (r: Option<real>)
    ensures r.None? <==> forall j :: 0 <= j < |c| ==> c[j].0 != id
    ensures r.Some? ==> exists j :: 0 <= j < |c| && c[j] == (id, r.value)
  {
    if c == [] then None
    else if c[0].0 == id then Some(c[0].1)
    else
      var r := Lookup(c[1..], id);
      assert forall j :: 0 < j < |c| ==> c[j] == c[1..][j - 1];
      r
  }

  /**
   * The numbers of a list of pairs, in order: list(centrality.values()), the
   * edge weights of a node's neighbours, and [impact for _, impact in impacts].
   */
  function Seconds<A>(pairs: seq<(A, real)>): (v: seq<real>)
    ensures |v| == |pairs|
    ensures forall j :: 0 <= j < |pairs| ==> v[j] == pairs[j].1
  {
    seq(|pairs|, j requires 0 <= j < |pairs| => pairs[j].1)
  }

  /** list(risk_network.neighbors(id)) */
  function Neighbours(nbrs: seq<(int, real)>): (ids: seq<int>)
    ensures |ids| == |nbrs|
    ensures forall j :: 0 <= j < |nbrs| ==> ids[j] == nbrs[j].0
  {
    seq(|nbrs|, j requires 0 <= j < |nbrs| => nbrs[j].0)
  }

  /**
   * The loop body for one risk: a missing node is a KeyError; a node whose
   * centrality is strictly above the mean and whose edge weights total more
   * than half its neighbour count is a trigger point, and any other node is not.
   */
  function TriggerOf(risk: Risk, centrality: Centrality, network: Adjacency,
                     factors: Risk -> seq<string>): (r: Result<Option<TriggerPoint>>)
    ensures r.Failure? <==> (Lookup(centrality, risk.id).None? ||
      (Lookup(centrality, risk.id).value > Mean(Seconds(centrality)) && risk.id !in network))
    ensures r.Failure? ==> r.error == MissingKey(risk.id)
    ensures r.Success? && r.value.Some? ==>
      var t := r.value.value;
      && Lookup(centrality, risk.id) == Some(t.centrality)
      && t.centrality > Mean(Seconds(centrality))
      && risk.id in network
      && t.connectedRisks == Neighbours(network[risk.id])
      && t.totalInteractionWeight == Sum(Seconds(network[risk.id]))
      && t.totalInteractionWeight > 0.5 * |t.connectedRisks| as real
      && |t.connectedRisks| > 0
      && t.description == risk.description
      && t.externalFactors == factors(risk)
    ensures r.Success? && r.value.None? ==>
      Lookup(centrality, risk.id).Some? &&
      (Lookup(centrality, risk.id).value <= Mean(Seconds(centrality)) ||
       Sum(Seconds(network[risk.id])) <= 0.5 * |network[risk.id]| as real)
  {
    match Lookup(centrality, risk.id)
    case None => Failure(MissingKey(risk.id))
    case Some(c) =>
      if c > Mean(Seconds(centrality)) then
        if risk.id !in network then Failure(MissingKey(risk.id))
        else
          var nbrs := network[risk.id];
          var total := Sum(Seconds(nbrs));
          if total > 0.5 * |nbrs| as real then
            Success(Some(TriggerPoint(risk.description, c, Neighbours(nbrs), total, factors(risk))))
          else Success(None)
      else Success(None)
  }

  /** trigger_points[risk.id] = ... for the trigger points among the remaining risks, on top of acc. */
  function TriggerPointsFrom(acc: map<int, TriggerPoint>, risks: seq<Risk>, centrality: Centrality,
                             network: Adjacency, factors: Risk -> seq<string>): (r: Result<map<int, TriggerPoint>>)
    ensures r.Success? ==> |r.value| >= |acc|
    decreases |risks|
  {
    if risks == [] then Success(acc)
    else
      match TriggerOf(risks[0], centrality, network, factors)
      case Failure(e) => Failure(e)
      case Success(None) => TriggerPointsFrom(acc, risks[1..], centrality, network, factors)
      case Success(Some(t)) =>
        assert acc.Keys <= acc[risks[0].id := t].Keys;
        TriggerPointsFrom(acc[risks[0].id := t], risks[1..], centrality, network, factors)
  }

  /** The fold fails exactly when some remaining risk's node is missing. */
  lemma {:induction false} TriggerPointsFromFails(acc: map<int, TriggerPoint>, risks: seq<Risk>, centrality: Centrality,
                                                  network: Adjacency, factors: Risk -> seq<string>)
    ensures TriggerPointsFrom(acc, risks, centrality, network, factors).Failure? <==>
      exists j :: 0 <= j < |risks| && TriggerOf(risks[j], centrality, network, factors).Failure?
    decreases |risks|
  {
    if risks != [] {
      assert forall j :: 0 < j < |risks| ==> risks[j] == risks[1..][j - 1];
      match TriggerOf(risks[0], centrality, network, factors)
      case Failure(e) =>
      case Success(None) =>
        TriggerPointsFromFails(acc, risks[1..], centrality, network, factors);
      case Success(Some(t)) =>
        TriggerPointsFromFails(acc[risks[0].id := t], risks[1..], centrality, network, factors);
    }
  }

  /** A successful fold keeps every key of acc and adds every remaining risk that qualifies. */
  lemma {:induction false} TriggerPointsFromKeys(acc: map<int, TriggerPoint>, risks: seq<Risk>, centrality: Centrality,
                                                 network: Adjacency, factors: Risk -> seq<string>)
    requires TriggerPointsFrom(acc, risks, centrality, network, factors).Success?
    ensures forall id :: id in acc ==> id in TriggerPointsFrom(acc, risks, centrality, network, factors).value
    ensures forall j :: 0 <= j < |risks| ==> TriggerOf(risks[j], centrality, network, factors).Success? ==>
      TriggerOf(risks[j], centrality, network, factors).value.Some? ==>
        risks[j].id in TriggerPointsFrom(acc, risks, centrality, network, factors).value
    decreases |risks|
  {
    if risks != [] {
      assert forall j :: 0 < j < |risks| ==> risks[j] == risks[1..][j - 1];
      match TriggerOf(risks[0], centrality, network, factors)
      case Failure(e) =>
      case Success(None) =>
        TriggerPointsFromKeys(acc, risks[1..], centrality, network, factors);
      case Success(Some(t)) =>
        TriggerPointsFromKeys(acc[risks[0].id := t], risks[1..], centrality, network, factors);
    }
  }

  /** Each entry of a successful fold is acc's or the trigger point of a remaining risk with that id. */
  lemma {:induction false} TriggerPointsFromOrigin(acc: map<int, TriggerPoint>, risks: seq<Risk>, centrality: Centrality,
                                                   network: Adjacency, factors: Risk -> seq<string>)
    requires TriggerPointsFrom(acc, risks, centrality, network, factors).Success?
    ensures forall id :: id in TriggerPointsFrom(acc, risks, centrality, network, factors).value ==>
      (id in acc && TriggerPointsFrom(acc, risks, centrality, network, factors).value[id] == acc[id]) ||
      (exists j :: 0 <= j < |risks| && risks[j].id == id &&
        TriggerOf(risks[j], centrality, network, factors) ==
          Success(Some(TriggerPointsFrom(acc, risks, centrality, network, factors).value[id])))
    decreases |risks|
  {
    if risks != [] {
      assert forall j :: 0 < j < |risks| ==> risks[j] == risks[1..][j - 1];
      match TriggerOf(risks[0], centrality, network, factors)
      case Failure(e) =>
      case Success(None) =>
        TriggerPointsFromOrigin(acc, risks[1..], centrality, network, factors);
      case Success(Some(t)) =>
        TriggerPointsFromOrigin(acc[risks[0].id := t], risks[1..], centrality, network, factors);
    }
  }

  /**
   * identify_trigger_points: fails exactly when some risk's node is missing;
   * otherwise the keys are exactly the ids of the risks that qualify, and each
   * entry is the trigger point of a risk with that id.
   */
  function TriggerPoints(risks: seq<Risk>, centrality: Centrality, network: Adjacency,
                         factors: Risk -> seq<string>): (r: Result<map<int, TriggerPoint>>)
    ensures r.Failure? <==> exists j :: 0 <= j < |risks| && TriggerOf(risks[j], centrality, network, factors).Failure?
    ensures r.Success? ==> forall id :: id in r.value <==>
      exists j :: 0 <= j < |risks| && risks[j].id == id && TriggerOf(risks[j], centrality, network, factors).value.Some?
    ensures r.Success? ==> forall id :: id in r.value ==>
      exists j :: 0 <= j < |risks| && risks[j].id == id &&
        TriggerOf(risks[j], centrality, network, factors) == Success(Some(r.value[id]))
  {
    TriggerPointsFromFails(map[], risks, centrality, network, factors);
    if TriggerPointsFrom(map[], risks, centrality, network, factors).Success? then
      TriggerPointsFromKeys(map[], risks, centrality, network, factors);
      TriggerPointsFromOrigin(map[], risks, centrality, network, factors);
      TriggerPointsFrom(map[], risks, centrality, network, factors)
    else
      TriggerPointsFrom(map[], risks, centrality, network, factors)
  }

  method IdentifyTriggerPoints(risks: seq<Risk>, centrality: Centrality, network: Adjacency,
                               factors: Risk -> seq<string>) returns (r: Result<map<int, TriggerPoint>>)
    ensures r == TriggerPoints(risks, centrality, network, factors)
  {
    var triggerPoints: map<int, TriggerPoint> := map[];
    for i := 0 to |risks|
      invariant TriggerPointsFrom(triggerPoints, risks[i..], centrality, network, factors)
             == TriggerPoints(risks, centrality, network, factors)
    {
      var c := Lookup(centrality, risks[i].id);
      if c.None? {
        return Failure(MissingKey(risks[i].id));
      }
      if c.value > Mean(Seconds(centrality)) {
        if risks[i].id !in network {
          return Failure(MissingKey(risks[i].id));
        }
        var neighbours := network[risks[i].id];
        var totalWeight := Sum(Seconds(neighbours));
        if totalWeight > 0.5 * |neighbours| as real {
          triggerPoints := triggerPoints[risks[i].id :=
            TriggerPoint(risks[i].description, c.value, Neighbours(neighbours), totalWeight, factors(risks[i]))];
        }
      }
      assert risks[i..][1..] == risks[i + 1..];
    }
    r := Success(triggerPoints);
  }

  /**
   * When every node has the same centrality (a graph without paths through
   * any node, for one), no node is strictly above the mean and there is no
   * trigger point.
   */
  lemma UniformCentralityNoTriggers(risks: seq<Risk>, centrality: Centrality, network: Adjacency,
                                    factors: Risk -> seq<string>, v: real)
    requires forall j :: 0 <= j < |centrality| ==> centrality[j].1 == v
    ensures TriggerPoints(risks, centrality, network, factors).Success? ==>
      TriggerPoints(risks, centrality, network, factors).value == map[]
  {
    var values := Seconds(centrality);
    var r := TriggerPoints(risks, centrality, network, factors);
    if r.Success? && |values| > 0 {
      MeanOfUniform(values, v);
      forall j | 0 <= j < |risks|
        ensures !TriggerOf(risks[j], centrality, network, factors).value.Some?
      {
        var c := Lookup(centrality, risks[j].id);
        assert c.Some? ==> c.value == v;
      }
      assert r.value.Keys == {};
    }
  }

  // ---------------------------------------------------------------------
  // assess_system_resilience

  /**
   * A metric value. np.std(v) / np.mean(v) is kept as its variance and mean
   * (the quotient is the square root of the variance over the mean); dividing
   * a positive deviation by a zero mean is infinite, and 0/0 or the mean of
   * nothing is NaN.
   */
  datatype Metric = Value(x: real) | StdOverMean(variance: real, mean: real) | Infinite | NaN

  /** scenario_impacts: (scenario name, [(risk, impact)]) in insertion order. */
  type ScenarioImpacts = seq<(string, seq<(Risk, real)>)>

  const DispersionSuffix: string := "_impact_dispersion"
  const MaxImpactSuffix: string := "_max_impact"

  /** np.std(v) / np.mean(v) for a non-empty list. */
  function Dispersion(v: seq<real>): (d: Metric)
    requires |v| > 0
    ensures Mean(v) != 0.0 ==> d == StdOverMean(Variance(v), Mean(v))
    ensures Mean(v) == 0.0 ==> (d == NaN <==> Variance(v) == 0.0) && (d == Infinite <==> Variance(v) > 0.0)
  {
    var m := Mean(v);
    if m != 0.0 then StdOverMean(Variance(v), m)
    else if Variance(v) == 0.0 then NaN
    else Infinite
  }

  /** 1 - np.mean([risk.impact for risk in risks]); the mean of no risks is NaN. */
  function AdaptiveCapacity(risks: seq<Risk>): (m: Metric)
    ensures |risks| == 0 <==> m == NaN
    ensures |risks| > 0 ==> m == Value(1.0 - Mean(Impacts(risks)))
  {
    if |risks| == 0 then NaN else Value(1.0 - Mean(Impacts(risks)))
  }

  /** The keys the scenario loop writes. */
  function ScenarioKeys(scenarios: ScenarioImpacts): (keys: set<string>)
  {
    (set j | 0 <= j < |scenarios| :: scenarios[j].0 + DispersionSuffix) +
    (set j | 0 <= j < |scenarios| :: scenarios[j].0 + MaxImpactSuffix)
  }

  /**
   * The scenario loop on top of metrics: each scenario writes its dispersion and
   * its maximum impact; max() of an empty impact list raises.
   */
  function ScenarioMetricsFrom(metrics: map<string, Metric>, scenarios: ScenarioImpacts): (r: Result<map<string, Metric>>)
    ensures r.Failure? <==> exists j :: 0 <= j < |scenarios| && |scenarios[j].1| == 0
    ensures r.Failure? ==> r.error == EmptySamples
    ensures r.Success? ==> r.value.Keys == metrics.Keys + ScenarioKeys(scenarios)
    ensures r.Success? ==> forall k :: k in metrics && k !in ScenarioKeys(scenarios) ==> r.value[k] == metrics[k]
    decreases |scenarios|
  {
    if scenarios == [] then Success(metrics)
    else
      var rest := scenarios[1..];
      assert forall j :: 0 < j < |scenarios| ==> scenarios[j] == rest[j - 1];
      assert ScenarioKeys(scenarios) == ScenarioKeys(rest) +
        {scenarios[0].0 + DispersionSuffix, scenarios[0].0 + MaxImpactSuffix} by {
        ScenarioKeysCons(scenarios);
      }
      var name := scenarios[0].0;
      var values := Seconds(scenarios[0].1);
      if |values| == 0 then Failure(EmptySamples)
      else
        ScenarioMetricsFrom(metrics[name + DispersionSuffix := Dispersion(values)]
                                   [name + MaxImpactSuffix := Value(MaxOf(values))], rest)
  }

  lemma ScenarioKeysCons(scenarios: ScenarioImpacts)
    requires |scenarios| > 0
    ensures ScenarioKeys(scenarios) == ScenarioKeys(scenarios[1..]) +
      {scenarios[0].0 + DispersionSuffix, scenarios[0].0 + MaxImpactSuffix}
  {
    var rest := scenarios[1..];
    assert forall j :: 0 < j < |scenarios| ==> scenarios[j] == rest[j - 1];
    forall k | k in ScenarioKeys(scenarios)
      ensures k in ScenarioKeys(rest) + {scenarios[0].0 + DispersionSuffix, scenarios[0].0 + MaxImpactSuffix}
    {
      var j :| 0 <= j < |scenarios| && (k == scenarios[j].0 + DispersionSuffix || k == scenarios[j].0 + MaxImpactSuffix);
      if j > 0 {
        assert scenarios[j] == rest[j - 1];
      }
    }
  }

  function NetworkMetrics(density: real, clustering: real, assortativity: real): (m: map<string, Metric>)
    ensures m.Keys == {"network_density", "average_clustering", "assortativity"}
  {
    map["network_density" := Value(density)]["average_clustering" := Value(clustering)]["assortativity" := Value(assortativity)]
  }

  /**
   * assess_system_resilience: the three network metrics, then per scenario its
   * dispersion and maximum impact, then the adaptive capacity.
   */
  function SystemResilience(risks: seq<Risk>, density: real, clustering: real, assortativity: real,
                            scenarios: ScenarioImpacts): (r: Result<map<string, Metric>>)
  {
    match ScenarioMetricsFrom(NetworkMetrics(density, clustering, assortativity), scenarios)
    case Failure(e) => Failure(e)
    case Success(m) => Success(m["adaptive_capacity" := AdaptiveCapacity(risks)])
  }

  method AssessSystemResilience(risks: seq<Risk>, density: real, clustering: real, assortativity: real,
                                scenarios: ScenarioImpacts) returns (r: Result<map<string, Metric>>)
    ensures r == SystemResilience(risks, density, clustering, assortativity, scenarios)
  {
    var metrics: map<string, Metric> := map[];
    metrics := metrics["network_density" := Value(density)];
    metrics := metrics["average_clustering" := Value(clustering)];
    metrics := metrics["assortativity" := Value(assortativity)];
    ghost var start := metrics;
    for i := 0 to |scenarios|
      invariant ScenarioMetricsFrom(metrics, scenarios[i..]) == ScenarioMetricsFrom(start, scenarios)
    {
      var name := scenarios[i].0;
      var values := Seconds(scenarios[i].1);
      if |values| == 0 {
        return Failure(EmptySamples);
      }
      metrics := metrics[name + DispersionSuffix := Dispersion(values)];
      metrics := metrics[name + MaxImpactSuffix := Value(MaxOf(values))];
      assert scenarios[i..][1..] == scenarios[i + 1..];
    }
    metrics := metrics["adaptive_capacity" := AdaptiveCapacity(risks)];
    r := Success(metrics);
  }

  /** No scenario key can be one of the fixed metric names: they end in 'n' or 't'. */
  lemma FixedKeysAreNotScenarioKeys(scenarios: ScenarioImpacts)
    ensures "network_density" !in ScenarioKeys(scenarios)
    ensures "average_clustering" !in ScenarioKeys(scenarios)
    ensures "assortativity" !in ScenarioKeys(scenarios)
    ensures "adaptive_capacity" !in ScenarioKeys(scenarios)
  {
    forall j | 0 <= j < |scenarios|
      ensures (scenarios[j].0 + DispersionSuffix)[|scenarios[j].0 + DispersionSuffix| - 1] == 'n'
      ensures (scenarios[j].0 + MaxImpactSuffix)[|scenarios[j].0 + MaxImpactSuffix| - 1] == 't'
    {
    }
  }

  /**
   * The result fails exactly when some scenario lists no impact; otherwise
   * its keys are the three network metrics, the two keys of every scenario
   * and adaptive_capacity, and the fixed metrics hold their inputs.
   */
  lemma ResilienceKeys(risks: seq<Risk>, density: real, clustering: real, assortativity: real,
                       scenarios: ScenarioImpacts)
    ensures var r := SystemResilience(risks, density, clustering, assortativity, scenarios);
      && (r.Failure? <==> exists j :: 0 <= j < |scenarios| && |scenarios[j].1| == 0)
      && (r.Success? ==>
           && r.value.Keys == {"network_density", "average_clustering", "assortativity", "adaptive_capacity"}
                              + ScenarioKeys(scenarios)
           && r.value["network_density"] == Value(density)
           && r.value["average_clustering"] == Value(clustering)
           && r.value["assortativity"] == Value(assortativity)
           && r.value["adaptive_capacity"] == AdaptiveCapacity(risks))
  {
    FixedKeysAreNotScenarioKeys(scenarios);
  }

  /** Distinct keys, as a dict's scenario names are. */
  ghost predicate DistinctNames(scenarios: ScenarioImpacts) {
    forall i, j :: 0 <= i < j < |scenarios| ==> scenarios[i].0 != scenarios[j].0
  }

  lemma SuffixedKeyInjective(a: string, b: string, suffix: string)
    requires a + suffix == b + suffix
    ensures a == b
  {
    assert |a| == |b|;
    assert a == (a + suffix)[..|a|];
    assert b == (b + suffix)[..|b|];
  }

  /** A name no scenario of the list carries owns neither of its two keys there. */
  lemma FreshNameKeys(name: string, scenarios: ScenarioImpacts)
    requires forall j :: 0 <= j < |scenarios| ==> scenarios[j].0 != name
    ensures name + DispersionSuffix !in ScenarioKeys(scenarios)
    ensures name + MaxImpactSuffix !in ScenarioKeys(scenarios)
  {
    forall j | 0 <= j < |scenarios|
      ensures scenarios[j].0 + DispersionSuffix != name + DispersionSuffix
      ensures scenarios[j].0 + MaxImpactSuffix != name + MaxImpactSuffix
      ensures scenarios[j].0 + MaxImpactSuffix != name + DispersionSuffix
      ensures scenarios[j].0 + DispersionSuffix != name + MaxImpactSuffix
    {
      if scenarios[j].0 + DispersionSuffix == name + DispersionSuffix {
        SuffixedKeyInjective(scenarios[j].0, name, DispersionSuffix);
      }
      if scenarios[j].0 + MaxImpactSuffix == name + MaxImpactSuffix {
        SuffixedKeyInjective(scenarios[j].0, name, MaxImpactSuffix);
      }
      var d, m := name + DispersionSuffix, scenarios[j].0 + MaxImpactSuffix;
      assert d[|d| - 1] == 'n' && m[|m| - 1] == 't';
      var d2, m2 := scenarios[j].0 + DispersionSuffix, name + MaxImpactSuffix;
      assert d2[|d2| - 1] == 'n' && m2[|m2| - 1] == 't';
    }
  }

  /** Every scenario's two entries hold its dispersion and its maximum impact. */
  lemma {:induction false} ScenarioEntriesFrom(metrics: map<string, Metric>, scenarios: ScenarioImpacts)
    requires DistinctNames(scenarios)
    ensures var r := ScenarioMetricsFrom(metrics, scenarios);
      r.Success? ==> forall j :: 0 <= j < |scenarios| ==>
        && r.value[scenarios[j].0 + DispersionSuffix] == Dispersion(Seconds(scenarios[j].1))
        && r.value[scenarios[j].0 + MaxImpactSuffix] == Value(MaxOf(Seconds(scenarios[j].1)))
    decreases |scenarios|
  {
    var r := ScenarioMetricsFrom(metrics, scenarios);
    if scenarios != [] && r.Success? {
      var rest := scenarios[1..];
      var name := scenarios[0].0;
      var values := Seconds(scenarios[0].1);
      var next := metrics[name + DispersionSuffix := Dispersion(values)][name + MaxImpactSuffix := Value(MaxOf(values))];
      assert r == ScenarioMetricsFrom(next, rest);
      ScenarioEntriesFrom(next, rest);
      FreshNameKeys(name, rest);
      forall j | 0 <= j < |scenarios|
        ensures r.value[scenarios[j].0 + DispersionSuffix] == Dispersion(Seconds(scenarios[j].1))
        ensures r.value[scenarios[j].0 + MaxImpactSuffix] == Value(MaxOf(Seconds(scenarios[j].1)))
      {
        if j > 0 {
          assert scenarios[j] == rest[j - 1];
        }
      }
    }
  }

  /**
   * With distinct scenario names, every scenario's dispersion and maximum
   * impact sit under its two keys, and adaptive_capacity does not overwrite them.
   */
  lemma ResilienceEntries(risks: seq<Risk>, density: real, clustering: real, assortativity: real,
                          scenarios: ScenarioImpacts)
    requires DistinctNames(scenarios)
    ensures var r := SystemResilience(risks, density, clustering, assortativity, scenarios);
      r.Success? ==> forall j :: 0 <= j < |scenarios| ==>
        && r.value[scenarios[j].0 + DispersionSuffix] == Dispersion(Seconds(scenarios[j].1))
        && r.value[scenarios[j].0 + MaxImpactSuffix] == Value(MaxOf(Seconds(scenarios[j].1)))
  {
    ScenarioEntriesFrom(NetworkMetrics(density, clustering, assortativity), scenarios);
    FixedKeysAreNotScenarioKeys(scenarios);
  }

  /** With every risk's impact a probability, the adaptive capacity lies in [0, 1]. */
  lemma AdaptiveCapacityInUnitRange(risks: seq<Risk>)
    requires |risks| > 0 && AllValid(risks)
    ensures AdaptiveCapacity(risks).Value? && 0.0 <= AdaptiveCapacity(risks).x <= 1.0
  {
    MeanBounds(Impacts(risks), 0.0, 1.0);
  }

  /** Equal non-zero impacts have no dispersion: standard deviation 0 over their common value. */
  lemma EqualImpactsNoDispersion(v: seq<real>, c: real)
    requires |v| > 0 && c != 0.0
    requires forall j :: 0 <= j < |v| ==> v[j] == c
    ensures Dispersion(v) == StdOverMean(0.0, c)
  {
    MeanOfUniform(v, c);
    NoDeviation(v, c);
  }

  /**
   * Non-negative impacts never give an infinite dispersion: a zero mean means
   * every impact is zero, so the quotient is 0/0.
   */
  lemma NonNegativeImpactsDispersion(v: seq<real>)
    requires |v| > 0
    requires forall j :: 0 <= j < |v| ==> v[j] >= 0.0
    ensures Dispersion(v) != Infinite
    ensures Dispersion(v).StdOverMean? ==> Dispersion(v).mean > 0.0
  {
    SumAtLeast(v, 0.0);
    DivAtLeast(Sum(v), |v| as real, 0.0);
    if Mean(v) == 0.0 {
      assert Sum(v) == 0.0;
      NonNegativeZeroSum(v);
      NoDeviation(v, 0.0);
    }
  }

  lemma {:induction false} NonNegativeZeroSum(v: seq<real>)
    requires forall j :: 0 <= j < |v| ==> v[j] >= 0.0
    requires Sum(v) == 0.0
    ensures forall j :: 0 <= j < |v| ==> v[j] == 0.0
  {
    if v != [] {
      var init := v[..|v| - 1];
      SumAtLeast(init, 0.0);
      NonNegativeZeroSum(init);
      assert forall j :: 0 <= j < |init| ==> v[j] == init[j];
    }
  }

  lemma {:induction false} NoDeviation(v: seq<real>, c: real)
    requires forall j :: 0 <= j < |v| ==> v[j] == c
    ensures SumSquaredDeviations(v, c) == 0.0
  {
    if v != [] {
      NoDeviation(v[..|v| - 1], c);
    }
  }
}
