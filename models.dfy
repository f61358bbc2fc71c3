/**
 * The records of src/models.py and src/config.py: risks with their
 * probability validators, yearly external indicators, the twelve-field
 * scenario, simulation results and pairwise interactions.
 */
module Models {
  import opened Common
  import opened Text

  predicate IsProbability(v: real) {
    0.0 <= v <= 1.0
  }

  datatype Risk = Risk(
    id: int,
    description: string,
    category: string,
    subcategory: string,
    tertiaryCategory: string,
    likelihood: real,
    impact: real,
    timeHorizon: string,
    industrySpecific: bool,
    sasbCategory: string)
  {
    /** What check_probability accepts. */
    predicate Valid() {
      IsProbability(likelihood) && IsProbability(impact)
    }
  }

  /** The ids of a list of risks. */
  function Ids(risks: seq<Risk>): (ids: set<int>)
    ensures forall i :: 0 <= i < |risks| ==> risks[i].id in ids
    ensures forall id :: id in ids ==> exists i :: 0 <= i < |risks| && risks[i].id == id
  {
    if risks == [] then {}
    else
      var n := |risks| - 1;
      assert forall i :: 0 <= i < n ==> risks[..n][i] == risks[i];
      Ids(risks[..n]) + {risks[n].id}
  }

  ghost predicate AllValid(risks: seq<Risk>) {
    forall i :: 0 <= i < |risks| ==> risks[i].Valid()
  }

  /** No two risks of the list share an id. */
  ghost predicate DistinctIds(risks: seq<Risk>) {
    forall i, j :: 0 <= i < j < |risks| ==> risks[i].id != risks[j].id
  }

  /** The base impacts in list order (np.array([risk.impact for risk in risks])). */
  function Impacts(risks: seq<Risk>): (v: seq<real>)
    ensures |v| == |risks|
    ensures forall i :: 0 <= i < |risks| ==> v[i] == risks[i].impact
  {
    seq(|risks|, i requires 0 <= i < |risks| => risks[i].impact)
  }

  /** Risk(...) construction: both probabilities are checked, and every rejected one is reported. */
  function NewRisk(
    id: int, description: string, category: string, subcategory: string, tertiaryCategory: string,
    likelihood: real, impact: real, timeHorizon: string, industrySpecific: bool, sasbCategory: string): (r: Result<Risk>)
    ensures r.Success? <==> IsProbability(likelihood) && IsProbability(impact)
    ensures r.Success? ==> r.value.Valid() && r.value.id == id && r.value.description == description
    ensures r.Success? ==> r.value.likelihood == likelihood && r.value.impact == impact
    ensures r.Failure? ==> r.error.OutOfRange? && r.error.fields != []
    ensures r.Failure? ==> ("likelihood" in r.error.fields <==> !IsProbability(likelihood))
    ensures r.Failure? ==> ("impact" in r.error.fields <==> !IsProbability(impact))
  {
    var rejected := (if IsProbability(likelihood) then [] else ["likelihood"])
                  + (if IsProbability(impact) then [] else ["impact"]);
    if rejected == [] then
      Success(Risk(id, description, category, subcategory, tertiaryCategory, likelihood, impact,
                   timeHorizon, industrySpecific, sasbCategory))
    else
      Failure(OutOfRange(rejected))
  }

  /** A value of one field of Risk.dict(). */
  datatype FieldValue = IntValue(i: int) | StrValue(s: string) | RealValue(x: real) | BoolValue(b: bool)

  /** Risk.to_dict(): one entry per field, under the field's name. */
  function ToDict(r: Risk): (d: map<string, FieldValue>)
    ensures d.Keys == {"id", "description", "category", "subcategory", "tertiary_category",
                       "likelihood", "impact", "time_horizon", "industry_specific", "sasb_category"}
  {
    map[
      "id" := IntValue(r.id),
      "description" := StrValue(r.description),
      "category" := StrValue(r.category),
      "subcategory" := StrValue(r.subcategory),
      "tertiary_category" := StrValue(r.tertiaryCategory),
      "likelihood" := RealValue(r.likelihood),
      "impact" := RealValue(r.impact),
      "time_horizon" := StrValue(r.timeHorizon),
      "industry_specific" := BoolValue(r.industrySpecific),
      "sasb_category" := StrValue(r.sasbCategory)]
  }

  /** Rebuilding a risk from a field dictionary, as Risk(**d) does. */
  function FromDict(d: map<string, FieldValue>): Result<Risk> {
    if "id" in d && d["id"].IntValue? && "description" in d && d["description"].StrValue?
       && "category" in d && d["category"].StrValue? && "subcategory" in d && d["subcategory"].StrValue?
       && "tertiary_category" in d && d["tertiary_category"].StrValue?
       && "likelihood" in d && d["likelihood"].RealValue? && "impact" in d && d["impact"].RealValue?
       && "time_horizon" in d && d["time_horizon"].StrValue?
       && "industry_specific" in d && d["industry_specific"].BoolValue?
       && "sasb_category" in d && d["sasb_category"].StrValue?
    then
      NewRisk(d["id"].i, d["description"].s, d["category"].s, d["subcategory"].s, d["tertiary_category"].s,
              d["likelihood"].x, d["impact"].x, d["time_horizon"].s, d["industry_specific"].b, d["sasb_category"].s)
    else
      Failure(MissingKey(0))
  }

  /** to_dict loses nothing: a valid risk is rebuilt exactly from its dictionary. */
  lemma ToDictRoundTrip(r: Risk)
    requires r.Valid()
    ensures FromDict(ToDict(r)) == Success(r)
  {
  }

  datatype SASBMaterialRisk = SASBMaterialRisk(riskId: int, sasbCategory: string, description: string, impact: real)

  /** SASBMaterialRisk(...) construction with check_impact. */
  function NewSASBMaterialRisk(riskId: int, sasbCategory: string, description: string, impact: real): (r: Result<SASBMaterialRisk>)
    ensures r.Success? <==> IsProbability(impact)
    ensures r.Success? ==> r.value.impact == impact && r.value.riskId == riskId
    ensures r.Failure? ==> r.error == OutOfRange(["impact"])
  {
    if IsProbability(impact) then Success(SASBMaterialRisk(riskId, sasbCategory, description, impact))
    else Failure(OutOfRange(["impact"]))
  }

  datatype SystemicRisk = SystemicRisk(
    riskId: int, description: string, impact: real, systemicFactor: string,
    connectedRisks: seq<int>, triggerPoints: seq<string>)

  /** SystemicRisk(...) construction with check_impact. */
  function NewSystemicRisk(
    riskId: int, description: string, impact: real, systemicFactor: string,
    connectedRisks: seq<int>, triggerPoints: seq<string>): (r: Result<SystemicRisk>)
    ensures r.Success? <==> IsProbability(impact)
    ensures r.Success? ==> r.value.impact == impact && r.value.connectedRisks == connectedRisks
    ensures r.Failure? ==> r.error == OutOfRange(["impact"])
  {
    if IsProbability(impact) then
      Success(SystemicRisk(riskId, description, impact, systemicFactor, connectedRisks, triggerPoints))
    else Failure(OutOfRange(["impact"]))
  }

  /** RiskInteraction: the score an external scorer gave one pair, with its label. */
  datatype RiskInteraction = RiskInteraction(risk1Id: int, risk2Id: int, interactionScore: real, interactionType: string)

  /** SimulationResult: the sampled impacts and likelihoods of one risk under one scenario. */
  datatype SimulationResult = SimulationResult(riskId: int, scenario: string, impactDistribution: seq<real>, likelihoodDistribution: seq<real>)

  // ---------------------------------------------------------------------
  // Scenarios (src/config.py): a name and twelve numeric fields

  datatype Scenario = Scenario(
    name: string,
    tempIncrease: real,
    carbonPrice: real,
    renewableEnergy: real,
    policyStringency: real,
    biodiversityLoss: real,
    ecosystemDegradation: real,
    financialStability: real,
    supplyChainDisruption: real,
    biodiversityIndex: real,
    ecosystemHealth: real,
    financialSystemStability: real,
    globalSupplyChainResilience: real)
  {
    /** The numeric fields in declaration order. */
    function Fields(): (f: seq<real>)
      ensures |f| == ScenarioFieldCount
    {
      [tempIncrease, carbonPrice, renewableEnergy, policyStringency, biodiversityLoss, ecosystemDegradation,
       financialStability, supplyChainDisruption, biodiversityIndex, ecosystemHealth,
       financialSystemStability, globalSupplyChainResilience]
    }
  }

  const ScenarioFieldCount: nat := 12

  /** The attribute names of the numeric fields, in declaration order. */
  const ScenarioFieldNames: seq<string> := [
    "temp_increase", "carbon_price", "renewable_energy", "policy_stringency", "biodiversity_loss",
    "ecosystem_degradation", "financial_stability", "supply_chain_disruption", "biodiversity_index",
    "ecosystem_health", "financial_system_stability", "global_supply_chain_resilience"]

  /** The position of a numeric field name, if it is one. */
  function ScenarioFieldIndex(attr: string): (k: int)
    ensures -1 <= k < |ScenarioFieldNames|
    ensures k >= 0 ==> ScenarioFieldNames[k] == attr
    ensures k == -1 ==> attr !in ScenarioFieldNames
  {
    FirstIndex(ScenarioFieldNames, attr)
  }

  function FirstIndex(names: seq<string>, attr: string): (k: int)
    ensures -1 <= k < |names|
    ensures k >= 0 ==> names[k] == attr
    ensures k == -1 ==> attr !in names
  {
    if names == [] then -1
    else if names[0] == attr then 0
    else
      var k := FirstIndex(names[1..], attr);
      if k == -1 then -1 else k + 1
  }

  /** getattr(scenario, attr) used as a number: the name is a str, anything else is missing. */
  function ScenarioAttribute(s: Scenario, attr: string): (r: Result<real>)
    ensures r.Success? <==> attr in ScenarioFieldNames
    ensures r.Success? ==> exists k :: 0 <= k < ScenarioFieldCount && ScenarioFieldNames[k] == attr && s.Fields()[k] == r.value
    ensures attr == "name" ==> r == Failure(WrongArgumentType)
  {
    var k := ScenarioFieldIndex(attr);
    if k >= 0 then Success(s.Fields()[k])
    else if attr == "name" then Failure(WrongArgumentType)
    else Failure(UnknownAttribute(attr))
  }

  /** Scenario(name, *values) */
  function ScenarioFromFields(name: string, f: seq<real>): (s: Scenario)
    requires |f| == ScenarioFieldCount
    ensures s.name == name
  {
    Scenario(name, f[0], f[1], f[2], f[3], f[4], f[5], f[6], f[7], f[8], f[9], f[10], f[11])
  }

  /** Splitting a scenario into its fields and rebuilding it are inverse operations. */
  lemma ScenarioFieldsRoundTrip(s: Scenario, name: string, f: seq<real>)
    requires |f| == ScenarioFieldCount
    ensures ScenarioFromFields(s.name, s.Fields()) == s
    ensures ScenarioFromFields(name, f).Fields() == f
  {
  }

  // ---------------------------------------------------------------------
  // External indicators, keyed by str(year) in insertion order

  datatype ExternalData = ExternalData(
    year: int,
    gdpGrowth: real,
    population: int,
    energyDemand: real,
    carbonPrice: real,
    renewableEnergyShare: real,
    biodiversityIndex: real,
    deforestationRate: real)
  {
    /** The numeric fields in declaration order. */
    function Fields(): (f: seq<real>)
      ensures |f| == IndicatorFieldCount
    {
      [year as real, gdpGrowth, population as real, energyDemand, carbonPrice,
       renewableEnergyShare, biodiversityIndex, deforestationRate]
    }
  }

  const IndicatorFieldCount: nat := 8

  /**
   * ExternalData(**values) under pydantic v1, whose `validator` and `.dict()`
   * the records use: the two int fields take int() of their (non-negative after
   * perturbation) value. Pydantic v2 would reject a fractional value instead.
   */
  function IndicatorsFromFields(f: seq<real>): (d: ExternalData)
    requires |f| == IndicatorFieldCount
    requires f[0] >= 0.0 && f[2] >= 0.0
  {
    ExternalData(f[0].Floor, f[1], f[2].Floor, f[3], f[4], f[5], f[6], f[7])
  }

  /** A dict of indicator sets, in insertion order; keys are str(year). */
  type IndicatorTable = seq<(string, ExternalData)>

  ghost predicate DistinctKeys(t: IndicatorTable) {
    forall i, j :: 0 <= i < j < |t| ==> t[i].0 != t[j].0
  }

  /** The position of max(external_data.keys()) under Python's str ordering. */
  function MaxKeyIndex(t: IndicatorTable): (k: nat)
    requires |t| > 0
    ensures k < |t|
    ensures forall j :: 0 <= j < |t| ==> StrLessEq(t[j].0, t[k].0)
  {
    if |t| == 1 then 0
    else
      var k := MaxKeyIndex(t[..|t| - 1]);
      var last := |t| - 1;
      if StrLess(t[k].0, t[last].0) then
        forall j | 0 <= j < last ensures StrLessEq(t[j].0, t[last].0) {
          assert t[j] == t[..last][j];
          if StrLess(t[j].0, t[k].0) { StrLessTransitive(t[j].0, t[k].0, t[last].0); }
        }
        last
      else
        StrLessTotal(t[k].0, t[last].0);
        assert forall j :: 0 <= j < last ==> t[j] == t[..last][j];
        k
  }

  /** Entry k holds the greatest key of the table. */
  ghost predicate IsMaxKeyEntry(t: IndicatorTable, k: int) {
    0 <= k < |t| && forall j :: 0 <= j < |t| ==> StrLessEq(t[j].0, t[k].0)
  }

  /** external_data[max(external_data.keys())], or the error max() raises on an empty dict. */
  function LatestIndicators(t: IndicatorTable): (r: Result<ExternalData>)
    ensures r.Failure? <==> |t| == 0
    ensures r.Failure? ==> r.error == EmptyIndicatorTable
    ensures r.Success? ==> exists k :: IsMaxKeyEntry(t, k) && t[k].1 == r.value
  {
    if |t| == 0 then Failure(EmptyIndicatorTable)
    else
      var k := MaxKeyIndex(t);
      assert IsMaxKeyEntry(t, k);
      Success(t[k].1)
  }

  /**
   * Only the entry under the greatest key matters: two dicts that both hold
   * (key, d) with key their greatest key give the same latest indicators,
   * whatever else they hold and in whatever order.
   */
  lemma LatestDependsOnlyOnMaxKey(t1: IndicatorTable, t2: IndicatorTable, key: string, d: ExternalData)
    requires DistinctKeys(t1) && DistinctKeys(t2)
    requires (key, d) in t1 && (key, d) in t2
    requires forall j :: 0 <= j < |t1| ==> StrLessEq(t1[j].0, key)
    requires forall j :: 0 <= j < |t2| ==> StrLessEq(t2[j].0, key)
    ensures LatestIndicators(t1) == LatestIndicators(t2) == Success(d)
  {
    LatestIsEntryUnderMaxKey(t1, key, d);
    LatestIsEntryUnderMaxKey(t2, key, d);
  }

  lemma LatestIsEntryUnderMaxKey(t: IndicatorTable, key: string, d: ExternalData)
    requires DistinctKeys(t)
    requires (key, d) in t
    requires forall j :: 0 <= j < |t| ==> StrLessEq(t[j].0, key)
    ensures LatestIndicators(t) == Success(d)
  {
    var k := MaxKeyIndex(t);
    var i :| 0 <= i < |t| && t[i] == (key, d);
    assert StrLessEq(t[k].0, key);
    assert StrLessEq(key, t[k].0);
    if t[k].0 != key {
      StrLessAsymmetric(t[k].0, key);
    }
  }

  /** list(external_data.values())[-1]: the most recently inserted indicator set. */
  function LastInserted(t: IndicatorTable): (r: Result<ExternalData>)
    ensures r.Failure? <==> |t| == 0
    ensures r.Success? ==> r.value == t[|t| - 1].1
  {
    if |t| == 0 then Failure(EmptyIndicatorTable) else Success(t[|t| - 1].1)
  }
}
