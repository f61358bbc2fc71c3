/**
 * src/risk_analysis/pestel_analysis.py: the keyword classifier that files a
 * risk under one of the six PESTEL labels, the analysis that lists every
 * risk under its heading, and the enrichment that appends the latest
 * indicators to three of the lists in place.
 */
module Pestel {
  import opened Common
  import opened Text
  import opened Models

  const PestelLabels: set<string> :=
    {"Political", "Economic", "Social", "Technological", "Environmental", "Legal"}

  // ---------------------------------------------------------------------
  // categorize_risk_pestel

  /** A heading with its two keywords, in the order the classifier tries them. */
  const Rules: seq<(string, string, string)> := [
    ("Political", "regulation", "policy"),
    ("Economic", "economic", "financial"),
    ("Social", "social", "demographic"),
    ("Technological", "technology", "innovation"),
    ("Environmental", "environmental", "climate"),
    ("Legal", "legal", "liability")]

  /** One of the rule's two keywords occurs in the text. */
  predicate Mentions(text: string, rule: (string, string, string)) {
    Contains(text, rule.1) || Contains(text, rule.2)
  }

  /** The heading of the first rule from index k on whose keyword occurs in the text. */
  function FirstMatch(text: string, k: nat): (r: Option<string>)
    requires k <= |Rules|
    ensures r.None? <==> forall j :: k <= j < |Rules| ==> !Mentions(text, Rules[j])
    ensures r.Some? ==> exists j :: (k <= j < |Rules| && r.value == Rules[j].0 &&
      Mentions(text, Rules[j]) && forall i :: k <= i < j ==> !Mentions(text, Rules[i]))
    decreases |Rules| - k
  {
    if k == |Rules| then None
    else if Mentions(text, Rules[k]) then Some(Rules[k].0)
    else FirstMatch(text, k + 1)
  }

  /**
   * categorize_risk_pestel: the lower-cased description is checked against the
   * keyword pairs in order; a description with no keyword is Environmental.
   */
  function CategorizeRiskPestel(risk: Risk): (pestel: string)
    ensures pestel in PestelLabels
  {
    var d := Lower(risk.description);
    if Contains(d, "regulation") || Contains(d, "policy") then "Political"
    else if Contains(d, "economic") || Contains(d, "financial") then "Economic"
    else if Contains(d, "social") || Contains(d, "demographic") then "Social"
    else if Contains(d, "technology") || Contains(d, "innovation") then "Technological"
    else if Contains(d, "environmental") || Contains(d, "climate") then "Environmental"
    else if Contains(d, "legal") || Contains(d, "liability") then "Legal"
    else "Environmental"
  }

  /** The if-chain is the rule table read in order, with Environmental as the fallback. */
  lemma CategorizeIsFirstMatch(risk: Risk)
    ensures CategorizeRiskPestel(risk) == (match FirstMatch(Lower(risk.description), 0)
                                           case Some(l) => l
                                           case None => "Environmental")
  {
    var d := Lower(risk.description);
    assert FirstMatch(d, 5) == (if Contains(d, "legal") || Contains(d, "liability") then Some("Legal") else None);
    assert FirstMatch(d, 4) == (if Contains(d, "environmental") || Contains(d, "climate") then Some("Environmental") else FirstMatch(d, 5));
    assert FirstMatch(d, 3) == (if Contains(d, "technology") || Contains(d, "innovation") then Some("Technological") else FirstMatch(d, 4));
    assert FirstMatch(d, 2) == (if Contains(d, "social") || Contains(d, "demographic") then Some("Social") else FirstMatch(d, 3));
    assert FirstMatch(d, 1) == (if Contains(d, "economic") || Contains(d, "financial") then Some("Economic") else FirstMatch(d, 2));
    assert FirstMatch(d, 0) == (if Contains(d, "regulation") || Contains(d, "policy") then Some("Political") else FirstMatch(d, 1));
  }

  /** The first rule whose keyword occurs decides the heading, whatever later rules match. */
  lemma FirstKeywordWins(risk: Risk, k: nat)
    requires k < |Rules|
    requires Mentions(Lower(risk.description), Rules[k])
    requires forall j :: 0 <= j < k ==> !Mentions(Lower(risk.description), Rules[j])
    ensures CategorizeRiskPestel(risk) == Rules[k].0
  {
    var text := Lower(risk.description);
    CategorizeIsFirstMatch(risk);
    var m := FirstMatch(text, 0);
    var k' :| 0 <= k' < |Rules| && m.value == Rules[k'].0 &&
      Mentions(text, Rules[k']) && forall i :: 0 <= i < k' ==> !Mentions(text, Rules[i]);
    assert k' == k;
  }

  /** A description mentioning none of the twelve keywords is Environmental. */
  lemma NoKeywordIsEnvironmental(risk: Risk)
    requires forall k :: 0 <= k < |Rules| ==> !Mentions(Lower(risk.description), Rules[k])
    ensures CategorizeRiskPestel(risk) == "Environmental"
  {
    CategorizeIsFirstMatch(risk);
  }

  /** Only the lower-cased description matters: upper-case letters never change the heading. */
  lemma CategorizeIgnoresCase(risk: Risk)
    ensures CategorizeRiskPestel(risk) == CategorizeRiskPestel(risk.(description := Lower(risk.description)))
  {
    LowerIdempotent(risk.description);
  }

  /** "New environmental regulations" is Political although it also mentions "environmental". */
  lemma RegulationsBeforeEnvironmental(risk: Risk)
    requires risk.description == "New environmental regulations"
    ensures CategorizeRiskPestel(risk) == "Political"
  {
    var d := Lower(risk.description);
    assert d[18..28] == "regulation";
    assert MatchAt(d, "regulation", 18);
  }

  // ---------------------------------------------------------------------
  // perform_pestel_analysis and enrich_pestel_with_external_data

  /** A list entry: a risk summary, or an external factor with its value and unit suffix. */
  datatype PestelEntry =
    | RiskEntry(riskId: int, description: string, impact: real)
    | FactorEntry(factor: string, value: real, unit: string)

  function RiskEntryOf(risk: Risk): (e: PestelEntry)
    ensures e.RiskEntry? && e.riskId == risk.id && e.description == risk.description && e.impact == risk.impact
  {
    RiskEntry(risk.id, risk.description, risk.impact)
  }

  /** The entries of the risks filed under one heading, in list order. */
  function Labelled(risks: seq<Risk>, classify: Risk -> string, heading: string): (r: seq<PestelEntry>)
    ensures |r| <= |risks|
  {
    if risks == [] then []
    else
      var n := |risks| - 1;
      Labelled(risks[..n], classify, heading) + (if classify(risks[n]) == heading then [RiskEntryOf(risks[n])] else [])
  }

  /** The label lists after the loop over the risks: six keys, each with its own risks. */
  function Categorized(risks: seq<Risk>, classify: Risk -> string): (m: map<string, seq<PestelEntry>>)
    ensures m.Keys == PestelLabels
  {
    map l | l in PestelLabels :: Labelled(risks, classify, l)
  }

  /** Appending one risk extends exactly the list of its own heading. */
  lemma CategorizedSnoc(risks: seq<Risk>, risk: Risk, classify: Risk -> string)
    requires classify(risk) in PestelLabels
    ensures var m := Categorized(risks, classify); var l := classify(risk);
      Categorized(risks + [risk], classify) == m[l := m[l] + [RiskEntryOf(risk)]]
  {
    var s := risks + [risk];
    assert s[..|s| - 1] == risks;
    var m := Categorized(risks, classify);
    var l := classify(risk);
    forall h | h in PestelLabels
      ensures Categorized(s, classify)[h] == m[l := m[l] + [RiskEntryOf(risk)]][h]
    {
      assert Labelled(s, classify, h) == Labelled(risks, classify, h) + (if l == h then [RiskEntryOf(risk)] else []);
    }
  }

  /** The three factors taken from one year's indicators. */
  function GdpFactor(d: ExternalData): PestelEntry { FactorEntry("GDP Growth", d.gdpGrowth, "%") }
  function PopulationFactor(d: ExternalData): PestelEntry { FactorEntry("Population", d.population as real, "") }
  function EnergyFactor(d: ExternalData): PestelEntry { FactorEntry("Energy Demand", d.energyDemand, " TWh") }

  /** The label lists after enrichment with one year's indicators. */
  function Enriched(m: map<string, seq<PestelEntry>>, d: ExternalData): (r: map<string, seq<PestelEntry>>)
    requires m.Keys == PestelLabels
    ensures r.Keys == PestelLabels
  {
    m["Economic" := m["Economic"] + [GdpFactor(d)]]
     ["Social" := m["Social"] + [PopulationFactor(d)]]
     ["Environmental" := m["Environmental"] + [EnergyFactor(d)]]
  }

  /** perform_pestel_analysis as a value: the enriched lists, or the error of an empty indicator table. */
  function PestelAnalysis(risks: seq<Risk>, t: IndicatorTable): (r: Result<map<string, seq<PestelEntry>>>)
    ensures r.Failure? <==> |t| == 0
  {
    match LastInserted(t)
    case Failure(e) => Failure(e)
    case Success(d) => Success(Enriched(Categorized(risks, CategorizeRiskPestel), d))
  }

  /** The dict of label lists that the analysis builds and the enrichment updates in place. */
  class PestelCategories {
    var entries: map<string, seq<PestelEntry>>

    /** The six PESTEL labels are the keys. */
    ghost predicate Valid()
      reads this
    {
      entries.Keys == PestelLabels
    }

    /** The literal dict with six empty lists. */
    constructor ()
      ensures Valid()
      ensures forall l :: l in entries ==> entries[l] == []
    {
      entries := map["Political" := [], "Economic" := [], "Social" := [],
                     "Technological" := [], "Environmental" := [], "Legal" := []];
    }
  }

  /**
   * enrich_pestel_with_external_data: the last-inserted indicators add one
   * factor each to Economic, Social and Environmental; with no indicators
   * the lookup fails and the lists are untouched.
   */
  method EnrichPestelWithExternalData(categories: PestelCategories, t: IndicatorTable) returns (r: Result<()>)
    requires categories.Valid()
    modifies categories
    ensures categories.Valid()
    ensures r.Failure? <==> |t| == 0
    ensures r.Failure? ==> r.error == EmptyIndicatorTable && categories.entries == old(categories.entries)
    ensures r.Success? ==> categories.entries == Enriched(old(categories.entries), t[|t| - 1].1)
  {
    if |t| == 0 {
      return Failure(EmptyIndicatorTable);
    }
    var latest := t[|t| - 1].1;
    categories.entries := categories.entries["Economic" := categories.entries["Economic"] + [GdpFactor(latest)]];
    categories.entries := categories.entries["Social" := categories.entries["Social"] + [PopulationFactor(latest)]];
    categories.entries := categories.entries["Environmental" := categories.entries["Environmental"] + [EnergyFactor(latest)]];
    r := Success(());
  }

  /** perform_pestel_analysis: file every risk under its heading, then enrich. */
  method PerformPestelAnalysis(risks: seq<Risk>, t: IndicatorTable) returns (r: Result<PestelCategories>)
    ensures r.Failure? <==> |t| == 0
    ensures r.Failure? ==> r == Failure(EmptyIndicatorTable)
    ensures r.Success? ==> fresh(r.value) && r.value.Valid() && Success(r.value.entries) == PestelAnalysis(risks, t)
  {
    var categories := new PestelCategories();
    for i := 0 to |risks|
      invariant categories.entries == Categorized(risks[..i], CategorizeRiskPestel)
    {
      var risk := risks[i];
      var heading := CategorizeRiskPestel(risk);
      CategorizedSnoc(risks[..i], risk, CategorizeRiskPestel);
      PrefixSnoc(risks, i);
      categories.entries := categories.entries[heading := categories.entries[heading] + [RiskEntryOf(risk)]];
    }
    assert risks[..|risks|] == risks;
    var enriched := EnrichPestelWithExternalData(categories, t);
    if enriched.Failure? {
      return Failure(enriched.error);
    }
    r := Success(categories);
  }

  // ---------------------------------------------------------------------
  // Properties of the analysis

  /** A risk entry is filed under a heading exactly when one of the risks has that heading. */
  lemma {:induction false} LabelledMembers(risks: seq<Risk>, classify: Risk -> string, heading: string, e: PestelEntry)
    ensures e in Labelled(risks, classify, heading) <==>
      exists i :: 0 <= i < |risks| && e == RiskEntryOf(risks[i]) && classify(risks[i]) == heading
  {
    if risks != [] {
      var n := |risks| - 1;
      LabelledMembers(risks[..n], classify, heading, e);
      assert forall i :: 0 <= i < n ==> risks[..n][i] == risks[i];
    }
  }

  /** The number of entries under the six labels together. */
  function TotalEntries(m: map<string, seq<PestelEntry>>): (n: nat)
    requires m.Keys == PestelLabels
  {
    |m["Political"]| + |m["Economic"]| + |m["Social"]| +
    |m["Technological"]| + |m["Environmental"]| + |m["Legal"]|
  }

  /** Appending to one list adds one entry to the total. */
  lemma TotalEntriesAppend(m: map<string, seq<PestelEntry>>, l: string, e: PestelEntry)
    requires m.Keys == PestelLabels && l in PestelLabels
    ensures TotalEntries(m[l := m[l] + [e]]) == TotalEntries(m) + 1
  {
  }

  /** Each risk lands in exactly one list: the lists hold |risks| entries together. */
  lemma {:induction false} CategorizedCount(risks: seq<Risk>, classify: Risk -> string)
    requires forall i :: 0 <= i < |risks| ==> classify(risks[i]) in PestelLabels
    ensures TotalEntries(Categorized(risks, classify)) == |risks|
  {
    if risks != [] {
      var n := |risks| - 1;
      assert forall i :: 0 <= i < n ==> risks[..n][i] == risks[i];
      CategorizedCount(risks[..n], classify);
      CategorizedSnoc(risks[..n], risks[n], classify);
      assert risks[..n] + [risks[n]] == risks;
      var m := Categorized(risks[..n], classify);
      TotalEntriesAppend(m, classify(risks[n]), RiskEntryOf(risks[n]));
    }
  }

  /**
   * The analysis: exactly the six labels; each risk's entry under its own
   * heading; enrichment adds exactly three factors, each under its own heading
   * and taken from the last-inserted indicators.
   */
  lemma PestelAnalysisContents(risks: seq<Risk>, t: IndicatorTable)
    requires |t| > 0
    ensures var r := PestelAnalysis(risks, t);
      && r.Success?
      && r.value.Keys == PestelLabels
      && TotalEntries(r.value) == |risks| + 3
      && (forall i :: 0 <= i < |risks| ==> RiskEntryOf(risks[i]) in r.value[CategorizeRiskPestel(risks[i])])
      && r.value["Economic"][|r.value["Economic"]| - 1] == GdpFactor(t[|t| - 1].1)
      && r.value["Social"][|r.value["Social"]| - 1] == PopulationFactor(t[|t| - 1].1)
      && r.value["Environmental"][|r.value["Environmental"]| - 1] == EnergyFactor(t[|t| - 1].1)
      && (forall l :: l in {"Political", "Technological", "Legal"} ==> r.value[l] == Labelled(risks, CategorizeRiskPestel, l))
  {
    var m := Categorized(risks, CategorizeRiskPestel);
    CategorizedCount(risks, CategorizeRiskPestel);
    forall i | 0 <= i < |risks|
      ensures RiskEntryOf(risks[i]) in m[CategorizeRiskPestel(risks[i])]
    {
      LabelledMembers(risks, CategorizeRiskPestel, CategorizeRiskPestel(risks[i]), RiskEntryOf(risks[i]));
    }
    var r := Enriched(m, t[|t| - 1].1);
    forall i | 0 <= i < |risks|
      ensures RiskEntryOf(risks[i]) in r[CategorizeRiskPestel(risks[i])]
    {
      var l := CategorizeRiskPestel(risks[i]);
      assert m[l] <= r[l];
    }
  }
}
