/**
 * src/risk_analysis/sasb_integration.py: the material issues of an industry
 * and the risks whose descriptions mention each issue, matched as
 * case-insensitive substrings.
 */
module Sasb {
  import opened Common
  import opened Text
  import opened Models

  /** The material issues listed for the Energy industry, in order. */
  const EnergyIssues: seq<string> := [
    "GHG Emissions",
    "Air Quality",
    "Water Management",
    "Waste Management",
    "Ecological Impacts",
    "Employee Health & Safety",
    "Business Ethics & Transparency"]

  /** No issue is listed twice (the issues become dict keys). */
  ghost predicate Distinct(cs: seq<string>) {
    forall i, j :: 0 <= i < j < |cs| ==> cs[i] != cs[j]
  }

  /** sasb_categories.get(industry, []): only Energy has a list. */
  function SasbCategories(industry: string): (cs: seq<string>)
    ensures Distinct(cs)
    ensures industry != "Energy" ==> cs == []
    ensures industry == "Energy" ==> |cs| == 7
  {
    if industry == "Energy" then EnergyIssues else []
  }

  /** category.lower() in risk.description.lower() */
  predicate Matches(risk: Risk, category: string) {
    Contains(Lower(risk.description), Lower(category))
  }

  /**
   * The risks that match the category, in input order. The spec functions and
   * lemmas below take the test as a parameter; the module instantiates it
   * with Matches.
   */
  function Material(risks: seq<Risk>, category: string, matches: (Risk, string) -> bool): (r: seq<Risk>)
    ensures |r| <= |risks|
  {
    if risks == [] then []
    else
      var n := |risks| - 1;
      Material(risks[..n], category, matches) + (if matches(risks[n], category) then [risks[n]] else [])
  }

  /** One list per category: the risks that mention it. */
  function MaterialRisksOf(risks: seq<Risk>, cats: seq<string>, matches: (Risk, string) -> bool): (m: map<string, seq<Risk>>)
    ensures m.Keys == set c | c in cats
  {
    map c | c in cats :: Material(risks, c, matches)
  }

  /** integrate_sasb_materiality as a value: one list per issue of the industry. */
  function MaterialRisks(risks: seq<Risk>, industry: string): (m: map<string, seq<Risk>>)
    ensures m.Keys == set c | c in SasbCategories(industry)
    ensures industry != "Energy" ==> m == map[]
  {
    MaterialRisksOf(risks, SasbCategories(industry), Matches)
  }

  /** One pass of the inner loop: the risk is appended to every listed category it mentions. */
  function AddToMatching(m: map<string, seq<Risk>>, risk: Risk, cats: seq<string>, matches: (Risk, string) -> bool): (r: map<string, seq<Risk>>)
    requires forall c :: c in cats ==> c in m
    ensures r.Keys == m.Keys
  {
    if cats == [] then m
    else
      var n := |cats| - 1;
      assert forall c :: c in cats[..n] ==> c in cats;
      var before := AddToMatching(m, risk, cats[..n], matches);
      if matches(risk, cats[n]) then before[cats[n] := before[cats[n]] + [risk]] else before
  }

  /** One more step of the inner loop. */
  lemma AddToMatchingSnoc(m: map<string, seq<Risk>>, risk: Risk, cats: seq<string>, j: nat, matches: (Risk, string) -> bool)
    requires j < |cats|
    requires forall c :: c in cats ==> c in m
    ensures forall c :: c in cats[..j] ==> c in m
    ensures cats[j] in AddToMatching(m, risk, cats[..j], matches)
    ensures var before := AddToMatching(m, risk, cats[..j], matches);
      AddToMatching(m, risk, cats[..j + 1], matches) ==
        if matches(risk, cats[j]) then before[cats[j] := before[cats[j]] + [risk]] else before
  {
    assert forall c :: c in cats[..j] ==> c in cats;
    PrefixSnoc(cats, j);
    assert cats[..j + 1][..j] == cats[..j];
  }

  /** With distinct categories, each list gets the risk once if it is listed and mentioned. */
  lemma {:induction false} AddToMatchingEntries(m: map<string, seq<Risk>>, risk: Risk, cats: seq<string>, matches: (Risk, string) -> bool)
    requires forall c :: c in cats ==> c in m
    requires Distinct(cats)
    ensures var r := AddToMatching(m, risk, cats, matches);
      forall c :: c in m ==> r[c] == m[c] + (if c in cats && matches(risk, c) then [risk] else [])
  {
    if cats != [] {
      var n := |cats| - 1;
      assert forall c :: c in cats[..n] ==> c in cats;
      AddToMatchingEntries(m, risk, cats[..n], matches);
      assert cats == cats[..n] + [cats[n]];
      assert cats[n] !in cats[..n];
    }
  }

  /** Adding a risk to the input is one pass of the inner loop. */
  lemma MaterialRisksSnoc(risks: seq<Risk>, risk: Risk, cats: seq<string>, matches: (Risk, string) -> bool)
    requires Distinct(cats)
    ensures MaterialRisksOf(risks + [risk], cats, matches) == AddToMatching(MaterialRisksOf(risks, cats, matches), risk, cats, matches)
  {
    var s := risks + [risk];
    assert s[..|s| - 1] == risks;
    AddToMatchingEntries(MaterialRisksOf(risks, cats, matches), risk, cats, matches);
  }

  /** The inner loop of integrate_sasb_materiality: append the risk to every category it mentions. */
  method AppendToMentioned(m: map<string, seq<Risk>>, risk: Risk, cats: seq<string>) returns (r: map<string, seq<Risk>>)
    requires forall c :: c in cats ==> c in m
    ensures r == AddToMatching(m, risk, cats, Matches)
  {
    r := m;
    for j := 0 to |cats|
      invariant r == AddToMatching(m, risk, cats[..j], Matches)
    {
      var category := cats[j];
      AddToMatchingSnoc(m, risk, cats, j, Matches);
      if Matches(risk, category) {
        r := r[category := r[category] + [risk]];
      }
    }
    assert cats[..|cats|] == cats;
  }

  /** integrate_sasb_materiality: for each risk, for each issue it mentions, append it. */
  method IntegrateSasbMateriality(risks: seq<Risk>, industry: string) returns (materialRisks: map<string, seq<Risk>>)
    ensures materialRisks == MaterialRisks(risks, industry)
  {
    var cats := SasbCategories(industry);
    materialRisks := map c | c in cats :: [];
    for i := 0 to |risks|
      invariant materialRisks == MaterialRisksOf(risks[..i], cats, Matches)
    {
      materialRisks := AppendToMentioned(materialRisks, risks[i], cats);
      MaterialRisksSnoc(risks[..i], risks[i], cats, Matches);
      PrefixSnoc(risks, i);
    }
    assert risks[..|risks|] == risks;
  }

  // ---------------------------------------------------------------------
  // Properties

  /**
   * The positions of the risks that mention the category, ascending; the
   * category's list is exactly the risks at those positions, so input order
   * is kept and nothing else is listed.
   */
  function MaterialIndices(risks: seq<Risk>, category: string, matches: (Risk, string) -> bool): (idx: seq<nat>)
    ensures forall i: nat :: i in idx <==> i < |risks| && matches(risks[i], category)
    ensures forall a, b :: 0 <= a < b < |idx| ==> idx[a] < idx[b]
    ensures forall k :: 0 <= k < |idx| ==> idx[k] < |risks|
  {
    if risks == [] then []
    else
      var n := |risks| - 1;
      var init := MaterialIndices(risks[..n], category, matches);
      assert forall i :: 0 <= i < n ==> risks[..n][i] == risks[i];
      forall a | 0 <= a < |init|
        ensures init[a] < n
      {
        assert init[a] in init;
      }
      init + (if matches(risks[n], category) then [n] else [])
  }

  /** The category's list is the risks at the matching positions, in that order. */
  lemma {:induction false} MaterialAtIndices(risks: seq<Risk>, category: string, matches: (Risk, string) -> bool)
    ensures var idx := MaterialIndices(risks, category, matches);
      |idx| == |Material(risks, category, matches)| &&
      forall k :: 0 <= k < |idx| ==> Material(risks, category, matches)[k] == risks[idx[k]]
  {
    if risks != [] {
      var n := |risks| - 1;
      MaterialAtIndices(risks[..n], category, matches);
      var idx, mat := MaterialIndices(risks, category, matches), Material(risks, category, matches);
      var idx0, mat0 := MaterialIndices(risks[..n], category, matches), Material(risks[..n], category, matches);
      if matches(risks[n], category) {
        assert idx == idx0 + [n] && mat == mat0 + [risks[n]];
      } else {
        assert idx == idx0 && mat == mat0;
      }
      forall k | 0 <= k < |idx0|
        ensures mat[k] == risks[idx[k]]
      {
        assert mat[k] == mat0[k] == risks[..n][idx0[k]];
      }
    }
  }

  /**
   * The result: exactly the industry's issues as keys; a risk is listed under
   * an issue iff its description mentions the issue, in input order.
   */
  lemma MaterialRisksContents(risks: seq<Risk>, industry: string)
    ensures var m := MaterialRisks(risks, industry);
      forall c :: c in m ==>
        && (forall r :: r in m[c] <==> r in risks && Matches(r, c))
        && |m[c]| == |MaterialIndices(risks, c, Matches)|
        && (forall k :: 0 <= k < |m[c]| ==> m[c][k] == risks[MaterialIndices(risks, c, Matches)[k]])
  {
    var m := MaterialRisks(risks, industry);
    forall c | c in m
      ensures forall r :: r in m[c] <==> r in risks && Matches(r, c)
      ensures |m[c]| == |MaterialIndices(risks, c, Matches)|
      ensures forall k :: 0 <= k < |m[c]| ==> m[c][k] == risks[MaterialIndices(risks, c, Matches)[k]]
    {
      var idx := MaterialIndices(risks, c, Matches);
      MaterialAtIndices(risks, c, Matches);
      forall r | r in risks && Matches(r, c)
        ensures r in m[c]
      {
        var i :| 0 <= i < |risks| && risks[i] == r;
        var k :| 0 <= k < |idx| && idx[k] == i;
        assert m[c][k] == r;
      }
    }
  }

  /** A risk that mentions no issue is listed nowhere. */
  lemma NonMaterialListedNowhere(risks: seq<Risk>, industry: string, r: Risk)
    requires forall c :: c in SasbCategories(industry) ==> !Matches(r, c)
    ensures forall c :: c in MaterialRisks(risks, industry) ==> r !in MaterialRisks(risks, industry)[c]
  {
    MaterialRisksContents(risks, industry);
  }

  /** A risk mentioning two issues is listed under both. */
  lemma OneRiskSeveralIssues(risks: seq<Risk>, industry: string, r: Risk, c1: string, c2: string)
    requires r in risks && c1 in SasbCategories(industry) && c2 in SasbCategories(industry)
    requires Matches(r, c1) && Matches(r, c2)
    ensures var m := MaterialRisks(risks, industry);
      c1 in m && c2 in m && r in m[c1] && r in m[c2]
  {
    MaterialRisksContents(risks, industry);
  }

  /**
   * The match is literal: an issue written with "&" (such as "Employee
   * Health & Safety") never matches a description without one (such as
   * "Employee health and safety").
   */
  lemma AndDoesNotMatchAmpersand(risk: Risk, issue: string)
    requires '&' in issue && '&' !in risk.description
    ensures !Matches(risk, issue)
  {
    LowerKeepsNonLetter(issue, '&');
    LowerKeepsNonLetter(risk.description, '&');
    MissingCharNoMatch(Lower(risk.description), Lower(issue), '&');
  }
}
