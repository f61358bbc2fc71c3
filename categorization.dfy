/**
 * src/risk_analysis/categorization.py: grouping risks by category, by category
 * and subcategory, and by priority band. Each dict of lists is built by
 * appending risks in input order, so every list is the input filtered by its key.
 */
module Categorization {
  import opened Common
  import opened Models

  // ---------------------------------------------------------------------
  // Grouping by a key

  function CategoryOf(r: Risk): string { r.category }
  function SubcategoryOf(r: Risk): string { r.subcategory }
  function CategoryPairOf(r: Risk): (string, string) { (r.category, r.subcategory) }

  /** The risks whose key is k, in input order. */
  function Having<K(==)>(s: seq<Risk>, key: Risk -> K, k: K): (r: seq<Risk>)
    ensures |r| <= |s|
  {
    if s == [] then []
    else Having(s[..|s| - 1], key, k) + (if key(s[|s| - 1]) == k then [s[|s| - 1]] else [])
  }

  /** A risk is in the list of k exactly when it is in the input and its key is k. */
  lemma {:induction false} HavingMembers<K>(s: seq<Risk>, key: Risk -> K, k: K)
    ensures forall x :: x in Having(s, key, k) <==> x in s && key(x) == k
  {
    if s != [] {
      var init := s[..|s| - 1];
      HavingMembers(init, key, k);
      assert s == init + [s[|s| - 1]];
    }
  }

  lemma HavingSnoc<K>(s: seq<Risk>, x: Risk, key: Risk -> K, k: K)
    ensures Having(s + [x], key, k) == Having(s, key, k) + (if key(x) == k then [x] else [])
  {
    assert (s + [x])[..|s|] == s;
  }

  /** No risk of s has key k, so its list is empty. */
  lemma HavingNone<K>(s: seq<Risk>, key: Risk -> K, k: K)
    requires forall x :: x in s ==> key(x) != k
    ensures Having(s, key, k) == []
  {
    HavingMembers(s, key, k);
    var r := Having(s, key, k);
    assert forall i :: 0 <= i < |r| ==> r[i] in r;
  }

  /** The keys that occur in s. */
  function KeysOf<K(!new)>(s: seq<Risk>, key: Risk -> K): set<K> {
    set x | x in s :: key(x)
  }

  lemma KeysOfSnoc<K(!new)>(s: seq<Risk>, x: Risk, key: Risk -> K)
    ensures KeysOf(s + [x], key) == KeysOf(s, key) + {key(x)}
  {
    assert forall y :: y in s + [x] <==> y in s || y == x;
  }

  /**
   * A dict built by creating the list of key(risk) on first sight and
   * appending the risk to it, for each risk in turn.
   */
  function Group<K(==,!new)>(s: seq<Risk>, key: Risk -> K): (m: map<K, seq<Risk>>)
    ensures m.Keys == KeysOf(s, key)
  {
    map k | k in KeysOf(s, key) :: Having(s, key, k)
  }

  /** Appending one risk appends it to the list of its key, which is created if needed. */
  lemma GroupSnoc<K(!new)>(s: seq<Risk>, x: Risk, key: Risk -> K)
    ensures var g := Group(s, key);
      Group(s + [x], key) == g[key(x) := (if key(x) in g then g[key(x)] else []) + [x]]
  {
    var g := Group(s, key);
    var g' := Group(s + [x], key);
    var expected := g[key(x) := (if key(x) in g then g[key(x)] else []) + [x]];
    KeysOfSnoc(s, x, key);
    forall k | k in g'
      ensures g'[k] == expected[k]
    {
      HavingSnoc(s, x, key, k);
      if k == key(x) && k !in g {
        HavingNone(s, key, k);
      }
    }
  }

  /** Every list of a grouping is non-empty and holds exactly the risks of its key. */
  lemma GroupEntries<K(!new)>(s: seq<Risk>, key: Risk -> K)
    ensures var g := Group(s, key);
      forall k :: k in g ==> g[k] != [] && forall x :: x in g[k] <==> x in s && key(x) == k
  {
    var g := Group(s, key);
    forall k | k in g
      ensures g[k] != [] && forall x :: x in g[k] <==> x in s && key(x) == k
    {
      HavingMembers(s, key, k);
      var x :| x in s && key(x) == k;
      assert x in g[k];
    }
  }

  /** Every risk of the input, counted once: the union of the lists over the given keys. */
  ghost function Flatten<K>(m: map<K, seq<Risk>>, keys: set<K>): multiset<Risk>
    requires keys <= m.Keys
  {
    if keys == {} then multiset{}
    else
      var k :| k in keys;
      multiset(m[k]) + Flatten(m, keys - {k})
  }

  /** Any key may be taken out first. */
  lemma {:induction false} FlattenRemove<K>(m: map<K, seq<Risk>>, keys: set<K>, k: K)
    requires keys <= m.Keys && k in keys
    ensures Flatten(m, keys) == multiset(m[k]) + Flatten(m, keys - {k})
    decreases |keys|
  {
    var j :| j in keys && Flatten(m, keys) == multiset(m[j]) + Flatten(m, keys - {j});
    if j != k {
      FlattenRemove(m, keys - {j}, k);
      FlattenRemove(m, keys - {k}, j);
      assert keys - {j} - {k} == keys - {k} - {j};
    }
  }

  /** Entries outside the keys do not matter. */
  lemma {:induction false} FlattenFrame<K>(m1: map<K, seq<Risk>>, m2: map<K, seq<Risk>>, keys: set<K>)
    requires keys <= m1.Keys && keys <= m2.Keys
    requires forall k :: k in keys ==> m1[k] == m2[k]
    ensures Flatten(m1, keys) == Flatten(m2, keys)
    decreases |keys|
  {
    if keys != {} {
      var k :| k in keys && Flatten(m1, keys) == multiset(m1[k]) + Flatten(m1, keys - {k});
      FlattenRemove(m2, keys, k);
      FlattenFrame(m1, m2, keys - {k});
    }
  }

  /** The lists of a grouping hold every risk of the input exactly once. */
  lemma {:induction false} GroupPartition<K(!new)>(s: seq<Risk>, key: Risk -> K)
    ensures Flatten(Group(s, key), Group(s, key).Keys) == multiset(s)
  {
    if s != [] {
      var init, x := s[..|s| - 1], s[|s| - 1];
      assert s == init + [x];
      GroupPartition(init, key);
      GroupSnoc(init, x, key);
      FlattenAppend(Group(init, key), key(x), x);
    }
  }

  /** Appending a risk to one list (created if needed) adds that risk once to the union. */
  lemma FlattenAppend<K>(g: map<K, seq<Risk>>, k: K, x: Risk)
    ensures var g' := g[k := (if k in g then g[k] else []) + [x]];
      Flatten(g', g'.Keys) == Flatten(g, g.Keys) + multiset{x}
  {
    var g' := g[k := (if k in g then g[k] else []) + [x]];
    FlattenRemove(g', g'.Keys, k);
    FlattenFrame(g, g', g.Keys - {k});
    if k in g {
      FlattenRemove(g, g.Keys, k);
    } else {
      assert g.Keys - {k} == g.Keys;
    }
    assert g'.Keys - {k} == g.Keys - {k};
  }

  // ---------------------------------------------------------------------
  // categorize_risks

  method CategorizeRisks(risks: seq<Risk>) returns (categories: map<string, seq<Risk>>)
    ensures categories == Group(risks, CategoryOf)
  {
    categories := map[];
    for i := 0 to |risks|
      invariant categories == Group(risks[..i], CategoryOf)
    {
      var risk := risks[i];
      if risk.category !in categories {
        categories := categories[risk.category := []];
      }
      categories := categories[risk.category := categories[risk.category] + [risk]];
      GroupSnoc(risks[..i], risk, CategoryOf);
      PrefixSnoc(risks, i);
    }
    assert risks[..|risks|] == risks;
  }

  /**
   * categorize_risks: the keys are exactly the categories present, every list
   * is non-empty and holds, in input order, exactly the risks of its category,
   * and together the lists hold every risk once.
   */
  lemma CategorizeRisksPartition(risks: seq<Risk>)
    ensures var m := Group(risks, CategoryOf);
      && (forall c :: c in m <==> exists x :: x in risks && x.category == c)
      && (forall c :: c in m ==> m[c] != [] && forall x :: x in m[c] <==> x in risks && x.category == c)
      && Flatten(m, m.Keys) == multiset(risks)
      && |Flatten(m, m.Keys)| == |risks|
  {
    GroupPartition(risks, CategoryOf);
    GroupEntries(risks, CategoryOf);
  }

  // ---------------------------------------------------------------------
  // categorize_risks_multi_level

  /** categories[category][subcategory]: the risks of each category grouped by subcategory. */
  function MultiLevel(s: seq<Risk>): (m: map<string, map<string, seq<Risk>>>)
    ensures m.Keys == KeysOf(s, CategoryOf)
  {
    map c | c in KeysOf(s, CategoryOf) :: SubcategoryGroups(s, c)
  }

  /** categories[c]: the risks of category c grouped by subcategory. */
  function SubcategoryGroups(s: seq<Risk>, c: string): map<string, seq<Risk>> {
    Group(Having(s, CategoryOf, c), SubcategoryOf)
  }

  /** Grouping a category's risks by subcategory selects the risks of that (category, subcategory) pair. */
  lemma {:induction false} HavingPair(s: seq<Risk>, c: string, sc: string)
    ensures Having(Having(s, CategoryOf, c), SubcategoryOf, sc) == Having(s, CategoryPairOf, (c, sc))
  {
    if s != [] {
      var init, x := s[..|s| - 1], s[|s| - 1];
      assert s == init + [x];
      HavingPair(init, c, sc);
      HavingSnoc(init, x, CategoryOf, c);
      HavingSnoc(init, x, CategoryPairOf, (c, sc));
      var inCategory := Having(init, CategoryOf, c);
      if x.category == c {
        HavingSnoc(inCategory, x, SubcategoryOf, sc);
        assert Having(s, CategoryOf, c) == inCategory + [x];
      } else {
        assert Having(s, CategoryOf, c) == inCategory;
      }
    }
  }

  /**
   * categorize_risks_multi_level: categories[c][sc] holds, in input order,
   * exactly the risks of category c and subcategory sc, and the keys are
   * exactly the pairs that occur.
   */
  lemma MultiLevelEntries(s: seq<Risk>)
    ensures var m := MultiLevel(s);
      forall c, sc :: c in m && sc in m[c] ==> m[c][sc] == Having(s, CategoryPairOf, (c, sc)) && m[c][sc] != []
    ensures var m := MultiLevel(s);
      forall x :: x in s ==> x.category in m && x.subcategory in m[x.category]
  {
    var m := MultiLevel(s);
    forall c, sc | c in m && sc in m[c]
      ensures m[c][sc] == Having(s, CategoryPairOf, (c, sc)) && m[c][sc] != []
    {
      GroupEntries(Having(s, CategoryOf, c), SubcategoryOf);
      HavingPair(s, c, sc);
    }
    forall x | x in s
      ensures x.category in m && x.subcategory in m[x.category]
    {
      HavingMembers(s, CategoryOf, x.category);
      assert x in Having(s, CategoryOf, x.category);
    }
  }

  /** The loop body of categorize_risks_multi_level for one risk. */
  function AddToMultiLevel(m: map<string, map<string, seq<Risk>>>, x: Risk): map<string, map<string, seq<Risk>>> {
    var inner := if x.category in m then m[x.category] else map[];
    var list := if x.subcategory in inner then inner[x.subcategory] else [];
    m[x.category := inner[x.subcategory := list + [x]]]
  }

  lemma MultiLevelSnoc(s: seq<Risk>, x: Risk)
    ensures MultiLevel(s + [x]) == AddToMultiLevel(MultiLevel(s), x)
  {
    var m, m' := MultiLevel(s), MultiLevel(s + [x]);
    var c := x.category;
    var expected := AddToMultiLevel(m, x);
    KeysOfSnoc(s, x, CategoryOf);
    assert m'.Keys == KeysOf(s, CategoryOf) + {c} == expected.Keys;
    forall d | d in m' && d != c
      ensures m'[d] == expected[d]
    {
      HavingSnoc(s, x, CategoryOf, d);
      assert Having(s + [x], CategoryOf, d) == Having(s, CategoryOf, d);
      assert m'[d] == SubcategoryGroups(s + [x], d) == SubcategoryGroups(s, d) == m[d];
    }
    MultiLevelSnocOwnCategory(s, x);
  }

  /** The appended risk's own category gains it in its subcategory's list. */
  lemma MultiLevelSnocOwnCategory(s: seq<Risk>, x: Risk)
    ensures x.category in KeysOf(s + [x], CategoryOf)
    ensures MultiLevel(s + [x])[x.category] == AddToMultiLevel(MultiLevel(s), x)[x.category]
  {
    var m := MultiLevel(s);
    var c := x.category;
    KeysOfSnoc(s, x, CategoryOf);
    HavingSnoc(s, x, CategoryOf, c);
    var own := Having(s, CategoryOf, c);
    GroupSnoc(own, x, SubcategoryOf);
    if c !in m {
      HavingNone(s, CategoryOf, c);
      assert Group(own, SubcategoryOf) == map[];
    }
  }

  /** The dict after the loop has run over s. */
  function MultiLevelAfter(s: seq<Risk>): map<string, map<string, seq<Risk>>> {
    if s == [] then map[] else AddToMultiLevel(MultiLevelAfter(s[..|s| - 1]), s[|s| - 1])
  }

  lemma {:induction false} MultiLevelAfterIsGrouping(s: seq<Risk>)
    ensures MultiLevelAfter(s) == MultiLevel(s)
  {
    if s != [] {
      var init, x := s[..|s| - 1], s[|s| - 1];
      MultiLevelAfterIsGrouping(init);
      MultiLevelSnoc(init, x);
      assert s == init + [x];
    } else {
      assert MultiLevel(s).Keys == {};
    }
  }

  method CategorizeRisksMultiLevel(risks: seq<Risk>) returns (categories: map<string, map<string, seq<Risk>>>)
    ensures categories == MultiLevel(risks)
  {
    categories := map[];
    for i := 0 to |risks|
      invariant categories == MultiLevelAfter(risks[..i])
    {
      var risk := risks[i];
      ghost var before := categories;
      ghost var innerBefore := if risk.category in before then before[risk.category] else map[];
      if risk.category !in categories {
        categories := categories[risk.category := map[]];
      }
      var inner := categories[risk.category];
      assert inner == innerBefore;
      if risk.subcategory !in inner {
        inner := inner[risk.subcategory := []];
      }
      ghost var list := if risk.subcategory in innerBefore then innerBefore[risk.subcategory] else [];
      assert inner[risk.subcategory] == list;
      assert inner[risk.subcategory := list + [risk]] == innerBefore[risk.subcategory := list + [risk]];
      categories := categories[risk.category := inner[risk.subcategory := inner[risk.subcategory] + [risk]]];
      assert categories == AddToMultiLevel(before, risk);
      PrefixSnoc(risks, i);
      assert risks[..i + 1][..i] == risks[..i];
    }
    assert risks[..|risks|] == risks;
    MultiLevelAfterIsGrouping(risks);
  }

  // ---------------------------------------------------------------------
  // assign_risk_priority and prioritize_risks

  /** assign_risk_priority: both scores strictly above 0.7 is High, both strictly above 0.3 is Medium, otherwise Low. */
  function AssignRiskPriority(risk: Risk): (p: string)
    ensures p == "High" <==> risk.impact > 0.7 && risk.likelihood > 0.7
    ensures p == "Medium" <==> !(risk.impact > 0.7 && risk.likelihood > 0.7) && risk.impact > 0.3 && risk.likelihood > 0.3
    ensures p == "Low" <==> !(risk.impact > 0.3 && risk.likelihood > 0.3)
  {
    if risk.impact > 0.7 && risk.likelihood > 0.7 then "High"
    else if risk.impact > 0.3 && risk.likelihood > 0.3 then "Medium"
    else "Low"
  }

  /** High ranks 2, Medium 1, Low 0. */
  function Rank(p: string): nat {
    if p == "High" then 2 else if p == "Medium" then 1 else 0
  }

  /** Raising a risk's impact and likelihood never lowers its priority. */
  lemma PriorityMonotone(r1: Risk, r2: Risk)
    requires r1.impact <= r2.impact && r1.likelihood <= r2.likelihood
    ensures Rank(AssignRiskPriority(r1)) <= Rank(AssignRiskPriority(r2))
  {
  }

  const Priorities: set<string> := {"High", "Medium", "Low"}

  /** The three bands, each the risks of that priority in input order. */
  function Prioritized(s: seq<Risk>): (m: map<string, seq<Risk>>)
    ensures m.Keys == Priorities
  {
    map p | p in Priorities :: Having(s, AssignRiskPriority, p)
  }

  lemma PrioritizedSnoc(s: seq<Risk>, x: Risk)
    ensures var p := AssignRiskPriority(x);
      Prioritized(s + [x]) == Prioritized(s)[p := Prioritized(s)[p] + [x]]
  {
    var m, m' := Prioritized(s), Prioritized(s + [x]);
    var p := AssignRiskPriority(x);
    forall q | q in Priorities
      ensures m'[q] == m[p := m[p] + [x]][q]
    {
      HavingSnoc(s, x, AssignRiskPriority, q);
    }
  }

  method PrioritizeRisks(risks: seq<Risk>) returns (priorities: map<string, seq<Risk>>)
    ensures priorities == Prioritized(risks)
  {
    priorities := map["High" := [], "Medium" := [], "Low" := []];
    assert priorities == Prioritized([]);
    for i := 0 to |risks|
      invariant priorities == Prioritized(risks[..i])
    {
      var priority := AssignRiskPriority(risks[i]);
      priorities := priorities[priority := priorities[priority] + [risks[i]]];
      PrioritizedSnoc(risks[..i], risks[i]);
      PrefixSnoc(risks, i);
    }
    assert risks[..|risks|] == risks;
  }

  /**
   * prioritize_risks: the three bands always exist, each holds exactly the
   * risks of its priority, and together they hold every risk once.
   */
  lemma PrioritizePartition(risks: seq<Risk>)
    ensures var m := Prioritized(risks);
      forall p, x :: p in m ==> (x in m[p] <==> x in risks && AssignRiskPriority(x) == p)
    ensures var m := Prioritized(risks);
      multiset(m["High"]) + multiset(m["Medium"]) + multiset(m["Low"]) == multiset(risks)
  {
    forall p | p in Priorities
      ensures forall x :: x in Having(risks, AssignRiskPriority, p) <==> x in risks && AssignRiskPriority(x) == p
    {
      HavingMembers(risks, AssignRiskPriority, p);
    }
    assert "High" != "Medium" && "Medium" != "Low" && "High" != "Low";
    HavingPartition(risks, AssignRiskPriority, "High", "Medium", "Low");
  }

  /** A key with only three distinct values splits the input into three lists that hold every risk once. */
  lemma {:induction false} HavingPartition<K>(s: seq<Risk>, key: Risk -> K, a: K, b: K, c: K)
    requires a != b && b != c && a != c
    requires forall x :: key(x) == a || key(x) == b || key(x) == c
    ensures multiset(Having(s, key, a)) + multiset(Having(s, key, b)) + multiset(Having(s, key, c)) == multiset(s)
  {
    if s != [] {
      var init, x := s[..|s| - 1], s[|s| - 1];
      assert s == init + [x];
      HavingPartition(init, key, a, b, c);
      HavingSnoc(init, x, key, a);
      HavingSnoc(init, x, key, b);
      HavingSnoc(init, x, key, c);
    }
  }
}
