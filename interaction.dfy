/**
 * src/risk_analysis/interaction_analysis.py: the pairwise interaction matrix
 * and the diffusion of risk levels through it. The language-model call that
 * scores a pair of risks is a function parameter.
 */
module Interaction {
  import opened Reals
  import opened Models

  // ---------------------------------------------------------------------
  // create_risk_interaction_matrix

  /** The score the matrix holds for positions a and b: the scorer's verdict on the pair in list order, 0 on the diagonal. */
  function PairScore(risks: seq<Risk>, scorer: (Risk, Risk) -> RiskInteraction, a: nat, b: nat): real
    requires a < |risks| && b < |risks|
  {
    if a < b then scorer(risks[a], risks[b]).interactionScore
    else if b < a then scorer(risks[b], risks[a]).interactionScore
    else 0.0
  }

  /** Entry (a, b) has been written once the outer loop is at row i and the inner loop at column j. */
  ghost predicate Written(a: int, b: int, i: int, j: int) {
    (a < b && (a < i || (a == i && b < j))) || (b < a && (b < i || (b == i && a < j)))
  }

  /** The scorer calls of row a, for columns from up to (but not including) to. */
  ghost function RowPairs(a: nat, from: nat, to: nat): (r: seq<(nat, nat)>)
    requires from <= to
    ensures |r| == to - from
    ensures forall k :: 0 <= k < |r| ==> r[k] == (a, from + k)
  {
    seq(to - from, k requires 0 <= k < to - from => (a, from + k))
  }

  /** The scorer calls of rows 0 .. i-1 of an n×n matrix, in call order. */
  ghost function Pairs(n: nat, i: nat): seq<(nat, nat)>
    requires i <= n
  {
    if i == 0 then [] else Pairs(n, i - 1) + RowPairs(i - 1, i, n)
  }

  /** Lexicographic order on index pairs. */
  ghost predicate PairBefore(p: (nat, nat), q: (nat, nat)) {
    p.0 < q.0 || (p.0 == q.0 && p.1 < q.1)
  }

  /**
   * The scorer is called exactly once per unordered pair: the calls are the
   * pairs a < b, each in list order, in strictly increasing order (so none
   * repeats).
   */
  lemma {:induction false} PairsExactlyOnce(n: nat, i: nat)
    requires i <= n
    ensures forall a: nat, b: nat :: (a, b) in Pairs(n, i) <==> a < i && a < b < n
    ensures forall x, y :: 0 <= x < y < |Pairs(n, i)| ==> PairBefore(Pairs(n, i)[x], Pairs(n, i)[y])
  {
    if i > 0 {
      PairsExactlyOnce(n, i - 1);
      var p, r := Pairs(n, i - 1), RowPairs(i - 1, i, n);
      assert Pairs(n, i) == p + r;
      forall a: nat, b: nat
        ensures (a, b) in p + r <==> a < i && a < b < n
      {
        if a == i - 1 && a < b < n {
          assert r[b - i] == (a, b);
        }
      }
      forall x, y | 0 <= x < y < |p + r|
        ensures PairBefore((p + r)[x], (p + r)[y])
      {
        if x < |p| && y >= |p| {
          assert p[x] in p;
        }
      }
    }
  }

  /**
   * create_risk_interaction_matrix: an n×n matrix whose entry (a, b) for
   * a < b, and its mirror (b, a), hold the scorer's score for the pair, with
   * a zero diagonal; the ghost trace records the scorer calls in order.
   */
  method CreateRiskInteractionMatrix(risks: seq<Risk>, scorer: (Risk, Risk) -> RiskInteraction)
    returns (matrix: array2<real>, ghost calls: seq<(nat, nat)>)
    ensures fresh(matrix)
    ensures matrix.Length0 == |risks| && matrix.Length1 == |risks|
    ensures forall a, b :: 0 <= a < |risks| && 0 <= b < |risks| ==> matrix[a, b] == PairScore(risks, scorer, a, b)
    ensures forall a, b :: 0 <= a < |risks| && 0 <= b < |risks| ==> matrix[a, b] == matrix[b, a]
    ensures forall a :: 0 <= a < |risks| ==> matrix[a, a] == 0.0
    ensures (forall r1, r2 :: 0.0 <= scorer(r1, r2).interactionScore <= 1.0) ==>
      forall a, b :: 0 <= a < |risks| && 0 <= b < |risks| ==> 0.0 <= matrix[a, b] <= 1.0
    ensures calls == Pairs(|risks|, |risks|)
  {
    var n := |risks|;
    matrix := new real[n, n]((a, b) => 0.0);
    calls := [];
    for i := 0 to n
      invariant forall a, b :: 0 <= a < n && 0 <= b < n ==>
        matrix[a, b] == if Written(a, b, i, i) then PairScore(risks, scorer, a, b) else 0.0
      invariant calls == Pairs(n, i)
    {
      for j := i + 1 to n
        invariant forall a, b :: 0 <= a < n && 0 <= b < n ==>
          matrix[a, b] == if Written(a, b, i, j) then PairScore(risks, scorer, a, b) else 0.0
        invariant calls == Pairs(n, i) + RowPairs(i, i + 1, j)
      {
        var interaction := scorer(risks[i], risks[j]);
        matrix[i, j] := interaction.interactionScore;
        matrix[j, i] := interaction.interactionScore;
        calls := calls + [(i, j)];
      }
    }
  }

  // ---------------------------------------------------------------------
  // The diffusion step: level' = clip(level + 0.1 * (M @ level), 0, 1)

  /** Row i of the matrix times the first k levels. */
  function RowDot(m: array2<real>, i: nat, v: seq<real>, k: nat): real
    reads m
    requires i < m.Length0 && k <= |v| == m.Length1
  {
    if k == 0 then 0.0 else RowDot(m, i, v, k - 1) + m[i, k - 1] * v[k - 1]
  }

  predicate IsSquare(m: array2<real>, n: nat) {
    m.Length0 == n && m.Length1 == n
  }

  /** One synchronous step: every new level is computed from the previous vector alone, and lies in [0, 1]. */
  function Step(m: array2<real>, v: seq<real>): (w: seq<real>)
    reads m
    requires IsSquare(m, |v|)
    ensures |w| == |v|
    ensures AllIn(w, 0.0, 1.0)
  {
    seq(|v|, i reads m requires 0 <= i < |v| => Clamp01(v[i] + 0.1 * RowDot(m, i, v, |v|)))
  }

  /** The levels after t steps from v. */
  function Levels(m: array2<real>, v: seq<real>, t: nat): (w: seq<real>)
    reads m
    requires IsSquare(m, |v|)
    ensures |w| == |v|
    ensures t > 0 ==> AllIn(w, 0.0, 1.0)
  {
    if t == 0 then v else Step(m, Levels(m, v, t - 1))
  }

  /** interaction_matrix @ risk_levels */
  method MatrixTimesVector(m: array2<real>, v: seq<real>) returns (influence: seq<real>)
    requires IsSquare(m, |v|)
    ensures |influence| == |v|
    ensures forall i :: 0 <= i < |v| ==> influence[i] == RowDot(m, i, v, |v|)
  {
    influence := [];
    for i := 0 to |v|
      invariant |influence| == i
      invariant forall a :: 0 <= a < i ==> influence[a] == RowDot(m, a, v, |v|)
    {
      var sum := 0.0;
      for k := 0 to |v|
        invariant sum == RowDot(m, i, v, k)
      {
        sum := sum + m[i, k] * v[k];
      }
      influence := influence + [sum];
    }
  }

  /** risk_levels = np.clip(risk_levels + 0.1 * influence, 0, 1) */
  method StepLevels(m: array2<real>, v: seq<real>) returns (w: seq<real>)
    requires IsSquare(m, |v|)
    ensures w == Step(m, v)
  {
    var influence := MatrixTimesVector(m, v);
    w := seq(|v|, i requires 0 <= i < |v| => Clamp01(v[i] + 0.1 * influence[i]));
  }

  /** The ten-step (or any-step) loop shared by the drivers. */
  method Propagate(m: array2<real>, v: seq<real>, steps: nat) returns (w: seq<real>)
    requires IsSquare(m, |v|)
    ensures w == Levels(m, v, steps)
  {
    w := v;
    for t := 0 to steps
      invariant w == Levels(m, v, t)
    {
      w := StepLevels(m, w);
    }
  }

  // ---------------------------------------------------------------------
  // Properties of the step

  lemma {:induction false} RowDotZero(m: array2<real>, i: nat, v: seq<real>, k: nat)
    requires i < m.Length0 && k <= |v| == m.Length1
    requires forall j :: 0 <= j < k ==> m[i, j] == 0.0
    ensures RowDot(m, i, v, k) == 0.0
  {
    if k > 0 {
      RowDotZero(m, i, v, k - 1);
    }
  }

  lemma {:induction false} RowDotNonNegative(m: array2<real>, i: nat, v: seq<real>, k: nat)
    requires i < m.Length0 && k <= |v| == m.Length1
    requires forall j :: 0 <= j < k ==> m[i, j] >= 0.0 && v[j] >= 0.0
    ensures RowDot(m, i, v, k) >= 0.0
  {
    if k > 0 {
      RowDotNonNegative(m, i, v, k - 1);
      MulNonNegative(m[i, k - 1], v[k - 1]);
    }
  }

  ghost predicate ZeroMatrix(m: array2<real>)
    reads m
  {
    forall i, j :: 0 <= i < m.Length0 && 0 <= j < m.Length1 ==> m[i, j] == 0.0
  }

  ghost predicate NonNegativeMatrix(m: array2<real>)
    reads m
  {
    forall i, j :: 0 <= i < m.Length0 && 0 <= j < m.Length1 ==> m[i, j] >= 0.0
  }

  /** With an all-zero matrix, levels already in [0, 1] never move. */
  lemma {:induction false} ZeroMatrixKeepsLevels(m: array2<real>, v: seq<real>, t: nat)
    requires IsSquare(m, |v|) && ZeroMatrix(m) && AllIn(v, 0.0, 1.0)
    ensures Levels(m, v, t) == v
  {
    if t > 0 {
      ZeroMatrixKeepsLevels(m, v, t - 1);
      forall i | 0 <= i < |v|
        ensures Step(m, v)[i] == v[i]
      {
        RowDotZero(m, i, v, |v|);
      }
    }
  }

  /** With a non-negative matrix, one step never lowers a level in [0, 1]. */
  lemma StepNeverLowers(m: array2<real>, v: seq<real>)
    requires IsSquare(m, |v|) && NonNegativeMatrix(m) && AllIn(v, 0.0, 1.0)
    ensures forall i :: 0 <= i < |v| ==> v[i] <= Step(m, v)[i]
  {
    forall i | 0 <= i < |v|
      ensures v[i] <= Step(m, v)[i]
    {
      RowDotNonNegative(m, i, v, |v|);
    }
  }

  /** With a non-negative matrix and starting levels in [0, 1], no level ever decreases between steps. */
  lemma LevelsNeverDecrease(m: array2<real>, v: seq<real>, t: nat)
    requires IsSquare(m, |v|) && NonNegativeMatrix(m) && AllIn(v, 0.0, 1.0)
    ensures forall i :: 0 <= i < |v| ==> Levels(m, v, t)[i] <= Levels(m, v, t + 1)[i]
  {
    StepNeverLowers(m, Levels(m, v, t));
  }

  // ---------------------------------------------------------------------
  // simulate_risk_interactions

  /** The levels of position i at steps 0 .. t. */
  ghost function Progression(m: array2<real>, v: seq<real>, i: nat, t: nat): (r: seq<real>)
    reads m
    requires IsSquare(m, |v|) && i < |v|
    ensures |r| == t + 1 && r[0] == v[i]
    ensures forall s :: 0 <= s <= t ==> r[s] == Levels(m, v, s)[i]
  {
    seq(t + 1, s reads m requires 0 <= s <= t => Levels(m, v, s)[i])
  }

  lemma ProgressionSnoc(m: array2<real>, v: seq<real>, i: nat, t: nat)
    requires IsSquare(m, |v|) && i < |v|
    ensures Progression(m, v, i, t + 1) == Progression(m, v, i, t) + [Levels(m, v, t + 1)[i]]
  {
  }

  /**
   * Every entry of a progression lies in [0, 1] when the base impacts do:
   * the start is the base impact and every later level is clipped.
   */
  lemma ProgressionInUnitRange(m: array2<real>, v: seq<real>, i: nat, t: nat)
    requires IsSquare(m, |v|) && i < |v| && AllIn(v, 0.0, 1.0)
    ensures AllIn(Progression(m, v, i, t), 0.0, 1.0)
  {
    var r := Progression(m, v, i, t);
    forall s | 0 <= s <= t
      ensures 0.0 <= r[s] <= 1.0
    {
      assert r[s] == Levels(m, v, s)[i];
    }
  }

  /** {risk.id: [risk.impact] for risk in risks}: a later risk with the same id overwrites. */
  function Initial(risks: seq<Risk>): (progression: map<int, seq<real>>)
  {
    if risks == [] then map[]
    else
      var n := |risks| - 1;
      Initial(risks[..n])[risks[n].id := [risks[n].impact]]
  }

  /** One key per id of the list. */
  lemma {:induction false} InitialKeys(risks: seq<Risk>)
    ensures Initial(risks).Keys == Ids(risks)
  {
    if risks != [] {
      var n := |risks| - 1;
      InitialKeys(risks[..n]);
      assert Ids(risks) == Ids(risks[..n]) + {risks[n].id};
      assert Initial(risks).Keys == Initial(risks[..n]).Keys + {risks[n].id};
    }
  }

  /** With distinct ids, each risk's list is its base impact alone. */
  lemma {:induction false} InitialEntries(risks: seq<Risk>)
    requires DistinctIds(risks)
    ensures forall a :: 0 <= a < |risks| ==> risks[a].id in Initial(risks) && Initial(risks)[risks[a].id] == [risks[a].impact]
  {
    if risks != [] {
      var n := |risks| - 1;
      var init := risks[..n];
      assert DistinctIds(init) by {
        assert forall a :: 0 <= a < n ==> init[a] == risks[a];
      }
      InitialEntries(init);
      forall a | 0 <= a < |risks|
        ensures risks[a].id in Initial(risks) && Initial(risks)[risks[a].id] == [risks[a].impact]
      {
        if a < n {
          assert init[a] == risks[a];
          assert risks[a].id != risks[n].id;
        }
      }
    }
  }

  /** The dict comprehension as a loop. */
  method InitialProgression(risks: seq<Risk>) returns (progression: map<int, seq<real>>)
    ensures progression.Keys == Ids(risks)
    ensures DistinctIds(risks) ==> forall a :: 0 <= a < |risks| ==> progression[risks[a].id] == [risks[a].impact]
  {
    progression := map[];
    for i := 0 to |risks|
      invariant progression == Initial(risks[..i])
    {
      assert risks[..i + 1][..i] == risks[..i];
      progression := progression[risks[i].id := [risks[i].impact]];
    }
    assert risks[..|risks|] == risks;
    InitialKeys(risks);
    if DistinctIds(risks) {
      InitialEntries(risks);
    }
  }

  /** Every risk's id is a key. */
  ghost predicate HasAll(progression: map<int, seq<real>>, risks: seq<Risk>) {
    forall a :: 0 <= a < |risks| ==> risks[a].id in progression
  }

  /** The lists after the first k risks of a step have had their new level appended. */
  function Appended(risks: seq<Risk>, progression: map<int, seq<real>>, levels: seq<real>, k: nat): (m: map<int, seq<real>>)
    requires HasAll(progression, risks) && |levels| == |risks| && k <= |risks|
    ensures m.Keys == progression.Keys
  {
    if k == 0 then progression
    else
      var m := Appended(risks, progression, levels, k - 1);
      var id := risks[k - 1].id;
      m[id := m[id] + [levels[k - 1]]]
  }

  /** With distinct ids, the first k lists have one more level and the rest are untouched. */
  lemma {:induction false} AppendedEntries(risks: seq<Risk>, progression: map<int, seq<real>>, levels: seq<real>, k: nat)
    requires HasAll(progression, risks) && |levels| == |risks| && k <= |risks|
    requires DistinctIds(risks)
    ensures var m := Appended(risks, progression, levels, k);
      forall a :: 0 <= a < |risks| ==>
        m[risks[a].id] == progression[risks[a].id] + (if a < k then [levels[a]] else [])
  {
    if k > 0 {
      AppendedEntries(risks, progression, levels, k - 1);
      var m0 := Appended(risks, progression, levels, k - 1);
      var id := risks[k - 1].id;
      var m := m0[id := m0[id] + [levels[k - 1]]];
      assert Appended(risks, progression, levels, k) == m;
      forall a | 0 <= a < |risks|
        ensures m[risks[a].id] == progression[risks[a].id] + (if a < k then [levels[a]] else [])
      {
        if a == k - 1 {
          assert m0[id] == progression[id];
        } else {
          assert risks[a].id != id;
          assert m[risks[a].id] == m0[risks[a].id];
        }
      }
    }
  }

  /** The inner loop of a step: every risk's list gets its new level appended. */
  method AppendLevels(risks: seq<Risk>, progression: map<int, seq<real>>, levels: seq<real>)
    returns (next: map<int, seq<real>>)
    requires progression.Keys == Ids(risks) && |levels| == |risks|
    ensures next.Keys == Ids(risks)
    ensures DistinctIds(risks) ==> forall a :: 0 <= a < |risks| ==>
      next[risks[a].id] == progression[risks[a].id] + [levels[a]]
  {
    next := progression;
    assert HasAll(progression, risks);
    for i := 0 to |risks|
      invariant next == Appended(risks, progression, levels, i)
    {
      var id := risks[i].id;
      next := next[id := next[id] + [levels[i]]];
    }
    if DistinctIds(risks) {
      AppendedEntries(risks, progression, levels, |risks|);
    }
  }

  /** Every risk's list holds its levels at steps 0 .. t. */
  ghost predicate ProgressionsAt(progression: map<int, seq<real>>, risks: seq<Risk>, m: array2<real>, t: nat)
    reads m
    requires IsSquare(m, |risks|)
  {
    forall a :: 0 <= a < |risks| ==>
      risks[a].id in progression && progression[risks[a].id] == Progression(m, Impacts(risks), a, t)
  }

  lemma AdvanceProgressions(prev: map<int, seq<real>>, next: map<int, seq<real>>, risks: seq<Risk>, m: array2<real>, t: nat)
    requires IsSquare(m, |risks|) && ProgressionsAt(prev, risks, m, t)
    requires forall a :: 0 <= a < |risks| ==>
      risks[a].id in next && next[risks[a].id] == prev[risks[a].id] + [Levels(m, Impacts(risks), t + 1)[a]]
    ensures ProgressionsAt(next, risks, m, t + 1)
  {
    forall a | 0 <= a < |risks| {
      ProgressionSnoc(m, Impacts(risks), a, t);
    }
  }

  /**
   * simulate_risk_interactions: one progression per risk id; when ids are
   * distinct, the progression of each risk is its level at steps 0 .. num_steps,
   * starting from its base impact.
   */
  method SimulateRiskInteractions(risks: seq<Risk>, m: array2<real>, numSteps: nat) returns (progression: map<int, seq<real>>)
    requires IsSquare(m, |risks|)
    ensures progression.Keys == Ids(risks)
    ensures DistinctIds(risks) ==> ProgressionsAt(progression, risks, m, numSteps)
  {
    var base := Impacts(risks);
    var levels := base;
    progression := InitialProgression(risks);
    for t := 0 to numSteps
      invariant levels == Levels(m, base, t)
      invariant progression.Keys == Ids(risks)
      invariant DistinctIds(risks) ==> ProgressionsAt(progression, risks, m, t)
    {
      levels := StepLevels(m, levels);
      var next := AppendLevels(risks, progression, levels);
      if DistinctIds(risks) {
        AdvanceProgressions(progression, next, risks, m, t);
      }
      progression := next;
    }
  }
}
