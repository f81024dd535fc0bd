/**
 * The build-score formula of calculateScores and the verdict of evaluateBuild
 * (js/app.js), as functions of the list of selected ids.
 *
 *   finalScore = totalAwa * cultureMult + riskPenalty + scalabilityBonus
 *
 * where totalAwa, riskPenalty and scalabilityBonus are sums over the selected
 * entries and cultureMult is the mean culture value (1.0 when nothing is
 * selected). The sums are exact `real`s; the rounding of JavaScript doubles
 * is not modelled.
 */
module Scoring {
  import opened Catalog
  import opened SeqFacts

  /** The four per-entry attributes the formula sums. */
  datatype Stat = Awa | Culture | Risk | Scalability

  function StatOf(item: Item, stat: Stat): real {
    match stat
    case Awa => item.awa
    case Culture => item.culture
    case Risk => item.risk
    case Scalability => item.scalability
  }

  /**
   * `ids.map(find).reduce((sum, opt) => sum + opt.<stat>, 0)`: a left fold,
   * so the last id is added last.
   */
  function Total(ids: seq<int>, stat: Stat): real
    requires AllInCatalog(ids)
  {
    if ids == [] then 0.0
    else Total(ids[..|ids| - 1], stat) + StatOf(Lookup(ids[|ids| - 1]), stat)
  }

  /** The mean culture value, or 1.0 for an empty selection. */
  function CultureMult(ids: seq<int>): real
    requires AllInCatalog(ids)
  {
    if |ids| > 0 then Total(ids, Culture) / (|ids| as real) else 1.0
  }

  /** state.scores after calculateScores. */
  datatype Scores = Scores(
    totalAwa: real,
    cultureMult: real,
    riskPenalty: real,
    scalabilityBonus: real,
    finalScore: real)

  /** The initial state.scores (every field 0). */
  const ZeroScores := Scores(0.0, 0.0, 0.0, 0.0, 0.0)

  /** calculateScores over the selected ids. */
  function CalculateScores(ids: seq<int>): Scores
    requires AllInCatalog(ids)
  {
    var totalAwa := Total(ids, Awa);
    var cultureMult := CultureMult(ids);
    var riskPenalty := Total(ids, Risk);
    var scalabilityBonus := Total(ids, Scalability);
    Scores(totalAwa, cultureMult, riskPenalty, scalabilityBonus,
           totalAwa * cultureMult + riskPenalty + scalabilityBonus)
  }

  /** What evaluateBuild reports: the empty-selection alert, or the scores and the verdict. */
  datatype Evaluation = NothingSelected | Evaluated(scores: Scores, success: bool)

  /** evaluateBuild: refuse an empty selection, else score and compare with the threshold. */
  function Evaluate(ids: seq<int>): Evaluation
    requires AllInCatalog(ids)
  {
    if |ids| == 0 then NothingSelected
    else
      var scores := CalculateScores(ids);
      Evaluated(scores, scores.finalScore >= SuccessThreshold)
  }

  // ---------------------------------------------------------------------------
  // Bounds of the terms
  // ---------------------------------------------------------------------------

  /** The least value of an attribute over the catalog. */
  function Lo(stat: Stat): real {
    match stat
    case Awa => 0.2
    case Culture => 1.0
    case Risk => -0.15
    case Scalability => 0.1
  }

  /** The greatest value of an attribute over the catalog. */
  function Hi(stat: Stat): real {
    match stat
    case Awa => 1.8
    case Culture => 1.25
    case Risk => 0.0
    case Scalability => 0.2
  }

  /** Each sum lies between n times the attribute's least and greatest catalog value. */
  lemma {:induction false} TotalBounds(ids: seq<int>, stat: Stat)
    requires AllInCatalog(ids)
    ensures Lo(stat) * (|ids| as real) <= Total(ids, stat) <= Hi(stat) * (|ids| as real)
  {
    if ids != [] {
      var n := |ids|;
      TotalBounds(ids[..n - 1], stat);
      EntryBounds(Lookup(ids[n - 1]));
    }
  }

  /**
   * The signs the formula's comments rely on: the risk penalty is never
   * positive, the scalability bonus and total awa are never negative, and the
   * culture multiplier is at least 1.0 (exactly 1.0 when nothing is selected).
   */
  lemma ScoreTermBounds(ids: seq<int>)
    requires AllInCatalog(ids)
    ensures CalculateScores(ids).totalAwa >= 0.0
    ensures CalculateScores(ids).riskPenalty <= 0.0
    ensures CalculateScores(ids).scalabilityBonus >= 0.0
    ensures 1.0 <= CalculateScores(ids).cultureMult <= 1.25
    ensures ids == [] ==> CalculateScores(ids) == Scores(0.0, 1.0, 0.0, 0.0, 0.0)
  {
    TotalBounds(ids, Awa);
    TotalBounds(ids, Risk);
    TotalBounds(ids, Scalability);
    CultureMultBounds(ids);
  }

  lemma CultureMultBounds(ids: seq<int>)
    requires AllInCatalog(ids)
    ensures 1.0 <= CultureMult(ids) <= 1.25
  {
    if |ids| > 0 {
      var n := |ids| as real;
      TotalBounds(ids, Culture);
      var t := Total(ids, Culture);
      assert t / n * n == t;
    }
  }

  /**
   * The final score is at least the plain sum of the three summed terms:
   * the culture multiplier only ever scales awa up.
   */
  lemma ScoreAtLeastSum(ids: seq<int>)
    requires AllInCatalog(ids)
    ensures CalculateScores(ids).finalScore >=
      CalculateScores(ids).totalAwa + CalculateScores(ids).riskPenalty + CalculateScores(ids).scalabilityBonus
  {
    var s := CalculateScores(ids);
    ScoreTermBounds(ids);
    ScaleUp(s.totalAwa, s.cultureMult);
  }

  /** The final score is at most 2.45 per selected entry (1.8 * 1.25 + 0 + 0.2). */
  lemma ScoreAtMost(ids: seq<int>)
    requires AllInCatalog(ids)
    ensures CalculateScores(ids).finalScore <= 2.45 * (|ids| as real)
  {
    var s := CalculateScores(ids);
    TotalBounds(ids, Awa);
    TotalBounds(ids, Risk);
    TotalBounds(ids, Scalability);
    CultureMultBounds(ids);
    FormulaAtMost(s.totalAwa, s.cultureMult, s.riskPenalty, s.scalabilityBonus, |ids| as real);
  }

  /** The formula with awa <= 1.8 n, multiplier <= 1.25, risk <= 0, scalability <= 0.2 n. */
  lemma FormulaAtMost(awa: real, mult: real, risk: real, scal: real, n: real)
    requires 0.0 <= awa <= 1.8 * n && 0.0 <= mult <= 1.25
    requires risk <= 0.0 && scal <= 0.2 * n
    ensures awa * mult + risk + scal <= 2.45 * n
  {
    ScaleBounded(awa, mult, 1.8 * n);
  }

  /** For a >= 0 and m >= 1: a * m >= a. */
  lemma ScaleUp(a: real, m: real)
    requires 0.0 <= a && 1.0 <= m
    ensures a <= a * m
  {
    assert a * m - a == a * (m - 1.0);
  }

  /** For 0 <= a <= b and 0 <= m <= 1.25: a * m <= 1.25 * b. */
  lemma ScaleBounded(a: real, m: real, b: real)
    requires 0.0 <= a <= b && 0.0 <= m <= 1.25
    ensures a * m <= 1.25 * b
  {
    assert 1.25 * b - a * m == a * (1.25 - m) + 1.25 * (b - a);
  }

  /** No build of fewer than three entries can reach the success threshold. */
  lemma AtLeastThreeToPass(ids: seq<int>)
    requires AllInCatalog(ids)
    requires Evaluate(ids).Evaluated? && Evaluate(ids).success
    ensures |ids| >= 3
  {
    ScoreAtMost(ids);
  }

  // ---------------------------------------------------------------------------
  // Order independence
  // ---------------------------------------------------------------------------

  /** Taking one id out of the fold subtracts exactly its attribute. */
  lemma {:induction false} TotalRemoveAt(ids: seq<int>, i: int, stat: Stat)
    requires AllInCatalog(ids) && 0 <= i < |ids|
    ensures AllInCatalog(ids[..i] + ids[i + 1..])
    ensures Total(ids, stat) == Total(ids[..i] + ids[i + 1..], stat) + StatOf(Lookup(ids[i]), stat)
  {
    var n := |ids|;
    var init := ids[..n - 1];
    if i == n - 1 {
      assert ids[..i] + ids[i + 1..] == init;
    } else {
      TotalRemoveAt(init, i, stat);
      var rest := init[..i] + init[i + 1..];
      assert ids[..i] + ids[i + 1..] == rest + [ids[n - 1]];
      assert (rest + [ids[n - 1]])[..|rest|] == rest;
    }
  }

  /** A sum does not depend on the order of the ids. */
  lemma {:induction false} TotalPermutation(a: seq<int>, b: seq<int>, stat: Stat)
    requires AllInCatalog(a) && AllInCatalog(b) && multiset(a) == multiset(b)
    ensures Total(a, stat) == Total(b, stat)
    decreases |a|
  {
    if a == [] {
      assert |b| == |multiset(b)| == 0;
    } else {
      var i := |a| - 1;
      var j := IndexOf(b, a[i]);
      TotalRemoveAt(a, i, stat);
      TotalRemoveAt(b, j, stat);
      MultisetRemoveAt(a, i);
      MultisetRemoveAt(b, j);
      TotalPermutation(a[..i] + a[i + 1..], b[..j] + b[j + 1..], stat);
    }
  }

  /** The scores do not depend on the order in which the ids were selected. */
  lemma ScoresOrderIndependent(a: seq<int>, b: seq<int>)
    requires AllInCatalog(a) && AllInCatalog(b) && multiset(a) == multiset(b)
    ensures CalculateScores(a) == CalculateScores(b)
    ensures Evaluate(a) == Evaluate(b)
  {
    TotalPermutation(a, b, Awa);
    TotalPermutation(a, b, Risk);
    TotalPermutation(a, b, Scalability);
    CultureMultPermutation(a, b);
  }

  lemma CultureMultPermutation(a: seq<int>, b: seq<int>)
    requires AllInCatalog(a) && AllInCatalog(b) && multiset(a) == multiset(b)
    ensures |a| == |b| && CultureMult(a) == CultureMult(b)
  {
    assert |a| == |multiset(a)| == |multiset(b)| == |b|;
    TotalPermutation(a, b, Culture);
  }

  // ---------------------------------------------------------------------------
  // Concrete builds
  // ---------------------------------------------------------------------------

  /**
   * Elite Data Scientist, Sports Scientist, Machine Learning Engineer and
   * Culture/Communication Lead (cost 8.4) pass: 4.7 * 1.1375 - 0.15 + 0.7.
   */
  lemma PassingBuild()
    ensures AllInCatalog([1, 2, 5, 9])
    ensures Evaluate([1, 2, 5, 9]) == Evaluated(Scores(4.7, 1.1375, -0.15, 0.7, 5.89625), true)
  {
    var ids := [1, 2, 5, 9];
    assert ids[..3] == [1, 2, 5] && [1, 2, 5][..2] == [1, 2] && [1, 2][..1] == [1];
    assert [1][..0] == [];
  }

  /**
   * Elite Data Scientist, Sports Scientist and Tech Stack Upgrade fall just
   * short: 4.0 * (3.35 / 3) + 0.5 = 14.9 / 3 < 5.0.
   */
  lemma NearMissBuild()
    ensures AllInCatalog([1, 2, 6])
    ensures Evaluate([1, 2, 6]) == Evaluated(Scores(4.0, 3.35 / 3.0, 0.0, 0.5, 14.9 / 3.0), false)
  {
    assert [1, 2, 6][..2] == [1, 2] && [1, 2][..1] == [1] && [1][..0] == [];
  }

  /**
   * Elite Data Scientist, Veteran Scout, Tech Stack Upgrade, Real-Time Data
   * Pipeline and Culture/Communication Lead (cost 9.2) land exactly on the
   * threshold, 4.0 * 1.15 - 0.3 + 0.7 = 5.0, and pass because the comparison
   * is `>=`.
   */
  lemma ThresholdBuild()
    ensures AllInCatalog([1, 3, 6, 7, 9])
    ensures Evaluate([1, 3, 6, 7, 9]) == Evaluated(Scores(4.0, 1.15, -0.3, 0.7, 5.0), true)
  {
    var ids := [1, 3, 6, 7, 9];
    assert ids[..4] == [1, 3, 6, 7] && [1, 3, 6, 7][..3] == [1, 3, 6];
    assert [1, 3, 6][..2] == [1, 3] && [1, 3][..1] == [1] && [1][..0] == [];
  }
}
