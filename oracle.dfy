/** The randomness the analysis code draws, passed in as values: every call of
    `Math.random()` is a real in [0, 1), and every `sort(() => 0.5 - Math.random())`
    leaves its array in an order chosen by an oracle permutation. */
module Oracle {

  predicate InUnit(r: real) {
    0.0 <= r < 1.0
  }

  /** `Math.floor(Math.random() * n)`: a uniform index below n. */
  function Pick(r: real, n: nat): (i: nat)
    requires InUnit(r) && n > 0
    ensures i < n
  {
    PickBelow(r, n);
    (r * n as real).Floor
  }

  lemma PickBelow(r: real, n: nat)
    requires InUnit(r) && n > 0
    ensures 0.0 <= r * n as real < n as real
  {
    assert r * n as real <= 1.0 * n as real - (1.0 - r) * n as real;
  }

  /** p lists 0 .. n-1, each exactly once. */
  predicate IsPermutation(p: seq<nat>, n: nat) {
    && |p| == n
    && (forall i :: 0 <= i < n ==> p[i] < n)
    && (forall i, j :: 0 <= i < j < n ==> p[i] != p[j])
  }

  /** An oracle that, asked to shuffle an array of length n, answers with the
      positions the sort leaves in front, in order: a permutation of 0 .. n-1. */
  ghost predicate IsShuffler(order: nat -> seq<nat>) {
    forall n: nat :: IsPermutation(order(n), n)
  }

  predicate Distinct<T(==)>(s: seq<T>) {
    forall i, j :: 0 <= i < j < |s| ==> s[i] != s[j]
  }

  /** s rearranged so that position i holds s[p[i]]. */
  function Permute<T(==)>(s: seq<T>, p: seq<nat>): (r: seq<T>)
    requires IsPermutation(p, |s|)
    ensures |r| == |s|
    ensures forall x :: x in r ==> x in s
    ensures Distinct(s) ==> Distinct(r)
  {
    seq(|s|, i requires 0 <= i < |s| => s[p[i]])
  }

  /** The random values one synthesis pass consumes, one field per call site of
      `Math.random()` in the source, and one oracle per shuffled table. */
  datatype Draws = Draws(
    scenario: real,                  // getFallbackAnalysis: which mock scenario
    severity: real,                  // generateSeverity
    recommendationCount: real,       // generateRecommendations: how many
    recommendationOrder: nat -> seq<nat>,
    riskCount: real,                 // generateRiskFactors: how many
    riskOrder: nat -> seq<nat>,
    cost: real,                      // generateEstimatedCost: which interval
    annotationX: real,               // getFallbackAnalysis: box position
    annotationY: real,
    imageQuality: real)              // getRandomImageQuality

  ghost predicate ValidDraws(d: Draws) {
    && InUnit(d.scenario) && InUnit(d.severity)
    && InUnit(d.recommendationCount) && IsShuffler(d.recommendationOrder)
    && InUnit(d.riskCount) && IsShuffler(d.riskOrder)
    && InUnit(d.cost) && InUnit(d.annotationX) && InUnit(d.annotationY)
    && InUnit(d.imageQuality)
  }
}
