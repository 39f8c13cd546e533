/** The severity-conditioned generators of AnalyzeService that fabricate report
    fields when no provider supplies them: generateSeverity, the three
    shuffle-and-take selectors, generateEstimatedCost, calculateConfidence,
    getRandomImageQuality, and the extension-to-MIME lookup getMimeType. */
module Synthesis {
  import opened Js
  import opened Oracle
  import opened Tables
  import Text

  function Min(a: int, b: int): int {
    if a <= b then a else b
  }

  // ---------------------------------------------------------------- severity

  /** The weights of low, medium, high and critical, in that order. */
  const SeverityWeights: seq<real> := [0.4, 0.35, 0.2, 0.05]

  /** The running total the loop of generateSeverity holds before step i. */
  const CumulativeWeights: seq<real> := [0.0, 0.4, 0.75, 0.95, 1.0]

  /** What generateSeverity returns for the drawn number r: the first severity whose
      cumulative weight reaches r, and past the last one the trailing 'medium'.
      For a draw in [0, 1) that trailing return is never reached: medium comes only
      from its own band. */
  function SeverityOf(r: real): (s: Severity)
    ensures InUnit(r) ==> (s == Low <==> r <= 0.4)
    ensures InUnit(r) ==> (s == Medium <==> 0.4 < r <= 0.75)
    ensures InUnit(r) ==> (s == High <==> 0.75 < r <= 0.95)
    ensures InUnit(r) ==> (s == Critical <==> 0.95 < r)
  {
    if r <= 0.4 then Low
    else if r <= 0.75 then Medium
    else if r <= 0.95 then High
    else if r <= 1.0 then Critical
    else Medium
  }

  /** generateSeverity: walk the weights, accumulating, and return the first
      severity whose cumulative weight reaches the draw. */
  method GenerateSeverity(random: real) returns (s: Severity)
    ensures s == SeverityOf(random)
  {
    var severities := [Low, Medium, High, Critical];
    var cumulative := 0.0;
    for i := 0 to |SeverityWeights|
      invariant cumulative == CumulativeWeights[i]
      invariant 0 < i ==> random > cumulative
    {
      cumulative := cumulative + SeverityWeights[i];
      if random <= cumulative {
        return severities[i];
      }
    }
    return Medium;
  }

  /** The weights form a distribution, each severity is drawn exactly on a band of
      [0, 1) as wide as its weight, and every severity can be drawn. */
  lemma {:induction false} SeverityDistribution(s: Severity)
    ensures SeverityWeights[0] + SeverityWeights[1] + SeverityWeights[2] + SeverityWeights[3] == 1.0
    ensures CumulativeWeights[s.Rank() + 1] - CumulativeWeights[s.Rank()] == SeverityWeights[s.Rank()]
    ensures forall r :: InUnit(r) ==>
      (SeverityOf(r) == s <==>
        (s == Low || CumulativeWeights[s.Rank()] < r) && r <= CumulativeWeights[s.Rank() + 1])
    ensures exists r :: InUnit(r) && SeverityOf(r) == s
  {
    var sample := match s
      case Low => 0.0
      case Medium => 0.5
      case High => 0.8
      case Critical => 0.99;
    assert InUnit(sample) && SeverityOf(sample) == s;
  }

  // ---------------------------------------------------------------- selectors

  /** `table.sort(() => 0.5 - Math.random()).slice(0, count)`: the first count
      entries of the table in the order the sort left it. */
  function ShuffledPrefix(table: seq<string>, order: seq<nat>, count: nat): (r: seq<string>)
    requires IsPermutation(order, |table|)
    ensures |r| == Min(count, |table|)
    ensures forall x :: x in r ==> x in table
    ensures Distinct(table) ==> Distinct(r)
  {
    Permute(table, order)[..Min(count, |table|)]
  }

  /** How many recommendations generateRecommendations keeps: the `===` tests see
      only the exact strings 'critical' and 'high'. */
  function RecommendationCount(severity: JsValue, draw: real): (n: nat)
    requires InUnit(draw)
    ensures severity == Str("critical") ==> 4 <= n <= 6
    ensures severity == Str("high") ==> 3 <= n <= 5
    ensures severity != Str("critical") && severity != Str("high") ==> 2 <= n <= 4
  {
    if severity == Str("critical") then Pick(draw, 3) + 4
    else if severity == Str("high") then Pick(draw, 3) + 3
    else Pick(draw, 3) + 2
  }

  /** How many findings generateFindings keeps. */
  function FindingCount(severity: JsValue, draw: real): (n: nat)
    requires InUnit(draw)
    ensures severity == Str("critical") ==> 3 <= n <= 5
    ensures severity == Str("high") ==> 2 <= n <= 4
    ensures severity != Str("critical") && severity != Str("high") ==> 1 <= n <= 3
  {
    if severity == Str("critical") then Pick(draw, 3) + 3
    else if severity == Str("high") then Pick(draw, 3) + 2
    else Pick(draw, 3) + 1
  }

  /** How many risk factors generateRiskFactors keeps, whatever the severity. */
  function RiskCount(draw: real): (n: nat)
    requires InUnit(draw)
    ensures 1 <= n <= 3
  {
    Pick(draw, 3) + 1
  }

  /** generateRecommendations: exactly the drawn count of distinct entries of the
      severity's table ('medium' for an unknown key); a key naming an
      Object.prototype member makes the table lookup return that member, and
      calling `.sort` on it throws. */
  function Recommendations(c: Catalog, severity: JsValue, countDraw: real, order: nat -> seq<nat>): (r: Result<seq<string>>)
    requires c.Fits() && InUnit(countDraw) && IsShuffler(order)
    ensures r.Thrown? <==> KeyConversionThrows(severity) || SeverityLookup(severity).Inherited?
    ensures r.Thrown? ==> r.error.TypeError?
    ensures r.Ok? ==> |r.value| == RecommendationCount(severity, countDraw)
    ensures r.Ok? ==> Distinct(r.value)
    ensures r.Ok? ==> forall x :: x in r.value ==> x in c.recommendations(TableSeverity(severity))
  {
    match SeverityLookup(severity)
    case Unconvertible => Thrown(TypeError(UnconvertibleKey))
    case Inherited(_) => Thrown(TypeError("availableRecommendations.sort is not a function"))
    case _ =>
      FitsEverywhere(c, TableSeverity(severity));
      var table := c.recommendations(TableSeverity(severity));
      Ok(ShuffledPrefix(table, order(|table|), RecommendationCount(severity, countDraw)))
  }

  /** generateFindings: exactly the drawn count of distinct entries of the
      severity's table ('medium' for an unknown key). */
  function Findings(c: Catalog, severity: JsValue, countDraw: real, order: nat -> seq<nat>): (r: Result<seq<string>>)
    requires c.Fits() && InUnit(countDraw) && IsShuffler(order)
    ensures r.Thrown? <==> KeyConversionThrows(severity) || SeverityLookup(severity).Inherited?
    ensures r.Thrown? ==> r.error.TypeError?
    ensures r.Ok? ==> |r.value| == FindingCount(severity, countDraw)
    ensures r.Ok? ==> Distinct(r.value)
    ensures r.Ok? ==> forall x :: x in r.value ==> x in c.findings(TableSeverity(severity))
  {
    match SeverityLookup(severity)
    case Unconvertible => Thrown(TypeError(UnconvertibleKey))
    case Inherited(_) => Thrown(TypeError("availableFindings.sort is not a function"))
    case _ =>
      FitsEverywhere(c, TableSeverity(severity));
      var table := c.findings(TableSeverity(severity));
      Ok(ShuffledPrefix(table, order(|table|), FindingCount(severity, countDraw)))
  }

  /** generateRiskFactors: one to three distinct entries of the severity's table
      ('medium' for an unknown key); the low table has four entries and the others
      five, so the count is always met. */
  function RiskFactors(c: Catalog, severity: JsValue, countDraw: real, order: nat -> seq<nat>): (r: Result<seq<string>>)
    requires c.Fits() && InUnit(countDraw) && IsShuffler(order)
    ensures r.Thrown? <==> KeyConversionThrows(severity) || SeverityLookup(severity).Inherited?
    ensures r.Thrown? ==> r.error.TypeError?
    ensures r.Ok? ==> |r.value| == RiskCount(countDraw)
    ensures r.Ok? ==> Distinct(r.value)
    ensures r.Ok? ==> forall x :: x in r.value ==> x in c.riskFactors(TableSeverity(severity))
  {
    match SeverityLookup(severity)
    case Unconvertible => Thrown(TypeError(UnconvertibleKey))
    case Inherited(_) => Thrown(TypeError("availableRisks.sort is not a function"))
    case _ =>
      FitsEverywhere(c, TableSeverity(severity));
      var table := c.riskFactors(TableSeverity(severity));
      Ok(ShuffledPrefix(table, order(|table|), RiskCount(countDraw)))
  }

  /** Array.prototype.sort with the random comparator: the items are read out, put
      in the order the oracle chose, and written back into the same array. */
  method SortByOracle(a: array<string>, order: seq<nat>)
    requires IsPermutation(order, a.Length)
    modifies a
    ensures a[..] == Permute(old(a[..]), order)
  {
    var items := a[..];
    var k := 0;
    while k < a.Length
      invariant 0 <= k <= a.Length
      invariant forall i :: 0 <= i < k ==> a[i] == items[order[i]]
    {
      a[k] := items[order[k]];
      k := k + 1;
    }
  }

  /** Copy a table into a fresh array, sort it in place, keep the first count. */
  method ShuffleAndTake(table: seq<string>, order: seq<nat>, count: nat) returns (r: seq<string>)
    requires IsPermutation(order, |table|)
    ensures r == ShuffledPrefix(table, order, count)
  {
    var available := new string[|table|](i requires 0 <= i < |table| => table[i]);
    assert available[..] == table;
    SortByOracle(available, order);
    r := available[..Min(count, available.Length)];
  }

  method GenerateRecommendations(c: Catalog, severity: JsValue, countDraw: real, order: nat -> seq<nat>)
    returns (r: Result<seq<string>>)
    requires c.Fits() && InUnit(countDraw) && IsShuffler(order)
    ensures r == Recommendations(c, severity, countDraw, order)
  {
    var lookup := SeverityLookup(severity);
    var count := RecommendationCount(severity, countDraw);
    if lookup.Unconvertible? {
      return Thrown(TypeError(UnconvertibleKey));
    }
    if lookup.Inherited? {
      return Thrown(TypeError("availableRecommendations.sort is not a function"));
    }
    FitsEverywhere(c, TableSeverity(severity));
    var table := c.recommendations(TableSeverity(severity));
    var taken := ShuffleAndTake(table, order(|table|), count);
    r := Ok(taken);
  }

  method GenerateFindings(c: Catalog, severity: JsValue, countDraw: real, order: nat -> seq<nat>)
    returns (r: Result<seq<string>>)
    requires c.Fits() && InUnit(countDraw) && IsShuffler(order)
    ensures r == Findings(c, severity, countDraw, order)
  {
    var lookup := SeverityLookup(severity);
    var count := FindingCount(severity, countDraw);
    if lookup.Unconvertible? {
      return Thrown(TypeError(UnconvertibleKey));
    }
    if lookup.Inherited? {
      return Thrown(TypeError("availableFindings.sort is not a function"));
    }
    FitsEverywhere(c, TableSeverity(severity));
    var table := c.findings(TableSeverity(severity));
    var taken := ShuffleAndTake(table, order(|table|), count);
    r := Ok(taken);
  }

  method GenerateRiskFactors(c: Catalog, severity: JsValue, countDraw: real, order: nat -> seq<nat>)
    returns (r: Result<seq<string>>)
    requires c.Fits() && InUnit(countDraw) && IsShuffler(order)
    ensures r == RiskFactors(c, severity, countDraw, order)
  {
    var lookup := SeverityLookup(severity);
    var count := RiskCount(countDraw);
    if lookup.Unconvertible? {
      return Thrown(TypeError(UnconvertibleKey));
    }
    if lookup.Inherited? {
      return Thrown(TypeError("availableRisks.sort is not a function"));
    }
    FitsEverywhere(c, TableSeverity(severity));
    var table := c.riskFactors(TableSeverity(severity));
    var taken := ShuffleAndTake(table, order(|table|), count);
    r := Ok(taken);
  }

  // ---------------------------------------------------------------- cost

  /** generateEstimatedCost before the currency is attached: one option of the
      severity's table ('medium' for an unknown key). A key naming an
      Object.prototype member indexes that member, finds nothing, and the spread of
      `undefined` contributes no fields: None. A key whose conversion throws makes
      the whole call throw. */
  function EstimatedCost(c: Catalog, severity: JsValue, draw: real): (r: Result<Option<CostOption>>)
    requires c.Fits() && InUnit(draw)
    ensures r.Thrown? <==> KeyConversionThrows(severity)
    ensures r.Thrown? ==> r.error.TypeError?
    ensures r == Ok(None) <==> SeverityLookup(severity).Inherited?
    ensures r.Ok? && r.value.Some? ==> r.value.value in c.costs(TableSeverity(severity))
    ensures r.Ok? && r.value.Some? ==> r.value.value.min <= r.value.value.max
  {
    match SeverityLookup(severity)
    case Unconvertible => Thrown(TypeError(UnconvertibleKey))
    case Inherited(_) => Ok(None)
    case _ =>
      FitsEverywhere(c, TableSeverity(severity));
      var options := c.costs(TableSeverity(severity));
      Ok(Some(options[Pick(draw, |options|)]))
  }

  /** `{ ...selected, currency: 'VND' }` as the object the report stores: the
      selected option's fields in VND, or the currency alone when nothing was selected. */
  function CostValue(cost: Option<CostOption>): (v: JsValue)
    ensures Truthy(v)
    ensures Member(v, "currency") == Str("VND")
    ensures cost.Some? ==>
      && Member(v, "min") == Num(cost.value.min as real) && Member(v, "max") == Num(cost.value.max as real)
      && Member(v, "note") == Str(cost.value.note)
    ensures cost.None? ==> Member(v, "min") == Undefined && Member(v, "max") == Undefined
  {
    match cost
    case Some(o) =>
      Obj(map["min" := Num(o.min as real), "max" := Num(o.max as real),
              "note" := Str(o.note), "currency" := Str("VND")])
    case None => Obj(map["currency" := Str("VND")])
  }

  // ---------------------------------------------------------------- confidence

  function BaseConfidence(s: Severity): int {
    match s
    case Low => 85
    case Medium => 80
    case High => 90
    case Critical => 95
  }

  /** `Math.min(findingsCount * 2, 10)`. */
  function FindingsBonus(findingsCount: int): (b: int)
    ensures b <= 10
    ensures 0 <= findingsCount ==> 0 <= b
    ensures findingsCount <= 5 ==> b == 2 * findingsCount
  {
    Min(findingsCount * 2, 10)
  }

  /** `Math.floor(Math.random() * 10) - 5`: from -5 up to 4, not the symmetric ±5
      the source's comment announces. */
  function Variation(draw: real): (v: int)
    requires InUnit(draw)
    ensures -5 <= v <= 4
  {
    Pick(draw, 10) - 5
  }

  /** calculateConfidence on its 0-100 scale: base plus jitter plus findings bonus,
      clamped into [60, 99]; the clamp never binds from below for a non-negative
      findings count. */
  function CalculateConfidence(s: Severity, findingsCount: int, draw: real): (c: int)
    requires InUnit(draw)
    ensures 60 <= c <= 99
    ensures 0 <= findingsCount ==> c == Min(BaseConfidence(s) + Variation(draw) + FindingsBonus(findingsCount), 99)
  {
    var raw := BaseConfidence(s) + Variation(draw) + FindingsBonus(findingsCount);
    if raw < 60 then 60 else Min(raw, 99)
  }

  /** More findings never lower the confidence, other draws being equal. */
  lemma {:induction false} ConfidenceMonotoneInFindings(s: Severity, n: int, m: int, draw: real)
    requires InUnit(draw) && n <= m
    ensures CalculateConfidence(s, n, draw) <= CalculateConfidence(s, m, draw)
  {
    assert FindingsBonus(n) <= FindingsBonus(m);
  }

  // ---------------------------------------------------------------- image quality

  const ImageQualities: seq<string> := ["poor", "fair", "good", "excellent"]

  /** getRandomImageQuality. */
  function RandomImageQuality(draw: real): (q: string)
    requires InUnit(draw)
    ensures q in ImageQualities && q != ""
  {
    ImageQualities[Pick(draw, |ImageQualities|)]
  }

  // ---------------------------------------------------------------- MIME type

  const MimeTypes: map<string, string> := map[
    "jpg" := "image/jpeg", "jpeg" := "image/jpeg", "png" := "image/png",
    "gif" := "image/gif", "bmp" := "image/bmp", "webp" := "image/webp"]

  /** getMimeType of AnalyzeService: the lower-cased text after the last '.' (all of
      the name when it has none) looked up in the table; a miss gives
      'application/octet-stream', while an extension naming an Object.prototype
      member returns that inherited member instead of a string. */
  function MimeTypeOf(filename: string): (m: JsValue)
    ensures var ext := Text.AfterLastDot(Text.Lower(filename));
      && (ext in MimeTypes ==> m == Str(MimeTypes[ext]))
      && (ext !in MimeTypes && ext in ObjectPrototypeMembers ==> m == Builtin(ext))
      && (ext !in MimeTypes && ext !in ObjectPrototypeMembers ==> m == Str("application/octet-stream"))
  {
    var ext := Text.AfterLastDot(Text.Lower(filename));
    var lookup := LookupIn(MimeTypes, Str(ext));
    assert !KeyConversionThrows(Str(ext)) && KeyName(Str(ext)) == Some(ext);
    match lookup
    case Own(t) => Str(t)
    case Inherited(member) => Builtin(member)
    case _ => Str("application/octet-stream")
  }
}
