/** getFallbackAnalysis: the report the service fabricates when no provider
    answered, or when anything on the way threw. One of the mock scenarios is drawn,
    its texts are copied, and recommendations, cost, one annotation box and an image
    quality are drawn for the scenario's severity. */
module Fallback {
  import opened Js
  import opened Oracle
  import opened Tables
  import opened Synthesis
  import opened Report
  import opened Normalization

  const FallbackModelVersion := "DentalAI-v2.1.0-fallback"
  const DefaultCaption := "Vùng cần quan tâm"
  const AnnotationNote := "Phát hiện bất thường cần chú ý"

  /** `mockScenarios[Math.floor(Math.random() * mockScenarios.length)]`. */
  function ChosenScenario(c: Catalog, d: Draws): (s: Scenario)
    requires c.Fits() && InUnit(d.scenario)
    ensures s in c.scenarios && s.Complete()
  {
    c.scenarios[Pick(d.scenario, |c.scenarios|)]
  }

  /** Every scenario is drawn for some value of the draw. */
  lemma {:induction false} EveryScenarioReachable(c: Catalog, i: nat)
    requires c.Fits() && i < |c.scenarios|
    ensures exists r :: InUnit(r) && Pick(r, |c.scenarios|) == i
  {
    var r := i as real / 10.0;
    assert r * 10.0 == i as real;
    assert InUnit(r) && Pick(r, |c.scenarios|) == i;
  }

  /** `cavities[0] || 'Vùng cần quan tâm'`: the first cavity when there is one and it
      is not empty, else the default caption. */
  function Caption(cavities: seq<string>): (v: JsValue)
    ensures Truthy(v)
    ensures |cavities| > 0 && cavities[0] != "" ==> v == Str(cavities[0])
    ensures (|cavities| == 0 || cavities[0] == "") ==> v == Str(DefaultCaption)
  {
    Or(if |cavities| > 0 then Str(cavities[0]) else Undefined, Str(DefaultCaption))
  }

  /** The single annotation box: x in [50, 449], y in [50, 349], 40 by 30. */
  function FallbackAnnotation(s: Scenario, d: Draws): (a: Annotation)
    requires InUnit(d.annotationX) && InUnit(d.annotationY)
    ensures 50 <= a.x <= 449 && 50 <= a.y <= 349
    ensures a.width == 40 && a.height == 30
    ensures a.caption == Caption(s.cavities)
  {
    Annotation(
      caption := Caption(s.cavities),
      x := Pick(d.annotationX, 400) + 50,
      y := Pick(d.annotationY, 300) + 50,
      width := 40,
      height := 30,
      confidence := 0.85,
      description := AnnotationNote)
  }

  /** The `annotations` slot: exactly one box, labelled with the caption, at x in
      [50, 449] and y in [50, 349], 40 wide and 30 high, with confidence 0.85. */
  function Annotations(s: Scenario, d: Draws): (v: JsValue)
    requires InUnit(d.annotationX) && InUnit(d.annotationY)
    ensures v.Arr? && |v.items| == 1
    ensures var box := v.items[0];
      && Member(box, "label") == Caption(s.cavities)
      && Member(box, "x").Num? && 50.0 <= Member(box, "x").n <= 449.0
      && Member(box, "y").Num? && 50.0 <= Member(box, "y").n <= 349.0
      && Member(box, "width") == Num(40.0) && Member(box, "height") == Num(30.0)
      && Member(box, "confidence") == Num(0.85) && Member(box, "description") == Str(AnnotationNote)
  {
    Arr([FallbackAnnotation(s, d).ToJs()])
  }

  /** The recommendations the fallback draws for a severity: generateRecommendations
      on the severity's own name, which is an own key of the table and so never throws. */
  function ScenarioRecommendations(c: Catalog, s: Severity, d: Draws): (r: seq<string>)
    requires c.Fits() && ValidDraws(d)
    ensures Recommendations(c, Str(s.Name()), d.recommendationCount, d.recommendationOrder) == Ok(r)
  {
    NameLooksUpItself(s);
    Recommendations(c, Str(s.Name()), d.recommendationCount, d.recommendationOrder).value
  }

  /** The estimated cost the fallback draws for a severity: always a full option of
      that severity's table. */
  function ScenarioCost(c: Catalog, s: Severity, d: Draws): (o: CostOption)
    requires c.Fits() && ValidDraws(d)
    ensures EstimatedCost(c, Str(s.Name()), d.cost) == Ok(Some(o))
    ensures o in c.costs(s) && o.min <= o.max
  {
    NameLooksUpItself(s);
    EstimatedCost(c, Str(s.Name()), d.cost).value.value
  }

  /** The scenario's condition texts as the report's detailed findings. */
  function ScenarioFindings(s: Scenario): (f: DetailedFindings)
    requires s.Complete()
    ensures f.Filled()
    ensures f.teethCondition == Str(s.teethCondition) && f.boneStructure == Str(s.boneStructure)
    ensures f.gumHealth == Str(s.gumHealth) && f.rootCanals == Str(s.rootCanals)
    ensures f.cavities == StrList(s.cavities) && f.periodontalStatus == Str(s.periodontalStatus)
  {
    DetailedFindings(
      Str(s.teethCondition), Str(s.boneStructure), Str(s.gumHealth),
      Str(s.rootCanals), StrList(s.cavities), Str(s.periodontalStatus))
  }

  /** The scenario's three treatment horizons as the report's plan. */
  function ScenarioPlan(s: Scenario): (p: TreatmentPlan)
    ensures p.Filled()
    ensures p.immediate == StrList(s.immediate) && p.shortTerm == StrList(s.shortTerm)
    ensures p.longTerm == StrList(s.longTerm)
  {
    TreatmentPlan(StrList(s.immediate), StrList(s.shortTerm), StrList(s.longTerm))
  }

  /** The metadata of the fabricated report, date and processing time aside. */
  function FallbackMetadata(d: Draws): (m: Metadata)
    requires InUnit(d.imageQuality)
    ensures m.aiModelVersion == FallbackModelVersion && m.analysisSource == "fallback"
    ensures m.imageQuality.Str? && m.imageQuality.s in ImageQualities
  {
    Metadata(Str(RandomImageQuality(d.imageQuality)), FallbackModelVersion, "fallback")
  }

  /** getFallbackAnalysis(filename, startTime). */
  function FallbackAnalysis(c: Catalog, filename: string, d: Draws): (r: AnalysisResult)
    requires c.Fits() && ValidDraws(d)
    ensures r.file == filename
    ensures r.metadata.aiModelVersion == FallbackModelVersion && r.metadata.analysisSource == "fallback"
    ensures r.metadata.imageQuality.Str? && r.metadata.imageQuality.s in ImageQualities
    ensures var s := ChosenScenario(c, d);
      && r.severity == Str(s.severity.Name())
      && r.followUpRequired == Bool(s.severity != Low)
      && r.recommendations == StrList(ScenarioRecommendations(c, s.severity, d))
      && r.riskFactors == StrList(s.riskFactors)
      && r.diagnosis == Str(s.diagnosis) && r.confidence == Num(s.confidence)
      && r.detailedFindings == ScenarioFindings(s) && r.treatmentPlan == ScenarioPlan(s)
      && r.estimatedCost == CostValue(Some(ScenarioCost(c, s.severity, d)))
      && r.annotations == Annotations(s, d)
  {
    var s := ChosenScenario(c, d);
    AnalysisResult(
      diagnosis := Str(s.diagnosis),
      confidence := Num(s.confidence),
      file := filename,
      severity := Str(s.severity.Name()),
      recommendations := StrList(ScenarioRecommendations(c, s.severity, d)),
      detailedFindings := ScenarioFindings(s),
      treatmentPlan := ScenarioPlan(s),
      riskFactors := StrList(s.riskFactors),
      followUpRequired := Bool(s.severity != Low),  // `scenario.severity !== 'low'`
      estimatedCost := CostValue(Some(ScenarioCost(c, s.severity, d))),
      annotations := Annotations(s, d),
      metadata := FallbackMetadata(d))
  }

  /** No slot of the fabricated report is empty. */
  lemma {:induction false} FallbackFilled(c: Catalog, filename: string, d: Draws)
    requires c.Fits() && ValidDraws(d)
    ensures FallbackAnalysis(c, filename, d).Filled()
  {
    FallbackScenarioSlotsFilled(c, filename, d);
    FallbackDrawnSlotsFilled(c, filename, d);
  }

  /** The slots copied from the scenario are not empty. */
  lemma {:induction false} FallbackScenarioSlotsFilled(c: Catalog, filename: string, d: Draws)
    requires c.Fits() && ValidDraws(d)
    ensures var r := FallbackAnalysis(c, filename, d);
      && Truthy(r.diagnosis) && Truthy(r.confidence) && Truthy(r.severity)
      && r.detailedFindings.Filled() && r.treatmentPlan.Filled() && Truthy(r.riskFactors)
  {
    var r := FallbackAnalysis(c, filename, d);
    var s := ChosenScenario(c, d);
    assert r.detailedFindings.Filled() && r.treatmentPlan.Filled();
  }

  /** The slots drawn or derived for the scenario are not empty. */
  lemma {:induction false} FallbackDrawnSlotsFilled(c: Catalog, filename: string, d: Draws)
    requires c.Fits() && ValidDraws(d)
    ensures var r := FallbackAnalysis(c, filename, d);
      && Truthy(r.recommendations) && !Nullish(r.followUpRequired) && Truthy(r.estimatedCost)
      && Truthy(r.annotations) && Truthy(r.metadata.imageQuality)
  {
    var r := FallbackAnalysis(c, filename, d);
    assert Truthy(r.annotations);
  }

  /** The fabricated report is consistent with the drawn scenario's severity:
      follow-up is required exactly when it is not low, the recommendations are
      distinct entries of that severity's table in the number generateRecommendations
      allows for it, and the cost is an option of that severity's table. */
  lemma {:induction false} FallbackFollowsSeverity(c: Catalog, filename: string, d: Draws)
    requires c.Fits() && ValidDraws(d)
    ensures var r := FallbackAnalysis(c, filename, d);
      var s := ChosenScenario(c, d);
      var recs := ScenarioRecommendations(c, s.severity, d);
      && r.followUpRequired == Bool(s.severity != Low)
      && r.recommendations == StrList(recs)
      && Distinct(recs)
      && (forall x :: x in recs ==> x in c.recommendations(s.severity))
      && (s.severity == Critical ==> 4 <= |recs| <= 6)
      && (s.severity == High ==> 3 <= |recs| <= 5)
      && (s.severity == Medium || s.severity == Low ==> 2 <= |recs| <= 4)
      && var o := ScenarioCost(c, s.severity, d);
         && o in c.costs(s.severity) && o.min <= o.max
         && Member(r.estimatedCost, "min") == Num(o.min as real)
         && Member(r.estimatedCost, "max") == Num(o.max as real)
         && Member(r.estimatedCost, "currency") == Str("VND")
  {
    var s := ChosenScenario(c, d);
    NameLooksUpItself(s.severity);
  }

  /** What stage 3 of analyzeXray returns: the fallback report run through
      normalisation, which keeps every slot and only relabels the model version as
      'Fallback-v1.0'; the version 'DentalAI-v2.1.0-fallback' written by
      getFallbackAnalysis is never seen on that path. */
  lemma {:induction false} FallbackSurvivesNormalize(c: Catalog, filename: string, d: Draws, e: Draws)
    requires c.Fits() && ValidDraws(d) && ValidDraws(e)
    ensures var r := FallbackAnalysis(c, filename, d);
      Normalize(c, r.ToJs(), filename, "fallback", e) ==
        Ok(r.(metadata := Metadata(r.metadata.imageQuality, "Fallback-v1.0", "fallback")))
  {
    var r := FallbackAnalysis(c, filename, d);
    FallbackFilled(c, filename, d);
    NormalizeFilledReport(c, r, "fallback", e);
  }
}
