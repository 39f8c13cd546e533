/** normalizeAnalysisResult: whatever a provider answered becomes a complete
    AnalysisResult. A truthy provider value is kept as it is; a falsy one is replaced
    by a fixed default or by a value synthesized for the (possibly synthesized)
    severity; the follow-up flag uses `??`, so an explicit false survives. */
module Normalization {
  import opened Js
  import opened Oracle
  import opened Tables
  import opened Synthesis
  import opened Report

  const DefaultDiagnosis := "Phân tích hoàn tất"
  const DefaultConfidence := 0.85
  const DefaultTeethCondition := "Không có thông tin chi tiết"
  const DefaultBoneStructure := "Cấu trúc xương bình thường"
  const DefaultGumHealth := "Tình trạng nướu bình thường"
  const DefaultRootCanals := "Tủy răng bình thường"
  const DefaultPeriodontalStatus := "Nha chu bình thường"

  /** The model version recorded for each analysis source. */
  function ModelVersion(analysisSource: string): (v: string)
    ensures v == "Gemini-Pro-Vision" <==> analysisSource == "gemini"
    ensures v == "DentalAI-v2.1.0" <==> analysisSource == "ai_backend"
    ensures v == "Fallback-v1.0" <==> analysisSource != "gemini" && analysisSource != "ai_backend"
  {
    if analysisSource == "gemini" then "Gemini-Pro-Vision"
    else if analysisSource == "ai_backend" then "DentalAI-v2.1.0"
    else "Fallback-v1.0"
  }

  /** `given || synthesize()` where synthesizing a list may throw. */
  function OrElse(given: JsValue, synthesized: Result<seq<string>>): (r: Result<JsValue>)
    ensures Truthy(given) ==> r == Ok(given)
    ensures !Truthy(given) ==> (r.Thrown? <==> synthesized.Thrown?)
    ensures !Truthy(given) && synthesized.Ok? ==> r == Ok(StrList(synthesized.value))
    ensures r.Ok? ==> Truthy(r.value)
  {
    if Truthy(given) then Ok(given)
    else match synthesized
      case Ok(items) => Ok(StrList(items))
      case Thrown(e) => Thrown(e)
  }

  /** The severity normalisation works with: the provider's when truthy (never
      checked against the four known names), else a drawn one. */
  function EffectiveSeverity(raw: JsValue, d: Draws): (s: JsValue)
    ensures Truthy(s)
    ensures Truthy(Member(raw, "severity")) ==> s == Member(raw, "severity")
    ensures !Truthy(Member(raw, "severity")) ==> s == Str(SeverityOf(d.severity).Name())
  {
    Or(Member(raw, "severity"), Str(SeverityOf(d.severity).Name()))
  }

  /** A falsy key never finds an Object.prototype member: normalisation can only
      throw on a provider's truthy severity. */
  lemma {:induction false} FalsyKeyNotInherited(key: JsValue)
    ensures !Truthy(key) ==> !SeverityLookup(key).Inherited?
  {
    match key
    case Str(s) =>
      assert s == "" ==> "" !in ObjectPrototypeMembers;
    case Bool(b) =>
      assert "false" !in ObjectPrototypeMembers;
    case Undefined =>
      assert "undefined" !in ObjectPrototypeMembers;
    case Null =>
      assert "null" !in ObjectPrototypeMembers;
    case _ =>
  }

  function NormalizeFindings(given: JsValue): (f: DetailedFindings)
    ensures f.Filled()
    ensures Truthy(Member(given, "teethCondition")) ==> f.teethCondition == Member(given, "teethCondition")
    ensures Truthy(Member(given, "boneStructure")) ==> f.boneStructure == Member(given, "boneStructure")
    ensures Truthy(Member(given, "gumHealth")) ==> f.gumHealth == Member(given, "gumHealth")
    ensures Truthy(Member(given, "rootCanals")) ==> f.rootCanals == Member(given, "rootCanals")
    ensures Truthy(Member(given, "cavities")) ==> f.cavities == Member(given, "cavities")
    ensures Truthy(Member(given, "periodontalStatus")) ==> f.periodontalStatus == Member(given, "periodontalStatus")
    ensures !Truthy(Member(given, "teethCondition")) ==> f.teethCondition == Str(DefaultTeethCondition)
    ensures !Truthy(Member(given, "boneStructure")) ==> f.boneStructure == Str(DefaultBoneStructure)
    ensures !Truthy(Member(given, "gumHealth")) ==> f.gumHealth == Str(DefaultGumHealth)
    ensures !Truthy(Member(given, "rootCanals")) ==> f.rootCanals == Str(DefaultRootCanals)
    ensures !Truthy(Member(given, "cavities")) ==> f.cavities == Arr([])
    ensures !Truthy(Member(given, "periodontalStatus")) ==> f.periodontalStatus == Str(DefaultPeriodontalStatus)
  {
    DetailedFindings(
      teethCondition := Or(Member(given, "teethCondition"), Str(DefaultTeethCondition)),
      boneStructure := Or(Member(given, "boneStructure"), Str(DefaultBoneStructure)),
      gumHealth := Or(Member(given, "gumHealth"), Str(DefaultGumHealth)),
      rootCanals := Or(Member(given, "rootCanals"), Str(DefaultRootCanals)),
      cavities := Or(Member(given, "cavities"), Arr([])),
      periodontalStatus := Or(Member(given, "periodontalStatus"), Str(DefaultPeriodontalStatus)))
  }

  function NormalizePlan(given: JsValue): (p: TreatmentPlan)
    ensures p.Filled()
    ensures Truthy(Member(given, "immediate")) ==> p.immediate == Member(given, "immediate")
    ensures Truthy(Member(given, "shortTerm")) ==> p.shortTerm == Member(given, "shortTerm")
    ensures Truthy(Member(given, "longTerm")) ==> p.longTerm == Member(given, "longTerm")
    ensures !Truthy(Member(given, "immediate")) ==> p.immediate == Arr([])
    ensures !Truthy(Member(given, "shortTerm")) ==> p.shortTerm == Arr([])
    ensures !Truthy(Member(given, "longTerm")) ==> p.longTerm == Arr([])
  {
    TreatmentPlan(
      immediate := Or(Member(given, "immediate"), Arr([])),
      shortTerm := Or(Member(given, "shortTerm"), Arr([])),
      longTerm := Or(Member(given, "longTerm"), Arr([])))
  }

  /** The estimated cost: the provider's when truthy, else drawn from the table of
      the effective severity, always carrying currency 'VND'; drawing it throws
      exactly when that severity cannot be converted to a key. */
  function CostSlot(c: Catalog, raw: JsValue, severity: JsValue, d: Draws): (v: Result<JsValue>)
    requires c.Fits() && ValidDraws(d)
    ensures v.Ok? ==> Truthy(v.value)
    ensures Truthy(Member(raw, "estimatedCost")) ==> v == Ok(Member(raw, "estimatedCost"))
    ensures !Truthy(Member(raw, "estimatedCost")) ==> (v.Thrown? <==> KeyConversionThrows(severity))
    ensures !Truthy(Member(raw, "estimatedCost")) && v.Ok? ==>
      v.value == CostValue(EstimatedCost(c, severity, d.cost).value)
  {
    var given := Member(raw, "estimatedCost");
    if Truthy(given) then Ok(given)
    else match EstimatedCost(c, severity, d.cost)
      case Thrown(e) => Thrown(e)
      case Ok(cost) => Ok(CostValue(cost))
  }

  /** The image quality: `raw.metadata?.imageQuality` when truthy, else a drawn one
      of the four quality words. */
  function QualitySlot(raw: JsValue, d: Draws): (q: JsValue)
    requires ValidDraws(d)
    ensures Truthy(q)
    ensures var given := Member(Member(raw, "metadata"), "imageQuality");
      && (Truthy(given) ==> q == given)
      && (!Truthy(given) ==> q.Str? && q.s in ImageQualities)
  {
    Or(Member(Member(raw, "metadata"), "imageQuality"), Str(RandomImageQuality(d.imageQuality)))
  }

  /** The record normalisation builds once the severity, the two synthesized lists
      and the cost are settled: every other slot keeps the provider's truthy value or
      takes its default, 0 and "" included, while an empty list, being truthy, is
      kept. */
  function Assemble(c: Catalog, raw: JsValue, filename: string, analysisSource: string, severity: JsValue,
                    recommendations: JsValue, riskFactors: JsValue, estimatedCost: JsValue, d: Draws): (r: AnalysisResult)
    requires c.Fits() && ValidDraws(d) && Truthy(severity) && Truthy(recommendations) && Truthy(riskFactors)
    requires Truthy(estimatedCost)
    ensures r.file == filename && r.severity == severity
    ensures r.recommendations == recommendations && r.riskFactors == riskFactors
    ensures r.metadata.analysisSource == analysisSource
    ensures r.metadata.aiModelVersion == ModelVersion(analysisSource)
    ensures r.diagnosis == (if Truthy(Member(raw, "diagnosis")) then Member(raw, "diagnosis") else Str(DefaultDiagnosis))
    ensures r.confidence == (if Truthy(Member(raw, "confidence")) then Member(raw, "confidence") else Num(DefaultConfidence))
    ensures r.detailedFindings == NormalizeFindings(Member(raw, "detailedFindings"))
    ensures r.treatmentPlan == NormalizePlan(Member(raw, "treatmentPlan"))
    ensures r.followUpRequired ==
      (if Nullish(Member(raw, "followUpRequired")) then Bool(severity != Str("low")) else Member(raw, "followUpRequired"))
    ensures r.estimatedCost == estimatedCost
    ensures r.annotations == (if Truthy(Member(raw, "annotations")) then Member(raw, "annotations") else Arr([]))
    ensures r.metadata.imageQuality == QualitySlot(raw, d)
  {
    AnalysisResult(
      diagnosis := Or(Member(raw, "diagnosis"), Str(DefaultDiagnosis)),
      confidence := Or(Member(raw, "confidence"), Num(DefaultConfidence)),
      file := filename,
      severity := severity,
      recommendations := recommendations,
      detailedFindings := NormalizeFindings(Member(raw, "detailedFindings")),
      treatmentPlan := NormalizePlan(Member(raw, "treatmentPlan")),
      riskFactors := riskFactors,
      followUpRequired := Coalesce(Member(raw, "followUpRequired"), Bool(severity != Str("low"))),
      estimatedCost := estimatedCost,
      annotations := Or(Member(raw, "annotations"), Arr([])),
      metadata := Metadata(
        imageQuality := QualitySlot(raw, d),
        aiModelVersion := ModelVersion(analysisSource),
        analysisSource := analysisSource))
  }

  /** The assembled record leaves no slot empty. */
  lemma {:induction false} AssembleFilled(c: Catalog, raw: JsValue, filename: string, analysisSource: string,
                                          severity: JsValue, recommendations: JsValue, riskFactors: JsValue,
                                          estimatedCost: JsValue, d: Draws)
    requires c.Fits() && ValidDraws(d) && Truthy(severity) && Truthy(recommendations) && Truthy(riskFactors)
    requires Truthy(estimatedCost)
    ensures Assemble(c, raw, filename, analysisSource, severity, recommendations, riskFactors, estimatedCost, d).Filled()
  {
    var r := Assemble(c, raw, filename, analysisSource, severity, recommendations, riskFactors, estimatedCost, d);
    assert Truthy(r.diagnosis) && Truthy(r.confidence) && Truthy(r.annotations);
    assert !Nullish(r.followUpRequired);
  }

  /** The effective severity finds an inherited member, or fails to convert to a
      key, exactly when the provider's does: a drawn severity is one of the table's
      own keys, and a falsy value is never an object or an array. */
  lemma {:induction false} EffectiveSeverityLookup(raw: JsValue, d: Draws)
    ensures SeverityLookup(EffectiveSeverity(raw, d)).Inherited? <==> SeverityLookup(Member(raw, "severity")).Inherited?
    ensures KeyConversionThrows(EffectiveSeverity(raw, d)) <==> KeyConversionThrows(Member(raw, "severity"))
    ensures SelectorThrows(EffectiveSeverity(raw, d)) <==> SelectorThrows(Member(raw, "severity"))
  {
    var given := Member(raw, "severity");
    if !Truthy(given) {
      FalsyKeyNotInherited(given);
      NameLooksUpItself(SeverityOf(d.severity));
    }
  }

  /** The recommendations of the normalised record: the provider's when truthy,
      else synthesized for the effective severity, which throws exactly when that
      severity names an Object.prototype member or cannot be converted to a key
      (only a provider's severity can do either). */
  function RecommendationsSlot(c: Catalog, raw: JsValue, d: Draws): (r: Result<JsValue>)
    requires c.Fits() && ValidDraws(d)
    ensures r.Thrown? <==>
      !Truthy(Member(raw, "recommendations")) && SelectorThrows(Member(raw, "severity"))
    ensures r.Ok? ==> Truthy(r.value)
    ensures Truthy(Member(raw, "recommendations")) ==> r == Ok(Member(raw, "recommendations"))
    ensures r.Ok? && !Truthy(Member(raw, "recommendations")) ==>
      var synthesized := Recommendations(c, EffectiveSeverity(raw, d), d.recommendationCount, d.recommendationOrder);
      synthesized.Ok? && r.value == StrList(synthesized.value)
  {
    EffectiveSeverityLookup(raw, d);
    OrElse(Member(raw, "recommendations"),
           Recommendations(c, EffectiveSeverity(raw, d), d.recommendationCount, d.recommendationOrder))
  }

  /** The risk factors of the normalised record, on the same rule. */
  function RiskFactorsSlot(c: Catalog, raw: JsValue, d: Draws): (r: Result<JsValue>)
    requires c.Fits() && ValidDraws(d)
    ensures r.Thrown? <==>
      !Truthy(Member(raw, "riskFactors")) && SelectorThrows(Member(raw, "severity"))
    ensures r.Ok? ==> Truthy(r.value)
    ensures Truthy(Member(raw, "riskFactors")) ==> r == Ok(Member(raw, "riskFactors"))
    ensures r.Ok? && !Truthy(Member(raw, "riskFactors")) ==>
      var synthesized := RiskFactors(c, EffectiveSeverity(raw, d), d.riskCount, d.riskOrder);
      synthesized.Ok? && r.value == StrList(synthesized.value)
  {
    EffectiveSeverityLookup(raw, d);
    OrElse(Member(raw, "riskFactors"), RiskFactors(c, EffectiveSeverity(raw, d), d.riskCount, d.riskOrder))
  }

  /** normalizeAnalysisResult(raw, filename, startTime, analysisSource). It throws
      exactly when raw is null or undefined, when a selector must run on a provider's
      severity it fails on (recommendations or risk factors missing), or when the
      cost must be drawn for a provider's severity that cannot be converted to a key;
      otherwise it completes the record. */
  function Normalize(c: Catalog, raw: JsValue, filename: string, analysisSource: string, d: Draws): (r: Result<AnalysisResult>)
    requires c.Fits() && ValidDraws(d)
    ensures var severity := Member(raw, "severity");
      r.Thrown? <==>
        || Nullish(raw)
        || (SelectorThrows(severity) && (!Truthy(Member(raw, "recommendations")) || !Truthy(Member(raw, "riskFactors"))))
        || (KeyConversionThrows(severity) && !Truthy(Member(raw, "estimatedCost")))
    ensures r.Ok? ==>
      var recommendations := RecommendationsSlot(c, raw, d);
      var riskFactors := RiskFactorsSlot(c, raw, d);
      var estimatedCost := CostSlot(c, raw, EffectiveSeverity(raw, d), d);
      && recommendations.Ok? && riskFactors.Ok? && estimatedCost.Ok?
      && r.value == Assemble(c, raw, filename, analysisSource, EffectiveSeverity(raw, d),
                             recommendations.value, riskFactors.value, estimatedCost.value, d)
  {
    if Nullish(raw) then
      Thrown(TypeError("Cannot read properties of " + (if raw.Null? then "null" else "undefined")
                       + " (reading 'severity')"))
    else
      EffectiveSeverityLookup(raw, d);
      match RecommendationsSlot(c, raw, d)
      case Thrown(e) => Thrown(e)
      case Ok(recommendations) =>
        match RiskFactorsSlot(c, raw, d)
        case Thrown(e) => Thrown(e)
        case Ok(riskFactors) =>
          match CostSlot(c, raw, EffectiveSeverity(raw, d), d)
          case Thrown(e) =>
            assert KeyConversionThrows(Member(raw, "severity")) && !Truthy(Member(raw, "estimatedCost"));
            Thrown(e)
          case Ok(estimatedCost) =>
            Ok(Assemble(c, raw, filename, analysisSource, EffectiveSeverity(raw, d),
                        recommendations, riskFactors, estimatedCost, d))
  }

  /** A record normalisation returns leaves no slot empty. */
  lemma {:induction false} NormalizeFilled(c: Catalog, raw: JsValue, filename: string, analysisSource: string, d: Draws)
    requires c.Fits() && ValidDraws(d) && Normalize(c, raw, filename, analysisSource, d).Ok?
    ensures Normalize(c, raw, filename, analysisSource, d).value.Filled()
  {
    AssembleFilled(c, raw, filename, analysisSource, EffectiveSeverity(raw, d),
                   RecommendationsSlot(c, raw, d).value, RiskFactorsSlot(c, raw, d).value,
                   CostSlot(c, raw, EffectiveSeverity(raw, d), d).value, d);
  }

  /** Normalising an already complete report changes only the two metadata entries
      derived from the source; in particular normalisation is idempotent. */
  lemma {:induction false} NormalizeFilledReport(c: Catalog, r: AnalysisResult, analysisSource: string, d: Draws)
    requires c.Fits() && ValidDraws(d) && r.Filled()
    ensures Normalize(c, r.ToJs(), r.file, analysisSource, d) ==
      Ok(r.(metadata := Metadata(r.metadata.imageQuality, ModelVersion(analysisSource), analysisSource)))
  {
    ReadBackHead(r);
    ReadBackSelections(r);
    ReadBackBody(r);
    ReadBackTail(r);
    var v := r.ToJs();
    var n := Normalize(c, v, r.file, analysisSource, d);
    assert n.Ok?;
    assert n.value.detailedFindings == r.detailedFindings;
    assert n.value.treatmentPlan == r.treatmentPlan;
  }

  lemma {:induction false} NormalizeIdempotent(c: Catalog, raw: JsValue, filename: string, analysisSource: string, d: Draws, e: Draws)
    requires c.Fits() && ValidDraws(d) && ValidDraws(e) && Normalize(c, raw, filename, analysisSource, d).Ok?
    ensures var r := Normalize(c, raw, filename, analysisSource, d).value;
      Normalize(c, r.ToJs(), filename, analysisSource, e) == Ok(r)
  {
    var r := Normalize(c, raw, filename, analysisSource, d).value;
    NormalizeFilled(c, raw, filename, analysisSource, d);
    NormalizeFilledReport(c, r, analysisSource, e);
  }
}
