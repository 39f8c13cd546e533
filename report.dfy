/** The AnalysisResult record the service returns. Slots that may carry a provider's
    value verbatim hold a JsValue, because normalisation does not check their
    types; the date and the processing time of the metadata are not modelled. */
module Report {
  import opened Js

  datatype DetailedFindings = DetailedFindings(
    teethCondition: JsValue,
    boneStructure: JsValue,
    gumHealth: JsValue,
    rootCanals: JsValue,
    cavities: JsValue,
    periodontalStatus: JsValue)
  {
    predicate Filled() {
      && Truthy(teethCondition) && Truthy(boneStructure) && Truthy(gumHealth)
      && Truthy(rootCanals) && Truthy(cavities) && Truthy(periodontalStatus)
    }

    function ToJs(): (v: JsValue)
      ensures Member(v, "teethCondition") == teethCondition
      ensures Member(v, "boneStructure") == boneStructure
      ensures Member(v, "gumHealth") == gumHealth
      ensures Member(v, "rootCanals") == rootCanals
      ensures Member(v, "cavities") == cavities
      ensures Member(v, "periodontalStatus") == periodontalStatus
    {
      Obj(map[
        "teethCondition" := teethCondition, "boneStructure" := boneStructure,
        "gumHealth" := gumHealth, "rootCanals" := rootCanals,
        "cavities" := cavities, "periodontalStatus" := periodontalStatus])
    }
  }

  datatype TreatmentPlan = TreatmentPlan(immediate: JsValue, shortTerm: JsValue, longTerm: JsValue)
  {
    predicate Filled() {
      Truthy(immediate) && Truthy(shortTerm) && Truthy(longTerm)
    }

    function ToJs(): (v: JsValue)
      ensures Member(v, "immediate") == immediate
      ensures Member(v, "shortTerm") == shortTerm
      ensures Member(v, "longTerm") == longTerm
    {
      Obj(map["immediate" := immediate, "shortTerm" := shortTerm, "longTerm" := longTerm])
    }
  }

  datatype Metadata = Metadata(imageQuality: JsValue, aiModelVersion: string, analysisSource: string)
  {
    function ToJs(): (v: JsValue)
      ensures Member(v, "imageQuality") == imageQuality
    {
      Obj(map[
        "imageQuality" := imageQuality, "aiModelVersion" := Str(aiModelVersion),
        "analysisSource" := Str(analysisSource)])
    }
  }

  datatype AnalysisResult = AnalysisResult(
    diagnosis: JsValue,
    confidence: JsValue,
    file: string,
    severity: JsValue,
    recommendations: JsValue,
    detailedFindings: DetailedFindings,
    treatmentPlan: TreatmentPlan,
    riskFactors: JsValue,
    followUpRequired: JsValue,
    estimatedCost: JsValue,
    annotations: JsValue,
    metadata: Metadata)
  {
    /** No slot is left empty: every one holds a truthy value, except that the
        follow-up flag may be an explicit false (it is only never null or undefined). */
    predicate Filled() {
      && Truthy(diagnosis) && Truthy(confidence) && Truthy(severity)
      && Truthy(recommendations) && detailedFindings.Filled() && treatmentPlan.Filled()
      && Truthy(riskFactors) && !Nullish(followUpRequired) && Truthy(estimatedCost)
      && Truthy(annotations) && Truthy(metadata.imageQuality)
    }

    /** The record as the plain object a caller (or a second normalisation) reads. */
    function ToJs(): (v: JsValue)
      ensures v.Obj?
    {
      Obj(map[
        "diagnosis" := diagnosis, "confidence" := confidence, "file" := Str(file),
        "severity" := severity, "recommendations" := recommendations,
        "detailedFindings" := detailedFindings.ToJs(), "treatmentPlan" := treatmentPlan.ToJs(),
        "riskFactors" := riskFactors, "followUpRequired" := followUpRequired,
        "estimatedCost" := estimatedCost, "annotations" := annotations,
        "metadata" := metadata.ToJs()])
    }
  }

  /** Reading the report's slots back from its object form gives the slots. */
  lemma ReadBackHead(r: AnalysisResult)
    ensures Member(r.ToJs(), "diagnosis") == r.diagnosis
    ensures Member(r.ToJs(), "confidence") == r.confidence
  {
  }

  lemma ReadBackSelections(r: AnalysisResult)
    ensures Member(r.ToJs(), "severity") == r.severity
    ensures Member(r.ToJs(), "recommendations") == r.recommendations
  {
  }

  lemma ReadBackBody(r: AnalysisResult)
    ensures Member(r.ToJs(), "detailedFindings") == r.detailedFindings.ToJs()
    ensures Member(r.ToJs(), "treatmentPlan") == r.treatmentPlan.ToJs()
    ensures Member(r.ToJs(), "riskFactors") == r.riskFactors
    ensures Member(r.ToJs(), "followUpRequired") == r.followUpRequired
  {
  }

  lemma ReadBackTail(r: AnalysisResult)
    ensures Member(r.ToJs(), "estimatedCost") == r.estimatedCost
    ensures Member(r.ToJs(), "annotations") == r.annotations
    ensures Member(r.ToJs(), "metadata") == r.metadata.ToJs()
  {
  }

  /** One box drawn on the X-ray; `caption` is its `label` property. */
  datatype Annotation = Annotation(
    caption: JsValue,
    x: int,
    y: int,
    width: int,
    height: int,
    confidence: real,
    description: string)
  {
    function ToJs(): (v: JsValue)
      ensures Member(v, "label") == caption
      ensures Member(v, "x") == Num(x as real) && Member(v, "y") == Num(y as real)
      ensures Member(v, "width") == Num(width as real) && Member(v, "height") == Num(height as real)
      ensures Member(v, "confidence") == Num(confidence) && Member(v, "description") == Str(description)
    {
      Obj(map[
        "label" := caption, "x" := Num(x as real), "y" := Num(y as real),
        "width" := Num(width as real), "height" := Num(height as real),
        "confidence" := Num(confidence), "description" := Str(description)])
    }
  }
}
