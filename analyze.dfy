/** AnalyzeService.analyzeXray: the provider chain (Gemini, then the AI backend,
    then a fabricated report), normalisation of whatever was obtained, the attempt to
    persist it, and the catch-all that answers with a fresh fabricated report when
    anything on the way throws. */
module Analyze {
  import opened Js
  import opened Oracle
  import opened Tables
  import opened Synthesis
  import opened Report
  import opened Normalization
  import opened Fallback
  import opened Gemini
  import Content

  const DefaultBackendUrl := "http://localhost:5000/predict"

  /** The providers analyzeXray may call, in the order it may call them. */
  datatype Provider = GeminiProvider | BackendProvider

  /** Everything analyzeXray depends on besides its arguments: the Gemini adapter's
      oracles; the backend's answer to a POST of the file to a URL (`response.data`,
      or an exception); `fs.statSync(filePath).size` and whether
      `analysisDoc.save()` resolves; and the random draws of the fabricated report,
      of normalisation, and of the report the catch-all fabricates. */
  datatype Environment = Environment(
    gemini: GeminiIo,
    backend: (string, string, string) -> Result<JsValue>,
    stat: string -> Result<nat>,
    persists: bool,
    fallback: Draws,
    normalize: Draws,
    rescue: Draws)
  {
    ghost predicate Valid() {
      gemini.quality.Valid() && ValidDraws(fallback) && ValidDraws(normalize) && ValidDraws(rescue)
    }
  }

  // ---------------------------------------------------------------- persistence

  /** The fields of the stored document the model keeps; its dates are left out. */
  datatype AnalysisDocument = AnalysisDocument(
    imageUrl: string,
    originalFilename: string,
    fileSize: nat,
    mimeType: JsValue,
    analysisSource: string,
    report: AnalysisResult)

  /** How saveAnalysisToDatabase ends: with the document stored, or with the
      failure logged. It never throws. */
  datatype SaveOutcome = Saved(doc: AnalysisDocument) | FailureLogged

  /** saveAnalysisToDatabase(result, filePath, filename): the document is stored
      when the file can be stat'ed and the save resolves; any failure is swallowed. */
  function SaveAnalysis(result: AnalysisResult, filePath: string, filename: string,
                        stat: string -> Result<nat>, persists: bool): (o: SaveOutcome)
    ensures o.Saved? <==> stat(filePath).Ok? && persists
    ensures o.Saved? ==>
      && o.doc.imageUrl == "/uploads/" + filename && o.doc.originalFilename == filename
      && o.doc.fileSize == stat(filePath).value && o.doc.mimeType == MimeTypeOf(filename)
      && o.doc.analysisSource == result.metadata.analysisSource && o.doc.report == result
  {
    match stat(filePath)
    case Thrown(_) => FailureLogged
    case Ok(size) =>
      if persists then
        Saved(AnalysisDocument("/uploads/" + filename, filename, size, MimeTypeOf(filename),
                               result.metadata.analysisSource, result))
      else FailureLogged
  }

  // ---------------------------------------------------------------- the chain

  /** The raw result, its source label and the providers called, after the first two
      stages of the chain. */
  datatype Acquisition = Acquisition(raw: JsValue, source: string, consulted: seq<Provider>)

  /** Stage 1: Gemini, only when available; a failure is logged and ignored, and a
      success records the answer and the label 'gemini'. */
  function GeminiStage(available: bool, fromGemini: Result<JsValue>): (a: Acquisition)
    ensures a.consulted == if available then [GeminiProvider] else []
    ensures available && fromGemini.Ok? ==> a.raw == fromGemini.value && a.source == "gemini"
    ensures !(available && fromGemini.Ok?) ==> a.raw == Undefined && a.source == "fallback"
  {
    if available && fromGemini.Ok? then Acquisition(fromGemini.value, "gemini", [GeminiProvider])
    else if available then Acquisition(Undefined, "fallback", [GeminiProvider])
    else Acquisition(Undefined, "fallback", [])
  }

  /** Stage 2: the backend, whenever there is still no truthy result; a success
      records its body and the label 'ai_backend', even a falsy body. */
  function BackendStage(a: Acquisition, fromBackend: Result<JsValue>): (b: Acquisition)
    ensures Truthy(a.raw) ==> b == a
    ensures !Truthy(a.raw) ==> b.consulted == a.consulted + [BackendProvider]
    ensures !Truthy(a.raw) && fromBackend.Ok? ==> b.raw == fromBackend.value && b.source == "ai_backend"
    ensures !Truthy(a.raw) && fromBackend.Thrown? ==> b.raw == a.raw && b.source == a.source
  {
    if Truthy(a.raw) then a
    else match fromBackend
      case Ok(data) => Acquisition(data, "ai_backend", a.consulted + [BackendProvider])
      case Thrown(_) => a.(consulted := a.consulted + [BackendProvider])
  }

  /** Stages 1 and 2: each provider is called at most once, Gemini first, and the
      backend exactly when Gemini gave no truthy result. */
  function Acquire(available: bool, fromGemini: Result<JsValue>, fromBackend: Result<JsValue>): (a: Acquisition)
    ensures GeminiProvider in a.consulted <==> available
    ensures BackendProvider in a.consulted <==> !(available && fromGemini.Ok? && Truthy(fromGemini.value))
    ensures Distinct(a.consulted) && (|a.consulted| == 2 ==> a.consulted == [GeminiProvider, BackendProvider])
  {
    BackendStage(GeminiStage(available, fromGemini), fromBackend)
  }

  /** The label stage 3 leaves: the provider's when it gave a truthy result, else
      'fallback'. */
  function FinalSource(a: Acquisition): string {
    if Truthy(a.raw) then a.source else "fallback"
  }

  /** Stage 3: with still no truthy result, the fabricated report, labelled
      'fallback'. Returns what normalisation is given. */
  function LastResort(c: Catalog, a: Acquisition, filename: string, d: Draws): (input: (JsValue, string))
    requires c.Fits() && ValidDraws(d)
    ensures Truthy(input.0) && input.1 == FinalSource(a)
    ensures Truthy(a.raw) ==> input.0 == a.raw
    ensures !Truthy(a.raw) ==> input.0 == FallbackAnalysis(c, filename, d).ToJs()
  {
    if Truthy(a.raw) then (a.raw, a.source) else (FallbackAnalysis(c, filename, d).ToJs(), "fallback")
  }

  /** Stages 1 and 2 for the real providers. */
  function AcquireFor(c: Catalog, available: bool, backendUrl: string, filePath: string, filename: string,
                      env: Environment): Acquisition
    requires env.Valid()
  {
    Acquire(available, GeminiAnalysis(available, filePath, env.gemini), env.backend(backendUrl, filePath, filename))
  }

  /** Normalisation of what the chain obtained, with the catch-all around it: when
      normalisation throws, a fresh fabricated report that is not normalised. */
  function Finish(c: Catalog, input: (JsValue, string), filename: string, env: Environment): AnalysisResult
    requires c.Fits() && env.Valid()
  {
    match Normalize(c, input.0, filename, input.1, env.normalize)
    case Ok(n) => n
    case Thrown(_) => FallbackAnalysis(c, filename, env.rescue)
  }

  /** analyzeXray as a value. The persistence outcome plays no part. */
  function AnalysisOf(c: Catalog, available: bool, backendUrl: string, filePath: string, filename: string,
                      env: Environment): AnalysisResult
    requires c.Fits() && env.Valid()
  {
    Finish(c, LastResort(c, AcquireFor(c, available, backendUrl, filePath, filename, env), filename, env.fallback),
           filename, env)
  }

  /** Whatever normalisation does, the answer is a complete report for the file:
      the normalised one, labelled with the source it was given, or the catch-all's
      fabricated one. */
  lemma {:induction false} FinishComplete(c: Catalog, input: (JsValue, string), filename: string, env: Environment)
    requires c.Fits() && env.Valid()
    ensures var r := Finish(c, input, filename, env);
      var n := Normalize(c, input.0, filename, input.1, env.normalize);
      && r.Filled() && r.file == filename
      && (n.Ok? ==> r == n.value && r.metadata.analysisSource == input.1)
      && (n.Thrown? ==> r == FallbackAnalysis(c, filename, env.rescue))
  {
    if Normalize(c, input.0, filename, input.1, env.normalize).Thrown? {
      FallbackFilled(c, filename, env.rescue);
    } else {
      NormalizeFilled(c, input.0, filename, input.1, env.normalize);
    }
  }

  /** The label normalisation records: 'gemini' exactly when Gemini was available
      and answered, 'ai_backend' exactly when it did not and the backend answered with
      a truthy body, 'fallback' otherwise (a falsy backend body included, although
      the backend call set the label to 'ai_backend'). */
  lemma {:induction false} SourcePrecedence(available: bool, fromGemini: Result<JsValue>, fromBackend: Result<JsValue>)
    requires fromGemini.Ok? ==> fromGemini.value.Obj?
    ensures var source := FinalSource(Acquire(available, fromGemini, fromBackend));
      && (source == "gemini" <==> available && fromGemini.Ok?)
      && (source == "ai_backend" <==>
            !(available && fromGemini.Ok?) && fromBackend.Ok? && Truthy(fromBackend.value))
      && (source == "fallback" <==>
            !(available && fromGemini.Ok?) && !(fromBackend.Ok? && Truthy(fromBackend.value)))
  {
  }

  /** Stage 3's fabricated report always normalises: the catch-all can only be
      reached on a provider's answer. */
  lemma {:induction false} LastResortNormalizes(c: Catalog, a: Acquisition, filename: string, env: Environment)
    requires c.Fits() && env.Valid() && !Truthy(a.raw)
    ensures var input := LastResort(c, a, filename, env.fallback);
      Normalize(c, input.0, filename, input.1, env.normalize).Ok?
  {
    FallbackFilled(c, filename, env.fallback);
    FallbackSurvivesNormalize(c, filename, env.fallback, env.normalize);
  }

  /** analyzeXray never fails: every path ends in a complete report for the file.
      When normalisation throws, the answer is the catch-all's fabricated report, and
      that happens only on a provider's answer. */
  lemma {:induction false} AnalysisIsComplete(c: Catalog, available: bool, backendUrl: string, filePath: string,
                                              filename: string, env: Environment)
    requires c.Fits() && env.Valid()
    ensures var a := AcquireFor(c, available, backendUrl, filePath, filename, env);
      var input := LastResort(c, a, filename, env.fallback);
      var r := AnalysisOf(c, available, backendUrl, filePath, filename, env);
      && r.Filled() && r.file == filename
      && (Normalize(c, input.0, filename, input.1, env.normalize).Thrown? ==>
            Truthy(a.raw) && r == FallbackAnalysis(c, filename, env.rescue))
  {
    var a := AcquireFor(c, available, backendUrl, filePath, filename, env);
    var input := LastResort(c, a, filename, env.fallback);
    FinishComplete(c, input, filename, env);
    if !Truthy(a.raw) {
      LastResortNormalizes(c, a, filename, env);
    }
  }

  /** A provider answer whose severity names an Object.prototype member and that
      brings no recommendations makes normalisation throw, so the catch-all answers. */
  lemma {:induction false} PrototypeSeverityIsRescued(c: Catalog, raw: JsValue, filename: string, source: string, d: Draws)
    requires c.Fits() && ValidDraws(d)
    requires raw.Obj? && Member(raw, "severity").Str? && Member(raw, "severity").s in ObjectPrototypeMembers
    requires !Truthy(Member(raw, "recommendations"))
    ensures Normalize(c, raw, filename, source, d).Thrown?
  {
    PrototypeKeysInherited(Member(raw, "severity").s);
  }

  /** A provider answer whose severity is an object with its own "toString" cannot be
      converted to a table key; when the cost has to be drawn for it, normalisation
      throws and the catch-all answers. */
  lemma {:induction false} UnconvertibleSeverityIsRescued(c: Catalog, raw: JsValue, filename: string, source: string,
                                                          props: map<string, JsValue>, d: Draws)
    requires c.Fits() && ValidDraws(d)
    requires raw.Obj? && Member(raw, "severity") == Obj(props) && "toString" in props
    requires !Truthy(Member(raw, "estimatedCost"))
    ensures Normalize(c, raw, filename, source, d).Thrown?
  {
    assert KeyConversionThrows(Member(raw, "severity"));
  }

  /** Normalisation does not rescale a provider's confidence: a value on Gemini's
      0-100 scale reaches the report as it is, next to the 0-1 values of the other
      sources, whenever normalisation does not throw. */
  lemma {:induction false} ConfidenceScaleKept(c: Catalog, raw: JsValue, filename: string, source: string, x: real, d: Draws)
    requires c.Fits() && ValidDraws(d)
    requires raw.Obj? && Member(raw, "confidence") == Num(x) && x != 0.0
    requires !SelectorThrows(Member(raw, "severity"))
    ensures var n := Normalize(c, raw, filename, source, d);
      n.Ok? && n.value.confidence == Num(x)
  {
  }

  /** The report's detailed findings have no pulpCondition slot: Gemini's finding of
      that name is dropped. */
  lemma {:induction false} PulpConditionDropped(given: JsValue)
    ensures Member(NormalizeFindings(given).ToJs(), "pulpCondition") == Undefined
  {
    var f := NormalizeFindings(given).ToJs();
    assert "pulpCondition" !in f.props;
  }

  /** The service. The content tables are held in `catalog`; the constructor sets
      them to the source's own text. */
  class AnalyzeService {
    const catalog: Catalog
    const aiBackendUrl: string
    const gemini: GeminiService

    /** `configService.get('AI_BACKEND_URL') || 'http://localhost:5000/predict'`. */
    constructor(backendUrlSetting: Option<string>, gemini: GeminiService)
      ensures catalog == Content.Source && catalog.Fits()
      ensures backendUrlSetting.Some? && backendUrlSetting.value != "" ==> aiBackendUrl == backendUrlSetting.value
      ensures backendUrlSetting.None? || backendUrlSetting.value == "" ==> aiBackendUrl == DefaultBackendUrl
      ensures this.gemini == gemini
    {
      Content.SourceFits();
      catalog := Content.Source;
      aiBackendUrl := if backendUrlSetting.Some? && backendUrlSetting.value != "" then backendUrlSetting.value
                      else DefaultBackendUrl;
      this.gemini := gemini;
    }

    /** Stage 1 of analyzeXray: the locals `analysisResult` and `analysisSource`
        after the guarded Gemini call, and the calls made. */
    method TryGemini(filePath: string, env: Environment)
      returns (analysisResult: JsValue, analysisSource: string, consulted: seq<Provider>)
      requires env.Valid()
      ensures Acquisition(analysisResult, analysisSource, consulted) ==
        GeminiStage(gemini.IsAvailable(), GeminiAnalysis(gemini.IsAvailable(), filePath, env.gemini))
    {
      analysisResult := Undefined;
      analysisSource := "fallback";
      consulted := [];
      if gemini.IsAvailable() {
        consulted := consulted + [GeminiProvider];
        var fromGemini := gemini.AnalyzeXrayImage(filePath, env.gemini);
        if fromGemini.Ok? {
          analysisResult := fromGemini.value;
          analysisSource := "gemini";
        }
      }
    }

    /** Stage 2 of analyzeXray: the backend call when there is still no truthy
        result. */
    method TryBackend(prior: Acquisition, filePath: string, filename: string, env: Environment)
      returns (analysisResult: JsValue, analysisSource: string, consulted: seq<Provider>)
      ensures Acquisition(analysisResult, analysisSource, consulted) ==
        BackendStage(prior, env.backend(aiBackendUrl, filePath, filename))
    {
      analysisResult, analysisSource, consulted := prior.raw, prior.source, prior.consulted;
      if !Truthy(analysisResult) {
        consulted := consulted + [BackendProvider];
        var response := env.backend(aiBackendUrl, filePath, filename);
        if response.Ok? {
          analysisResult := response.value;
          analysisSource := "ai_backend";
        }
      }
    }

    /** Stage 3 of analyzeXray: with still no truthy result, the fabricated report. */
    method UseFallbackIfEmpty(analysisResult: JsValue, analysisSource: string, filename: string, env: Environment)
      returns (raw: JsValue, source: string)
      requires catalog.Fits() && env.Valid()
      ensures (raw, source) == LastResort(catalog, Acquisition(analysisResult, analysisSource, []), filename, env.fallback)
    {
      raw, source := analysisResult, analysisSource;
      if !Truthy(raw) {
        raw := FallbackAnalysis(catalog, filename, env.fallback).ToJs();
        source := "fallback";
      }
    }

    /** The end of analyzeXray: normalise, then save. The record is handed to
        persistence exactly when normalisation succeeded; when it threw, the catch-all
        answered before any save (None). */
    method NormalizeAndSave(raw: JsValue, source: string, filePath: string, filename: string, env: Environment)
      returns (result: AnalysisResult, saved: Option<SaveOutcome>)
      requires catalog.Fits() && env.Valid()
      ensures result == Finish(catalog, (raw, source), filename, env)
      ensures saved.Some? <==> Normalize(catalog, raw, filename, source, env.normalize).Ok?
      ensures saved.Some? ==> saved.value == SaveAnalysis(result, filePath, filename, env.stat, env.persists)
    {
      var normalized := Normalize(catalog, raw, filename, source, env.normalize);
      if normalized.Thrown? {
        return FallbackAnalysis(catalog, filename, env.rescue), None;
      }
      result := normalized.value;
      saved := Some(SaveAnalysis(result, filePath, filename, env.stat, env.persists));
    }

    /** analyzeXray(filePath, filename): besides the report, which providers were
        called, and how persistence ended. */
    method AnalyzeXray(filePath: string, filename: string, env: Environment)
      returns (result: AnalysisResult, consulted: seq<Provider>, saved: Option<SaveOutcome>)
      requires catalog.Fits() && env.Valid()
      ensures result == AnalysisOf(catalog, gemini.IsAvailable(), aiBackendUrl, filePath, filename, env)
      ensures consulted == AcquireFor(catalog, gemini.IsAvailable(), aiBackendUrl, filePath, filename, env).consulted
      ensures var input := LastResort(catalog, AcquireFor(catalog, gemini.IsAvailable(), aiBackendUrl, filePath, filename, env),
                                      filename, env.fallback);
        saved.Some? <==> Normalize(catalog, input.0, filename, input.1, env.normalize).Ok?
      ensures saved.Some? ==> saved.value == SaveAnalysis(result, filePath, filename, env.stat, env.persists)
    {
      var analysisResult, analysisSource;
      analysisResult, analysisSource, consulted := TryGemini(filePath, env);
      analysisResult, analysisSource, consulted :=
        TryBackend(Acquisition(analysisResult, analysisSource, consulted), filePath, filename, env);
      ghost var acquired := AcquireFor(catalog, gemini.IsAvailable(), aiBackendUrl, filePath, filename, env);
      assert analysisResult == acquired.raw && analysisSource == acquired.source;
      analysisResult, analysisSource := UseFallbackIfEmpty(analysisResult, analysisSource, filename, env);
      assert (analysisResult, analysisSource) == LastResort(catalog, acquired, filename, env.fallback);
      result, saved := NormalizeAndSave(analysisResult, analysisSource, filePath, filename, env);
    }
  }
}
