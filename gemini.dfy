/** GeminiService: the adapter that sends an X-ray to the Gemini model and turns its
    free-text answer into an object. The SDK call, the file read and JSON.parse are
    oracles of a GeminiIo value; what the adapter itself decides is modelled: the
    availability gate, the greedy extraction of the JSON span, the mapping of parse
    failures to one error, and the fields it writes onto the parsed object. */
module Gemini {
  import opened Js
  import opened Oracle
  import opened Tables
  import Text

  const ModelName := "gemini-1.5-flash"
  const AnalysisVersion := "1.0.0"
  const NotInitialized := "Gemini model not initialized"
  const InvalidFormat := "Invalid response format from Gemini"

  // ---------------------------------------------------------------- JSON span

  /** text[i..j+1] is what `/\{[\s\S]*\}/` matches: it opens at the first '{' of
      the text and, the star being greedy, closes at the last '}'. */
  predicate IsGreedySpan(text: string, i: int, j: int) {
    && 0 <= i < j < |text| && text[i] == '{' && text[j] == '}'
    && (forall k :: 0 <= k < i ==> text[k] != '{')
    && (forall k :: j < k < |text| ==> text[k] != '}')
  }

  /** `text.match(/\{[\s\S]*\}/)?.[0]`: there is a match exactly when some '{' comes
      before some '}', and it runs from the first '{' to the last '}', whether or not
      the braces between them balance. */
  function ExtractJson(text: string): (r: Option<string>)
    ensures r.Some? <==> exists i, j :: 0 <= i < j < |text| && text[i] == '{' && text[j] == '}'
    ensures r.Some? ==> exists i, j :: IsGreedySpan(text, i, j) && r.value == text[i..j + 1]
  {
    var i := Text.IndexOf(text, '{');
    var j := Text.LastIndexOf(text, '}');
    if i < j then
      assert IsGreedySpan(text, i, j);
      Some(text[i..j + 1])
    else
      assert forall a, b :: 0 <= a < b < |text| && text[a] == '{' && text[b] == '}' ==> i <= a && b <= j;
      None
  }

  /** Two objects side by side are taken as one span, which is not valid JSON. */
  lemma ExtractJsonIsNotBalanced()
    ensures ExtractJson("{a} {b}") == Some("{a} {b}")
    ensures ExtractJson("} {") == None
  {
    var t := "{a} {b}";
    assert Text.IndexOf(t, '{') == 0 && Text.LastIndexOf(t, '}') == 6;
    assert t[0..7] == t;
    var u := "} {";
    assert u[0] == '}' && u[1] == ' ' && u[2] == '{';
  }

  // ---------------------------------------------------------------- MIME type

  const GeminiMimeTypes: map<string, string> := map[
    ".jpg" := "image/jpeg", ".jpeg" := "image/jpeg", ".png" := "image/png",
    ".gif" := "image/gif", ".webp" := "image/webp"]

  /** getMimeType of GeminiService: the lower-cased `path.extname` of the path,
      switched over five image extensions; anything else, no extension included,
      is sent as JPEG. */
  function GeminiMimeType(filePath: string): (m: string)
    ensures var ext := Text.Lower(Text.Extname(filePath));
      && (ext in GeminiMimeTypes ==> m == GeminiMimeTypes[ext])
      && (ext !in GeminiMimeTypes ==> m == "image/jpeg")
  {
    var ext := Text.Lower(Text.Extname(filePath));
    if ext in GeminiMimeTypes then GeminiMimeTypes[ext] else "image/jpeg"
  }

  // ---------------------------------------------------------------- image quality

  const Qualities: seq<string> := ["Tốt", "Khá tốt", "Trung bình", "Cần cải thiện"]
  const Positions: seq<string> := ["Chính xác", "Hơi lệch", "Cần điều chỉnh"]

  /** The four `Math.random()` values assessImageQuality consumes. */
  datatype QualityDraws = QualityDraws(resolution: real, clarity: real, positioning: real, overall: real)
  {
    predicate Valid() {
      InUnit(resolution) && InUnit(clarity) && InUnit(positioning) && InUnit(overall)
    }
  }

  /** assessImageQuality: three ratings from the quality words and a positioning
      verdict from the position words. */
  function AssessImageQuality(q: QualityDraws): (v: JsValue)
    requires q.Valid()
    ensures Truthy(v)
    ensures Member(v, "resolution").Str? && Member(v, "resolution").s in Qualities
    ensures Member(v, "clarity").Str? && Member(v, "clarity").s in Qualities
    ensures Member(v, "positioning").Str? && Member(v, "positioning").s in Positions
    ensures Member(v, "overall").Str? && Member(v, "overall").s in Qualities
  {
    Obj(map[
      "resolution" := Str(Qualities[Pick(q.resolution, |Qualities|)]),
      "clarity" := Str(Qualities[Pick(q.clarity, |Qualities|)]),
      "positioning" := Str(Positions[Pick(q.positioning, |Positions|)]),
      "overall" := Str(Qualities[Pick(q.overall, |Qualities|)])])
  }

  // ---------------------------------------------------------------- cost breakdown

  /** One entry of baseCosts, in VND. */
  datatype BaseCost = BaseCost(consultation: nat, treatment: nat, followUp: nat, emergency: nat)
  {
    function ToJs(): (v: JsValue)
      ensures Member(v, "emergency") == Num(emergency as real)
    {
      Obj(map[
        "consultation" := Num(consultation as real), "treatment" := Num(treatment as real),
        "followUp" := Num(followUp as real), "emergency" := Num(emergency as real)])
    }

    /** Every component is at most the other's. */
    predicate Below(other: BaseCost) {
      && consultation <= other.consultation && treatment <= other.treatment
      && followUp <= other.followUp && emergency <= other.emergency
    }
  }

  function BaseCostOf(s: Severity): BaseCost {
    match s
    case Low => BaseCost(200000, 500000, 150000, 0)
    case Medium => BaseCost(300000, 1000000, 200000, 300000)
    case High => BaseCost(500000, 2000000, 300000, 500000)
    case Critical => BaseCost(800000, 5000000, 500000, 1000000)
  }

  /** Costs never fall as severity rises, and only a low case has no emergency cost. */
  lemma {:induction false} BaseCostMonotone(s: Severity, t: Severity)
    requires s.Rank() <= t.Rank()
    ensures BaseCostOf(s).Below(BaseCostOf(t))
    ensures BaseCostOf(s).emergency == 0 <==> s == Low
  {
  }

  /** generateCostBreakdown(severity): `baseCosts[severity] || baseCosts.medium`. An
      own key gives its entry and any other key the medium entry, except a key naming
      an Object.prototype member, whose (truthy) inherited member is returned, and a
      key that cannot be converted, which throws. */
  function CostBreakdown(severity: JsValue): (v: Result<JsValue>)
    ensures v.Thrown? <==> KeyConversionThrows(severity)
    ensures v.Thrown? ==> v.error == TypeError(UnconvertibleKey)
    ensures v.Ok? ==> Truthy(v.value)
    ensures SeverityLookup(severity).Own? ==> v == Ok(BaseCostOf(SeverityLookup(severity).value).ToJs())
    ensures SeverityLookup(severity).Missing? ==> v == Ok(BaseCostOf(Medium).ToJs())
    ensures SeverityLookup(severity).Inherited? ==> v == Ok(Builtin(SeverityLookup(severity).member))
  {
    match SeverityLookup(severity)
    case Own(s) => Ok(BaseCostOf(s).ToJs())
    case Inherited(member) => Ok(Builtin(member))
    case Missing => Ok(BaseCostOf(Medium).ToJs())
    case Unconvertible => Thrown(TypeError(UnconvertibleKey))
  }

  // ---------------------------------------------------------------- analysis

  /** What analyzeXrayImage depends on besides its own logic: `fs.readFileSync`,
      the model call with its prompt (given the MIME type and the image bytes, it
      yields the response text or throws), `JSON.parse` on the extracted span (an
      object, since the span opens with '{', or a SyntaxError), and the draws of
      assessImageQuality. */
  datatype GeminiIo = GeminiIo(
    readFile: string -> Result<seq<bv8>>,
    generate: (string, seq<bv8>) -> Result<string>,
    parse: string -> Option<map<string, JsValue>>,
    quality: QualityDraws)

  /** The metadata analyzeXrayImage writes over the parsed one; its processing time
      and timestamp are not modelled. It has no image quality. */
  function GeminiMetadata(): (v: JsValue)
    ensures Member(v, "aiModel") == Str(ModelName)
    ensures Member(v, "analysisVersion") == Str(AnalysisVersion)
    ensures Member(v, "imageQuality") == Undefined
  {
    Obj(map["aiModel" := Str(ModelName), "analysisVersion" := Str(AnalysisVersion)])
  }

  /** The keys analyzeXrayImage writes onto the parsed object. */
  const WrittenKeys: set<string> := {"metadata", "imageQuality", "costBreakdown"}

  /** The parsed object after its three assignments: metadata replaced, image quality
      and cost breakdown added (the breakdown for the parsed severity), everything
      else left as the model wrote it. Building the breakdown throws exactly when the
      parsed severity cannot be converted to a key. */
  function PostProcess(parsed: map<string, JsValue>, q: QualityDraws): (r: Result<JsValue>)
    requires q.Valid()
    ensures r.Thrown? <==> KeyConversionThrows(Member(Obj(parsed), "severity"))
    ensures r.Ok? ==> r.value.Obj? && r.value.props.Keys == parsed.Keys + WrittenKeys
    ensures r.Ok? ==> forall k :: k in parsed && k !in WrittenKeys ==> r.value.props[k] == parsed[k]
    ensures r.Ok? ==> Member(r.value, "metadata") == GeminiMetadata()
    ensures r.Ok? ==> Member(r.value, "imageQuality") == AssessImageQuality(q)
    ensures r.Ok? ==> Ok(Member(r.value, "costBreakdown")) == CostBreakdown(Member(Obj(parsed), "severity"))
  {
    match CostBreakdown(Member(Obj(parsed), "severity"))
    case Thrown(e) => Thrown(e)
    case Ok(breakdown) =>
      Ok(Obj(parsed["metadata" := GeminiMetadata()]["imageQuality" := AssessImageQuality(q)]
                   ["costBreakdown" := breakdown]))
  }

  /** Writing the metadata and the image quality leaves the severity as parsed. */
  lemma SeverityUntouched(parsed: map<string, JsValue>, q: QualityDraws)
    requires q.Valid()
    ensures var written := parsed["metadata" := GeminiMetadata()]["imageQuality" := AssessImageQuality(q)];
      Member(Obj(written), "severity") == Member(Obj(parsed), "severity")
  {
  }

  /** analyzeXrayImage as a value: the availability gate first, then the file read
      and the model call, whose failures propagate as they are, then extraction,
      parsing and post-processing, whose failures all become InvalidFormat. */
  function GeminiAnalysis(available: bool, imagePath: string, io: GeminiIo): (r: Result<JsValue>)
    requires io.quality.Valid()
    ensures !available ==> r == Thrown(Error(NotInitialized))
    ensures r.Ok? ==> r.value.Obj?
  {
    if !available then Thrown(Error(NotInitialized))
    else match io.readFile(imagePath)
      case Thrown(e) => Thrown(e)
      case Ok(image) =>
        match io.generate(GeminiMimeType(imagePath), image)
        case Thrown(e) => Thrown(e)
        case Ok(text) =>
          match ExtractJson(text)
          case None => Thrown(Error(InvalidFormat))
          case Some(span) =>
            match io.parse(span)
            case None => Thrown(Error(InvalidFormat))
            case Some(parsed) =>
              match PostProcess(parsed, io.quality)
              case Thrown(_) => Thrown(Error(InvalidFormat))
              case Ok(v) => Ok(v)
  }

  /** Once the model has answered, the call fails exactly when the answer holds no
      brace-delimited span, the span does not parse, or the parsed severity cannot be
      converted to a key, and then always with InvalidFormat; a success is the parsed
      object post-processed. */
  lemma {:induction false} AnswerHandling(imagePath: string, io: GeminiIo, image: seq<bv8>, text: string)
    requires io.quality.Valid()
    requires io.readFile(imagePath) == Ok(image)
    requires io.generate(GeminiMimeType(imagePath), image) == Ok(text)
    ensures var r := GeminiAnalysis(true, imagePath, io);
      && (r.Thrown? <==>
            || ExtractJson(text).None? || io.parse(ExtractJson(text).value).None?
            || KeyConversionThrows(Member(Obj(io.parse(ExtractJson(text).value).value), "severity")))
      && (r.Thrown? ==> r.error == Error(InvalidFormat))
      && (r.Ok? ==> r == PostProcess(io.parse(ExtractJson(text).value).value, io.quality))
  {
  }

  /** An answer whose severity is an object with its own "toString", or an array
      holding one, is refused with InvalidFormat: building the cost breakdown throws
      inside the same try. */
  lemma {:induction false} UnconvertibleSeverityRefused(imagePath: string, io: GeminiIo, image: seq<bv8>, text: string,
                                                        props: map<string, JsValue>)
    requires io.quality.Valid()
    requires io.readFile(imagePath) == Ok(image)
    requires io.generate(GeminiMimeType(imagePath), image) == Ok(text)
    requires ExtractJson(text).Some? && io.parse(ExtractJson(text).value).Some?
    requires "toString" in props
    requires var severity := Member(Obj(io.parse(ExtractJson(text).value).value), "severity");
      severity == Obj(props) || severity == Arr([Obj(props)])
    ensures GeminiAnalysis(true, imagePath, io) == Thrown(Error(InvalidFormat))
  {
    assert KeyConversionThrows(Obj(props));
    assert Arr([Obj(props)]).items[0] == Obj(props);
  }

  /** Failures before the answer arrives (reading the file, calling the model) reach
      the caller unchanged; none of them is reported as a format error. */
  lemma {:induction false} TransportErrorsPropagate(imagePath: string, io: GeminiIo)
    requires io.quality.Valid()
    ensures io.readFile(imagePath).Thrown? ==>
      GeminiAnalysis(true, imagePath, io) == Thrown(io.readFile(imagePath).error)
    ensures io.readFile(imagePath).Ok? && io.generate(GeminiMimeType(imagePath), io.readFile(imagePath).value).Thrown? ==>
      GeminiAnalysis(true, imagePath, io) ==
        Thrown(io.generate(GeminiMimeType(imagePath), io.readFile(imagePath).value).error)
  {
  }

  /** A successful answer never carries an image quality inside its metadata, so
      normalisation always draws one for a Gemini report. */
  lemma {:induction false} GeminiMetadataHasNoQuality(imagePath: string, io: GeminiIo)
    requires io.quality.Valid() && GeminiAnalysis(true, imagePath, io).Ok?
    ensures Member(Member(GeminiAnalysis(true, imagePath, io).value, "metadata"), "imageQuality") == Undefined
  {
  }

  /** The service: `genAI` and `model` are set by the constructor only when an API
      key is configured. The client is represented by the key it was built with and
      the model by its name. */
  class GeminiService {
    var genAI: Option<string>
    var model: Option<string>

    /** `configService.get('GENMINI_API_KEY')` is the parameter; a missing or empty
        key leaves both fields unset. */
    constructor(apiKey: Option<string>)
      ensures model.Some? <==> apiKey.Some? && apiKey.value != ""
      ensures model.Some? ==> model == Some(ModelName) && genAI == apiKey
      ensures model.None? ==> genAI.None?
    {
      genAI := None;
      model := None;
      if apiKey.None? || apiKey.value == "" {
        // the warning is logged and the fields stay unset
      } else {
        genAI := apiKey;
        model := Some(ModelName);
      }
    }

    /** isAvailable: `!!this.model`. */
    function IsAvailable(): (b: bool)
      reads this
      ensures b <==> model.Some?
    {
      model.Some?
    }

    /** analyzeXrayImage(imagePath). */
    method AnalyzeXrayImage(imagePath: string, io: GeminiIo) returns (r: Result<JsValue>)
      requires io.quality.Valid()
      ensures r == GeminiAnalysis(IsAvailable(), imagePath, io)
    {
      if model.None? {
        return Thrown(Error(NotInitialized));
      }
      TransportErrorsPropagate(imagePath, io);
      var imageBuffer := io.readFile(imagePath);
      if imageBuffer.Thrown? {
        return Thrown(imageBuffer.error);
      }
      var mimeType := GeminiMimeType(imagePath);
      var response := io.generate(mimeType, imageBuffer.value);
      if response.Thrown? {
        return Thrown(response.error);
      }
      AnswerHandling(imagePath, io, imageBuffer.value, response.value);
      var jsonMatch := ExtractJson(response.value);
      if jsonMatch.None? {
        return Thrown(Error(InvalidFormat));
      }
      var parsed := io.parse(jsonMatch.value);
      if parsed.None? {
        return Thrown(Error(InvalidFormat));
      }
      var analysisResult := parsed.value;
      analysisResult := analysisResult["metadata" := GeminiMetadata()];
      analysisResult := analysisResult["imageQuality" := AssessImageQuality(io.quality)];
      var severity := Member(Obj(analysisResult), "severity");
      SeverityUntouched(parsed.value, io.quality);
      var breakdown := CostBreakdown(severity);
      assert breakdown == CostBreakdown(Member(Obj(parsed.value), "severity"));
      if breakdown.Thrown? {
        assert PostProcess(parsed.value, io.quality).Thrown?;
        return Thrown(Error(InvalidFormat));
      }
      analysisResult := analysisResult["costBreakdown" := breakdown.value];
      assert PostProcess(parsed.value, io.quality) == Ok(Obj(analysisResult));
      r := Ok(Obj(analysisResult));
    }
  }

  /** A service built without a key refuses every image with the same error, and one
      built with a key is available. */
  lemma {:induction false} UnavailableRefuses(imagePath: string, io: GeminiIo, other: GeminiIo)
    requires io.quality.Valid() && other.quality.Valid()
    ensures GeminiAnalysis(false, imagePath, io) == GeminiAnalysis(false, imagePath, other)
    ensures GeminiAnalysis(false, imagePath, io).Thrown?
  {
  }
}
