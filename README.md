# Dental X-ray analysis service: a Dafny model

The model covers the analysis core of a NestJS back end that takes a dental X-ray and returns a
structured report in Vietnamese. The report holds a diagnosis, a confidence, a severity,
recommendations, detailed findings, a treatment plan, risk factors, a follow-up flag, an
estimated cost, annotation boxes and metadata. Two files make up the core:

- `src/analyze/gemini.service.ts`. `GeminiService` sends the image to the Gemini model. It cuts
  the JSON out of the model's text answer and parses it. It then overwrites the metadata and
  adds an image-quality assessment and a cost breakdown.
- `src/analyze/analyze.service.ts`. `AnalyzeService.analyzeXray` tries three providers in a
  chain:
  1. Gemini, when the service is available.
  2. The external AI backend, over HTTP.
  3. A fabricated report, drawn from ten mock scenarios.

  It normalises whatever it obtained into a complete report. It then tries to store the report.
  When anything throws on the way, it answers with a fresh fabricated report.

## How the model is built

The model is split into these modules:

- `Js`: the untyped values a provider hands back (`JsValue`).
  - JavaScript truthiness, `||`, `??` and property reads.
  - What `table[key]` finds on an object literal: an own property, a member inherited from
    `Object.prototype` (such as `constructor` or `toString`), or nothing. It can also throw,
    when the key cannot be converted to a property key.
- `Oracle`: every `Math.random()` call site as a value in a `Draws` record.
  - `Math.floor(Math.random() * n)` is `Pick`.
  - The shuffle `sort(() => 0.5 - Math.random())` is an oracle that answers with a permutation
    of the array's indices.
- `Text`: `indexOf`, `lastIndexOf`, ASCII lower-casing, `split('.').pop()` and `path.extname`.
- `Tables`: the severity scale and the severity-keyed lookup, plus the shape of the fixed
  content (`Catalog`, `Scenario`, `CostOption`).
- `Content`: the fixed Vietnamese tables and the ten scenarios, with lemmas that they have the
  shape the proofs rely on.
- `Synthesis`: the random generators (severity, recommendations, findings, risk factors, cost,
  confidence and image quality) and the file-name MIME table.
  - The shuffling generators are `method`s over an `array`, each proved equal to a
    specification function.
- `Report`: the `AnalysisResult` record and its object form.
- `Normalization`: `normalizeAnalysisResult`.
- `Fallback`: `getFallbackAnalysis`.
- `Gemini`: the Gemini adapter, with `GeminiService` as a class whose constructor sets the model
  fields.
- `Analyze`: the provider chain, persistence and the catch-all.
  - `AnalyzeService` is a class.
  - `AnalyzeXray` is an imperative method proved equal to the function `AnalysisOf`.

Everything that reaches the outside world is a parameter:

- the file system (`readFileSync`, `statSync`);
- the Gemini SDK call;
- `JSON.parse`;
- the HTTP POST to the backend;
- the Mongo save;
- configuration;
- randomness.

Every exception the core can raise is an explicit `Thrown` result. This includes three kinds of
`TypeError`:

- reading a property of `undefined`;
- calling `sort` on an inherited `Object.prototype` member;
- converting a key that cannot become a property key. Such a key is an object with its own
  `toString`, or an array holding one. JSON holds no functions, so that `toString` is never
  callable, and the inherited `valueOf` returns the object itself, which is not a primitive.

### Behaviours of the code worth knowing

- **Extracting the JSON.** The Gemini answer is cut with the greedy pattern `/\{[\s\S]*\}/`
  (gemini.service.ts:82). The span runs from the first `{` to the last `}` of the text. Two
  objects side by side therefore become one span that does not parse
  (`Gemini.ExtractJsonIsNotBalanced`).
- **Confidence scale.** The prompt asks Gemini for a confidence "từ 0-100", on a 0–100 scale
  (gemini.service.ts:48). The other sources use 0–1 (analyze.service.ts:420, 623).
  Normalisation copies any truthy confidence unchanged, so both scales reach the report
  (`Analyze.ConfidenceScaleKept`).
- **Unchecked severity.** A provider's severity is used as a key without being checked against
  the four levels (analyze.service.ts:619).
  - An unknown string selects the medium tables.
  - A string naming an `Object.prototype` member (`"constructor"`, `"toString"`, …) finds the
    inherited member, with these effects:
    - The list selectors throw a `TypeError` when they call `sort` on it, so the catch-all
      answers (`Analyze.PrototypeSeverityIsRescued`).
    - The estimated cost is `{currency: 'VND'}` alone.
    - Gemini's cost breakdown is that inherited member.
  - An object with its own `toString` (or an array holding one) cannot be converted to a key,
    so every lookup with it throws. This covers the list selectors (analyze.service.ts:178,
    364) and the cost selector (analyze.service.ts:219).
    - Normalisation throws whenever one of them must run, and the catch-all answers
      (`Analyze.UnconvertibleSeverityIsRescued`).
    - On the Gemini path, `generateCostBreakdown` throws (gemini.service.ts:149) inside the try
      of gemini.service.ts:81-103. The answer is refused as 'Invalid response format from
      Gemini' (`Gemini.UnconvertibleSeverityRefused`).
- **Cost shape on the Gemini path.** The prompt asks Gemini for `estimatedCost` as
  `{immediate, total, currency}` (gemini.service.ts:65-69). Normalisation keeps a truthy cost
  as it is (analyze.service.ts:642). A Gemini report's cost therefore has a different shape
  from the `{min, max, currency, note}` that `generateEstimatedCost` draws
  (`Normalization.CostSlot`).
- **Image quality on the Gemini path.** Every successful Gemini answer gets an `imageQuality`
  assessment (gemini.service.ts:94), but the metadata written next to it has none
  (gemini.service.ts:87-92). Normalisation reads `metadata.imageQuality`, so it always draws a
  random quality for a Gemini report (`Gemini.GeminiMetadataHasNoQuality`).
- **Confidence jitter.** The jitter of `calculateConfidence` is commented `// ±5%`
  (analyze.service.ts:327). `Math.floor(Math.random() * 10) - 5` gives −5 … 4
  (`Synthesis.Variation`).
- **Falsy backend body.** The backend call labels the result `'ai_backend'` even when the body is
  falsy (analyze.service.ts:108-109). Stage 3 then replaces it and relabels it `'fallback'`
  (`Analyze.SourcePrecedence`).
- **Model version of the fallback report.** `getFallbackAnalysis` writes the model version
  `'DentalAI-v2.1.0-fallback'` (analyze.service.ts:612). A report fabricated in stage 3 is then
  normalised, so it carries `'Fallback-v1.0'` (`Fallback.FallbackSurvivesNormalize`). Only the
  catch-all's report keeps `'DentalAI-v2.1.0-fallback'`.

## Model

| member | source | states |
|---|---|---|
| Js.LookupIn | src/analyze/analyze.service.ts:178 | `table[key]` on an object literal throws exactly when the key cannot be converted (an object with its own `toString`, or an array holding one); otherwise it finds an own entry exactly when the key's string form is an own key, an inherited member exactly when it is one of Object.prototype's names and not an own key, and nothing otherwise |
| Js.StrList | src/analyze/analyze.service.ts:586 | a list of strings as an array value, element by element |
| Oracle.Pick | src/analyze/analyze.service.ts:188 | `Math.floor(Math.random() * n)` is an index below n |
| Oracle.PickBelow | src/analyze/analyze.service.ts:220 | the scaled draw lies in [0, n) |
| Oracle.Permute | src/analyze/analyze.service.ts:183 | a shuffle keeps the length, draws only the table's items and keeps them distinct |
| Text.IndexOf | src/analyze/gemini.service.ts:82 | the first occurrence of a character, or the length when there is none; nothing earlier matches |
| Text.LastIndexOf | src/analyze/gemini.service.ts:82 | the last occurrence of a character, or -1; nothing later matches |
| Text.Lower | src/analyze/analyze.service.ts:687 | lower-casing keeps the length and maps every character |
| Text.AfterLastDot | src/analyze/analyze.service.ts:687 | `split('.').pop()` is the dot-free suffix after the last '.', or the whole name |
| Text.TrimTrailingSlashes | src/analyze/gemini.service.ts:113 | the longest prefix not ending in '/'; only '/' was removed |
| Text.Basename | src/analyze/gemini.service.ts:113 | the part of the path, trailing slashes removed, after its last '/' (all of it when there is none); it holds no '/' |
| Text.Extname | src/analyze/gemini.service.ts:113 | `path.extname` is empty exactly when the base name is ".." or has no '.' after its first character; otherwise it is the '.'-led suffix from the last '.', shorter than the base name |
| Tables.NameLooksUpItself | src/analyze/analyze.service.ts:178 | each of the four severity names finds its own table |
| Tables.PrototypeKeysInherited | src/analyze/analyze.service.ts:178 | every Object.prototype name finds an inherited member on a severity-keyed table |
| Tables.FitsEverywhere | src/analyze/analyze.service.ts:139-178 | the catalogue's shape holds for each severity |
| Content.SourceFits | src/analyze/analyze.service.ts:139-176 | the service's own tables and scenarios have the shape the proofs rely on |
| Content.SourceFitsAt | src/analyze/analyze.service.ts:192-217 | per severity: 7 recommendations and 7 findings, 4 or 5 risk factors, all distinct; 4 cost options with min ≤ max |
| Content.RecommendationsLowShape | src/analyze/analyze.service.ts:140-148 | seven distinct low-severity recommendations |
| Content.RecommendationsMediumShape | src/analyze/analyze.service.ts:149-157 | seven distinct medium-severity recommendations |
| Content.RecommendationsHighShape | src/analyze/analyze.service.ts:158-166 | seven distinct high-severity recommendations |
| Content.RecommendationsCriticalShape | src/analyze/analyze.service.ts:167-175 | seven distinct critical-severity recommendations |
| Content.FindingsLowShape | src/analyze/analyze.service.ts:273-281 | seven distinct low-severity findings |
| Content.FindingsMediumShape | src/analyze/analyze.service.ts:282-290 | seven distinct medium-severity findings |
| Content.FindingsHighShape | src/analyze/analyze.service.ts:291-299 | seven distinct high-severity findings |
| Content.FindingsCriticalShape | src/analyze/analyze.service.ts:300-308 | seven distinct critical-severity findings |
| Content.RiskFactorsLowShape | src/analyze/analyze.service.ts:335-340 | four distinct low-severity risk factors |
| Content.RiskFactorsMediumShape | src/analyze/analyze.service.ts:341-347 | five distinct medium-severity risk factors |
| Content.RiskFactorsHighShape | src/analyze/analyze.service.ts:348-354 | five distinct high-severity risk factors |
| Content.RiskFactorsCriticalShape | src/analyze/analyze.service.ts:355-361 | five distinct critical-severity risk factors |
| Content.CostsShape | src/analyze/analyze.service.ts:192-217 | every severity has four cost options, each with min ≤ max |
| Content.MockScenariosComplete | src/analyze/analyze.service.ts:417-568 | ten mock scenarios, each with non-empty texts and a positive confidence |
| Content.FirstScenariosComplete | src/analyze/analyze.service.ts:417-492 | the first five scenarios are complete |
| Content.LastScenariosComplete | src/analyze/analyze.service.ts:493-568 | the last five scenarios are complete |
| Synthesis.SeverityOf | src/analyze/analyze.service.ts:256-269 | the drawn severity is low on [0, 0.4], medium on (0.4, 0.75], high on (0.75, 0.95] and critical above, each band an iff |
| Synthesis.GenerateSeverity | src/analyze/analyze.service.ts:256-269 | the cumulative-weight loop returns the severity of the drawn number's band |
| Synthesis.SeverityDistribution | src/analyze/analyze.service.ts:258-268 | the weights sum to 1, each severity's band has its weight as width, and every severity can be drawn |
| Synthesis.ShuffledPrefix | src/analyze/analyze.service.ts:183 | shuffle-then-slice keeps min(count, length) distinct items of the table |
| Synthesis.RecommendationCount | src/analyze/analyze.service.ts:179-181 | 4–6 for 'critical', 3–5 for 'high', 2–4 for anything else |
| Synthesis.FindingCount | src/analyze/analyze.service.ts:312-314 | 3–5 for 'critical', 2–4 for 'high', 1–3 for anything else |
| Synthesis.RiskCount | src/analyze/analyze.service.ts:365 | 1–3 whatever the severity |
| Synthesis.Recommendations | src/analyze/analyze.service.ts:138-184 | throws a TypeError exactly when the severity cannot be converted to a key or names an inherited member; otherwise the drawn count of distinct entries of the severity's table (medium when unknown) |
| Synthesis.Findings | src/analyze/analyze.service.ts:271-317 | the same for findings |
| Synthesis.RiskFactors | src/analyze/analyze.service.ts:333-367 | the same for risk factors, 1–3 of them |
| Synthesis.SortByOracle | src/analyze/analyze.service.ts:183 | the array in place holds the old contents rearranged by the shuffle |
| Synthesis.ShuffleAndTake | src/analyze/analyze.service.ts:183 | copy, shuffle in place, slice: equals the shuffled prefix |
| Synthesis.GenerateRecommendations | src/analyze/analyze.service.ts:138-184 | the imperative selector returns exactly what Recommendations specifies |
| Synthesis.GenerateFindings | src/analyze/analyze.service.ts:271-317 | the imperative selector returns exactly what Findings specifies |
| Synthesis.GenerateRiskFactors | src/analyze/analyze.service.ts:333-367 | the imperative selector returns exactly what RiskFactors specifies |
| Synthesis.EstimatedCost | src/analyze/analyze.service.ts:191-225 | throws a TypeError exactly when the severity cannot be converted to a key; no option exactly when it names an inherited member; otherwise an option of the severity's table with min ≤ max |
| Synthesis.CostValue | src/analyze/analyze.service.ts:221-224 | the stored cost is truthy, in 'VND', and carries the selected option's min, max and note; with no option selected it has no min or max |
| Synthesis.FindingsBonus | src/analyze/analyze.service.ts:328 | at most 10, never negative, twice the count up to five findings |
| Synthesis.Variation | src/analyze/analyze.service.ts:327 | the jitter lies in −5 … 4 |
| Synthesis.CalculateConfidence | src/analyze/analyze.service.ts:319-331 | in 60 … 99, the capped sum of base, jitter and bonus |
| Synthesis.ConfidenceMonotoneInFindings | src/analyze/analyze.service.ts:328-330 | more findings never lower the confidence |
| Synthesis.RandomImageQuality | src/analyze/analyze.service.ts:186-189 | one of poor, fair, good, excellent |
| Synthesis.MimeTypeOf | src/analyze/analyze.service.ts:686-697 | a known extension gives its type, an inherited member's name gives that member, anything else 'application/octet-stream' |
| Report.DetailedFindings.ToJs | src/analyze/analyze.service.ts:627-634 | every findings slot reads back from the object form |
| Report.TreatmentPlan.ToJs | src/analyze/analyze.service.ts:635-639 | every plan slot reads back |
| Report.Metadata.ToJs | src/analyze/analyze.service.ts:644-650 | the image quality reads back |
| Report.AnalysisResult.ToJs | src/analyze/analyze.service.ts:621-651 | a report's object form is an object |
| Report.Annotation.ToJs | src/analyze/analyze.service.ts:597-606 | the caption is stored under `label`; x, y, width, height, confidence and description read back |
| Report.ReadBackHead | src/analyze/analyze.service.ts:622-623 | diagnosis and confidence read back from the object form |
| Report.ReadBackSelections | src/analyze/analyze.service.ts:625-626 | severity and recommendations read back |
| Report.ReadBackBody | src/analyze/analyze.service.ts:627-641 | findings, plan, risk factors and follow-up read back |
| Report.ReadBackTail | src/analyze/analyze.service.ts:642-650 | cost, annotations and metadata read back |
| Normalization.ModelVersion | src/analyze/analyze.service.ts:648 | 'Gemini-Pro-Vision' iff the source is 'gemini', 'DentalAI-v2.1.0' iff 'ai_backend', 'Fallback-v1.0' iff neither |
| Normalization.OrElse | src/analyze/analyze.service.ts:626 | `given \|\| synthesize()`: the given value when truthy, else the synthesized list, throwing exactly when synthesis throws |
| Normalization.EffectiveSeverity | src/analyze/analyze.service.ts:619 | the provider's severity when truthy, else a drawn one; always truthy |
| Normalization.FalsyKeyNotInherited | src/analyze/analyze.service.ts:619 | a falsy severity never finds an inherited member |
| Normalization.EffectiveSeverityLookup | src/analyze/analyze.service.ts:619 | the effective severity finds an inherited member, or fails to convert to a key, exactly when the provider's does |
| Normalization.NormalizeFindings | src/analyze/analyze.service.ts:627-634 | each finding is the provider's when truthy, else its default; no slot empty |
| Normalization.NormalizePlan | src/analyze/analyze.service.ts:635-639 | each horizon is the provider's when truthy, else an empty list |
| Normalization.CostSlot | src/analyze/analyze.service.ts:642 | the provider's cost when truthy, whatever its shape; else one drawn for the severity, which throws exactly when the severity cannot be converted to a key; a result is always truthy |
| Normalization.QualitySlot | src/analyze/analyze.service.ts:647 | `metadata?.imageQuality` when truthy, else one of the four quality words |
| Normalization.Assemble | src/analyze/analyze.service.ts:621-651 | every slot of the normalised record in terms of the provider's slot and its default, with the settled severity, lists and cost, the file name, source and model version |
| Normalization.AssembleFilled | src/analyze/analyze.service.ts:621-651 | the assembled record leaves no slot empty |
| Normalization.RecommendationsSlot | src/analyze/analyze.service.ts:626 | throws exactly when recommendations are missing and a selector fails on the severity (it cannot be converted to a key, or names an inherited member); otherwise the provider's or the synthesized list |
| Normalization.RiskFactorsSlot | src/analyze/analyze.service.ts:640 | the same for risk factors |
| Normalization.Normalize | src/analyze/analyze.service.ts:618-652 | throws exactly when the input is null or undefined, when a list is missing and a selector fails on the severity, or when the cost is missing and the severity cannot be converted to a key; otherwise the record assembled from the three slots |
| Normalization.NormalizeFilled | src/analyze/analyze.service.ts:618-652 | a normalised record leaves no slot empty |
| Normalization.NormalizeFilledReport | src/analyze/analyze.service.ts:618-652 | normalising a complete report changes only the model version and the source label |
| Normalization.NormalizeIdempotent | src/analyze/analyze.service.ts:618-652 | normalising a normalised record again, with any draws, gives it back unchanged |
| Fallback.ChosenScenario | src/analyze/analyze.service.ts:570 | the drawn scenario is one of the ten and is complete |
| Fallback.EveryScenarioReachable | src/analyze/analyze.service.ts:570 | every scenario is drawn for some value of the draw |
| Fallback.Caption | src/analyze/analyze.service.ts:599 | the first cavity when present and non-empty, else 'Vùng cần quan tâm'; always truthy |
| Fallback.FallbackAnnotation | src/analyze/analyze.service.ts:597-607 | the box lies at x in 50–449 and y in 50–349, is 40 by 30, and carries the caption |
| Fallback.Annotations | src/analyze/analyze.service.ts:597-607 | exactly one box, labelled with the caption, at x in 50–449 and y in 50–349, 40 by 30, confidence 0.85 |
| Fallback.ScenarioRecommendations | src/analyze/analyze.service.ts:580 | the recommendations drawn for the scenario's severity never throw |
| Fallback.ScenarioCost | src/analyze/analyze.service.ts:596 | the cost is always an option of the severity's own table, min ≤ max |
| Fallback.ScenarioFindings | src/analyze/analyze.service.ts:581-588 | the scenario's six condition texts as the findings, none empty |
| Fallback.ScenarioPlan | src/analyze/analyze.service.ts:589-593 | the scenario's immediate, short-term and long-term lists as the plan |
| Fallback.FallbackMetadata | src/analyze/analyze.service.ts:608-614 | model version 'DentalAI-v2.1.0-fallback', source 'fallback', one of the four quality words |
| Fallback.FallbackAnalysis | src/analyze/analyze.service.ts:413-616 | the fabricated report is for the file and copies the scenario's diagnosis, confidence, severity, findings, plan and risk factors; needs follow-up iff the severity is not low; carries the drawn recommendations, a cost from the severity's table and the one annotation box |
| Fallback.FallbackFilled | src/analyze/analyze.service.ts:575-615 | no slot of the fabricated report is empty |
| Fallback.FallbackScenarioSlotsFilled | src/analyze/analyze.service.ts:575-593 | the diagnosis, confidence, severity, findings, plan and risk factors copied from the scenario are not empty |
| Fallback.FallbackDrawnSlotsFilled | src/analyze/analyze.service.ts:580-614 | the drawn recommendations, follow-up flag, cost, annotations and image quality are not empty |
| Fallback.FallbackFollowsSeverity | src/analyze/analyze.service.ts:580-596 | follow-up iff not low; recommendations distinct, from the severity's own table, 4–6/3–5/2–4 by severity; the cost's min and max are an option of that table with min ≤ max, in VND |
| Fallback.FallbackSurvivesNormalize | src/analyze/analyze.service.ts:117-124 | the stage-3 report survives normalisation with only its model version relabelled 'Fallback-v1.0' |
| Gemini.ExtractJson | src/analyze/gemini.service.ts:82-84 | a span exists iff some '{' precedes some '}', and it runs from the first '{' to the last '}' |
| Gemini.ExtractJsonIsNotBalanced | src/analyze/gemini.service.ts:82 | two objects side by side are taken as one span; a '}' before the '{' gives none |
| Gemini.GeminiMimeType | src/analyze/gemini.service.ts:112-127 | the five image extensions map case-insensitively to their types, anything else to 'image/jpeg' |
| Gemini.AssessImageQuality | src/analyze/gemini.service.ts:129-139 | resolution, clarity and overall are quality words, positioning a position word |
| Gemini.BaseCost.ToJs | src/analyze/gemini.service.ts:143-146 | the emergency cost reads back |
| Gemini.BaseCostMonotone | src/analyze/gemini.service.ts:142-147 | no component falls as severity rises; only low has no emergency cost |
| Gemini.CostBreakdown | src/analyze/gemini.service.ts:141-150 | throws a TypeError exactly when the severity cannot be converted to a key; otherwise the severity's base costs, medium's when unknown, the inherited member for an Object.prototype name |
| Gemini.GeminiMetadata | src/analyze/gemini.service.ts:87-92 | model 'gemini-1.5-flash', version '1.0.0', no image quality |
| Gemini.PostProcess | src/analyze/gemini.service.ts:86-97 | throws exactly when the parsed severity cannot be converted to a key; otherwise the parsed object keeps its other keys and gains the new metadata, quality and cost breakdown for the parsed severity |
| Gemini.SeverityUntouched | src/analyze/gemini.service.ts:87-95 | the metadata and quality writes leave the parsed severity as it was |
| Gemini.GeminiAnalysis | src/analyze/gemini.service.ts:25-110 | an unavailable model refuses with 'Gemini model not initialized'; a success is an object |
| Gemini.AnswerHandling | src/analyze/gemini.service.ts:81-104 | once answered, failure iff no span, the span does not parse, or the parsed severity cannot be converted to a key, always as 'Invalid response format from Gemini'; a success is the post-processed object |
| Gemini.UnconvertibleSeverityRefused | src/analyze/gemini.service.ts:95-103 | an answer whose severity is an object with its own `toString`, or an array holding one, is refused with 'Invalid response format from Gemini' |
| Gemini.TransportErrorsPropagate | src/analyze/gemini.service.ts:32-33 | file-read and model-call failures reach the caller unchanged |
| Gemini.GeminiMetadataHasNoQuality | src/analyze/gemini.service.ts:87-94 | a successful answer has no image quality in its metadata |
| Gemini.GeminiService.constructor | src/analyze/gemini.service.ts:13-23 | the model is set iff a non-empty key is configured, and is 'gemini-1.5-flash' |
| Gemini.GeminiService.IsAvailable | src/analyze/gemini.service.ts:152-154 | available iff the model is set |
| Gemini.GeminiService.AnalyzeXrayImage | src/analyze/gemini.service.ts:25-110 | the step-by-step call returns exactly GeminiAnalysis |
| Gemini.UnavailableRefuses | src/analyze/gemini.service.ts:27-29 | without a model every image is refused alike |
| Analyze.SaveAnalysis | src/analyze/analyze.service.ts:654-684 | stored iff the stat succeeds and the save resolves, with the upload URL, name, size, MIME type, source and report; never throws |
| Analyze.GeminiStage | src/analyze/analyze.service.ts:80-90 | Gemini is called iff available; its answer and the 'gemini' label are kept iff it succeeded |
| Analyze.BackendStage | src/analyze/analyze.service.ts:93-114 | the backend is called iff there is no truthy result; a success sets its body and 'ai_backend' |
| Analyze.Acquire | src/analyze/analyze.service.ts:80-114 | each provider at most once, Gemini first, the backend iff Gemini gave no truthy result |
| Analyze.LastResort | src/analyze/analyze.service.ts:117-121 | the input of normalisation is truthy; the fabricated report and 'fallback' iff there was no truthy result |
| Analyze.FinishComplete | src/analyze/analyze.service.ts:124-135 | the answer is complete and for the file: the normalised record with its label, or the catch-all's report |
| Analyze.SourcePrecedence | src/analyze/analyze.service.ts:78-121 | the label is 'gemini', 'ai_backend' or 'fallback', each on its exact condition |
| Analyze.LastResortNormalizes | src/analyze/analyze.service.ts:117-124 | the fabricated report never makes normalisation throw |
| Analyze.AnalysisIsComplete | src/analyze/analyze.service.ts:72-136 | analyzeXray always answers with a complete report for the file; the catch-all answers only on a provider's answer |
| Analyze.PrototypeSeverityIsRescued | src/analyze/analyze.service.ts:619-626 | a prototype-member severity without recommendations makes normalisation throw |
| Analyze.UnconvertibleSeverityIsRescued | src/analyze/analyze.service.ts:619-642 | a severity that is an object with its own `toString`, with no cost given, makes normalisation throw |
| Analyze.ConfidenceScaleKept | src/analyze/analyze.service.ts:623 | a non-zero confidence reaches the report unscaled |
| Analyze.PulpConditionDropped | src/analyze/analyze.service.ts:627-634 | the normalised findings have no pulpCondition |
| Analyze.AnalyzeService.constructor | src/analyze/analyze.service.ts:63-70 | the backend URL is the configured one when non-empty, else the default; the content is the service's own |
| Analyze.AnalyzeService.TryGemini | src/analyze/analyze.service.ts:78-90 | the guarded Gemini call yields GeminiStage |
| Analyze.AnalyzeService.TryBackend | src/analyze/analyze.service.ts:93-114 | the guarded backend call yields BackendStage |
| Analyze.AnalyzeService.UseFallbackIfEmpty | src/analyze/analyze.service.ts:117-121 | the third stage yields LastResort |
| Analyze.AnalyzeService.NormalizeAndSave | src/analyze/analyze.service.ts:123-135 | the answer is the normalised record, or the catch-all's report when normalisation throws; the record is handed to persistence exactly when normalisation succeeded, and persistence ends as SaveAnalysis says |
| Analyze.AnalyzeService.AnalyzeXray | src/analyze/analyze.service.ts:72-136 | the imperative chain returns AnalysisOf and calls the providers Acquire names; it saves exactly when normalising the stage-3 input succeeds, as SaveAnalysis says |

## Left out

- Dates, `Date.now()`, `processingTime`, `analysisDate`, `timestamp` and the stored
  document's `createdAt`/`updatedAt` are not modelled. They are clock readings that no
  property depends on.
- The logger is left out: it has no effect on results.
- I/O is modelled only as parameters:
  - the file system reads and `statSync`;
  - the multipart POST to the backend (with its 30 s timeout);
  - the Gemini SDK;
  - the Mongo save.

  The model records what comes back (a value or an exception), not how it is obtained.
- `JSON.parse` is a parameter (`GeminiIo.parse`). Its grammar is not modelled.
- The prompt text is not modelled, nor the base64 encoding of the image.
- The stored document keeps the fields that come from the call: URL, file name, size, MIME type,
  source and report. The report's slots are copied into it unchanged.
- `healthCheck` (analyze.service.ts:699-716) is not modelled. It is not part of the analysis
  path.
- `generateDetailedCostBreakdown`, `generateFollowUpSchedule` and `generatePreventiveMeasures`
  (analyze.service.ts:227-254, 369-411) are never called by the core, so they are not modelled.
- `calculateConfidence` and `generateFindings` are never called on the analysis path. They are
  modelled anyway.
- Text.Lower: lower-cases ASCII letters only. Unicode case mapping is not modelled. Every
  extension the MIME tables know is ASCII.
- Normalization.Normalize: each stage's random draws are a separate `Draws` record. The order in
  which one shared random stream is consumed is not modelled.
- Synthesis.SortByOracle: models the random comparator as an arbitrary permutation of the array.
  The distribution of `Array.prototype.sort` with an inconsistent comparator is not modelled.
- Numbers are mathematical reals and integers. Floating-point rounding is not modelled. In
  particular, the cumulative severity weights are exact, while in IEEE doubles
  0.4 + 0.35 + 0.2 + 0.05 is 1.0 within rounding.
- Analyze.AnalyzeService.AnalyzeXray: the provider calls are sequential calls of the
  environment's functions. The asynchrony of the awaits is not modelled.
- The annotations of a provider answer are passed through as given. Their shape is not
  checked, and neither is it in the code.
