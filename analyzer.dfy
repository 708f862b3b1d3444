/** The diagnostic analyzer (src/analyzer.rs): runs rqrr, quircs and rxing on the first
    variant of one image, classifies every located grid and every failure into a tag,
    and derives remediation advice from the tags of all engines together. */
module Analyzer {
  import opened Common
  import opened Preprocessor
  import opened Capabilities
  import RqrrApi
  import QuircsApi
  import RxingApi

  /** The message an rxing failure quotes, or the placeholder used when it is empty. */
  datatype Message = Quoted(text: string) | NoDetails

  /** The human-readable detail of a grid. The explanatory texts are fixed per engine
      and tag and are not reproduced here; success details carry what they print. */
  datatype Detail =
    | RqrrMeta(version: nat, eccNumber: nat, modules: nat)
    | QuircsMeta(version: nat, eccLevel: QuircsApi.EccLevel, dataType: QuircsApi.DataType)
    | RxingFormat(format: string)
    | Explanation(engine: Engine, tag: string)
    | ExplanationWith(engine: Engine, tag: string, message: Message)
    | SeeLogs

  /** The `(error_type, detail)` pair every error mapper returns. */
  datatype ErrorInfo = ErrorInfo(tag: string, detail: Detail)

  datatype GridAnalysis = GridAnalysis(
    gridIndex: nat,
    version: Option<nat>,
    moduleSize: Option<(nat, nat)>,
    decodeSuccess: bool,
    errorType: Option<string>,
    errorDetail: Detail,
    content: Option<string>)

  /** What an engine's summary line says; rqrr counts "grids", quircs "codes". */
  datatype Noun = Grids | Codes

  datatype Summary =
    | NoPatterns
    | DecodedSome(decoded: nat, detected: nat, noun: Noun)
    | AllFailed(detected: nat, noun: Noun)
    | RxingDecoded
    | RxingFailed(tag: string)

  datatype EngineAnalysis = EngineAnalysis(
    engineName: string,
    gridsDetected: nat,
    decodeResults: seq<GridAnalysis>,
    success: bool,
    summary: Summary)

  /** The advice entries; their texts are fixed and not reproduced here. */
  datatype Recommendation = NoPatternAdvice | DataEccAdvice | FormatEccAdvice | RecaptureAdvice

  datatype AnalysisReport = AnalysisReport(
    filePath: string,
    imageSize: (U32, U32),
    variantsTested: nat,
    engineAnalyses: seq<EngineAnalysis>,
    overallSuccess: bool,
    recommendations: seq<Recommendation>)

  /** A grid whose three success indicators agree: it decoded, it has no error tag,
      and it has content, all or none. */
  predicate Coherent(g: GridAnalysis) {
    (g.decodeSuccess <==> g.errorType.None?) && (g.errorType.None? <==> g.content.Some?)
  }

  // ---------------------------------------------------------------------------
  // Error mappers

  /** A string contains no occurrence of a pattern that sits at none of its indices. */
  lemma NoSliceMeansAbsent(s: string, needle: string)
    requires forall j :: 0 <= j ==> !SliceAt(s, needle, j)
    ensures !ContainsSubstring(s, needle)
  {
    if ContainsSubstring(s, needle) {
      OccursMeansSlice(s, needle, 0);
    }
  }

  /** rxing's "FormatException" shares its first seven characters with "FormatEcc",
      and only those. */
  lemma FormatExceptionIsNoFormatEcc()
    ensures !ContainsSubstring("FormatException", "FormatEcc")
  {
    var s, needle := "FormatException", "FormatEcc";
    forall j | 0 <= j
      ensures !SliceAt(s, needle, j)
    {
      if j + |needle| <= |s| {
        if j == 0 {
          assert s[j..j + |needle|][7] == 'x' != needle[7];
        } else {
          assert s[j..j + |needle|][0] == s[j] != needle[0];
        }
      }
    }
    NoSliceMeansAbsent(s, needle);
  }

  /** A tag naming neither ECC failure. */
  predicate NoEccTag(tag: string) {
    !ContainsSubstring(tag, "DataEcc") && !ContainsSubstring(tag, "FormatEcc")
  }

  /** A tag lacking the character at position `d` of "DataEcc" and the one at position
      `f` of "FormatEcc" names neither ECC failure. */
  lemma NoEccWithout(tag: string, d: nat, f: nat)
    requires d < |DATA_ECC| && DATA_ECC[d] !in tag
    requires f < |FORMAT_ECC| && FORMAT_ECC[f] !in tag
    ensures NoEccTag(tag)
  {
    AbsentCharRulesOutSubstring(tag, DATA_ECC, DATA_ECC[d]);
    AbsentCharRulesOutSubstring(tag, FORMAT_ECC, FORMAT_ECC[f]);
  }

  /** The name rqrr's errors are reported under. */
  function RqrrTag(e: RqrrApi.DeQRError): string {
    match e
    case DataUnderflow => "DataUnderflow"
    case DataOverflow => "DataOverflow"
    case UnknownDataType => "UnknownDataType"
    case DataEcc => "DataEcc"
    case FormatEcc => "FormatEcc"
    case InvalidVersion => "InvalidVersion"
    case InvalidGridSize => "InvalidGridSize"
    case EncodingError => "EncodingError"
    case IoError => "IoError"
  }

  /** Each ECC tag names its own failure and not the other one. */
  lemma EccTagsNameThemselves()
    ensures ContainsSubstring("DataEcc", DATA_ECC) && !ContainsSubstring("DataEcc", FORMAT_ECC)
    ensures ContainsSubstring("FormatEcc", FORMAT_ECC) && !ContainsSubstring("FormatEcc", DATA_ECC)
  {
    ContainsItself(DATA_ECC);
    ContainsItself(FORMAT_ECC);
    AbsentCharRulesOutSubstring(DATA_ECC, FORMAT_ECC, 'F');
    AbsentCharRulesOutSubstring(FORMAT_ECC, DATA_ECC, 'D');
  }

  /** The tags of rqrr's other seven errors name no ECC failure. */
  lemma OtherRqrrTagsNoEcc(e: RqrrApi.DeQRError)
    requires !e.DataEcc? && !e.FormatEcc?
    ensures NoEccTag(RqrrTag(e))
  {
    var tag := RqrrTag(e);
    match e
    case IoError =>
      NoEccWithout(tag, 0, 0);
    case EncodingError =>
      NoEccWithout(tag, 0, 0);
    case DataUnderflow | DataOverflow | UnknownDataType | InvalidVersion | InvalidGridSize =>
      NoEccWithout(tag, 4, 6);
  }

  /** Exactly the ECC errors produce tags the recommendations react to. */
  lemma RqrrTagEcc(e: RqrrApi.DeQRError)
    ensures ContainsSubstring(RqrrTag(e), "DataEcc") <==> e == RqrrApi.DataEcc
    ensures ContainsSubstring(RqrrTag(e), "FormatEcc") <==> e == RqrrApi.FormatEcc
  {
    if e.DataEcc? || e.FormatEcc? {
      EccTagsNameThemselves();
    } else {
      OtherRqrrTagsNoEcc(e);
    }
  }

  /** `analyze_rqrr_error`: every rqrr error is tagged with its own name and explained
      by rqrr's fixed text for that tag. */
  function AnalyzeRqrrError(e: RqrrApi.DeQRError): (info: ErrorInfo)
    ensures info.tag == RqrrTag(e)
    ensures info.detail == Explanation(Rqrr, info.tag)
    ensures ContainsSubstring(info.tag, "DataEcc") <==> e == RqrrApi.DataEcc
    ensures ContainsSubstring(info.tag, "FormatEcc") <==> e == RqrrApi.FormatEcc
  {
    RqrrTagEcc(e);
    ErrorInfo(RqrrTag(e), Explanation(Rqrr, RqrrTag(e)))
  }

  /** The name quircs's decode errors are reported under. */
  function QuircsTag(e: QuircsApi.DecodeError): string {
    match e
    case InvalidGridSize => "InvalidGridSize"
    case InvalidVersion => "InvalidVersion"
    case DataEcc => "DataEcc"
    case FormatEcc => "FormatEcc"
    case UnkownDataType => "UnknownDataType"
    case DataOverflow => "DataOverflow"
    case DataUnderflow => "DataUnderflow"
  }

  /** `analyze_quircs_decode_error`. */
  function AnalyzeQuircsDecodeError(e: QuircsApi.DecodeError): (info: ErrorInfo)
    ensures info.tag == RqrrTag(RqrrCounterpart(e))
    ensures info.detail == Explanation(Quircs, info.tag)
  {
    QuircsSharesRqrrVocabulary(e);
    ErrorInfo(QuircsTag(e), Explanation(Quircs, QuircsTag(e)))
  }

  /** Exactly the ECC decode errors of quircs produce tags the recommendations react to. */
  lemma QuircsTagEcc(e: QuircsApi.DecodeError)
    ensures ContainsSubstring(AnalyzeQuircsDecodeError(e).tag, "DataEcc") <==> e == QuircsApi.DataEcc
    ensures ContainsSubstring(AnalyzeQuircsDecodeError(e).tag, "FormatEcc") <==> e == QuircsApi.FormatEcc
  {
    RqrrTagEcc(RqrrCounterpart(e));
  }

  /** `analyze_quircs_extract_error`. */
  function AnalyzeQuircsExtractError(e: QuircsApi.ExtractError): (info: ErrorInfo)
    ensures info.tag == "OutOfBounds" && info.detail == Explanation(Quircs, info.tag)
    ensures !ContainsSubstring(info.tag, "DataEcc") && !ContainsSubstring(info.tag, "FormatEcc")
  {
    NoEccWithout("OutOfBounds", 0, 0);
    match e
    case OutOfBounds => ErrorInfo("OutOfBounds", Explanation(Quircs, "OutOfBounds"))
  }

  /** The rqrr error a quircs decode error corresponds to, matched by meaning. */
  function RqrrCounterpart(e: QuircsApi.DecodeError): RqrrApi.DeQRError {
    match e
    case InvalidGridSize => RqrrApi.InvalidGridSize
    case InvalidVersion => RqrrApi.InvalidVersion
    case DataEcc => RqrrApi.DataEcc
    case FormatEcc => RqrrApi.FormatEcc
    case UnkownDataType => RqrrApi.UnknownDataType
    case DataOverflow => RqrrApi.DataOverflow
    case DataUnderflow => RqrrApi.DataUnderflow
  }

  /** quircs and rqrr share one tag vocabulary: every quircs decode error is tagged as
      the corresponding rqrr error is, the misspelt `UnkownDataType` included. */
  lemma QuircsSharesRqrrVocabulary(e: QuircsApi.DecodeError)
    ensures QuircsTag(e) == RqrrTag(RqrrCounterpart(e))
    ensures QuircsTag(QuircsApi.UnkownDataType) == "UnknownDataType"
  {
  }

  function QuoteOrPlaceholder(msg: string): Message {
    if msg == "" then NoDetails else Quoted(msg)
  }

  /** The name rxing's exceptions are reported under: their own for the four the
      analyzer knows, the `Debug` rendering for the rest. */
  function RxingTag(e: RxingApi.Exception): string {
    match e
    case NotFoundException(_) => "NotFoundException"
    case FormatException(_) => "FormatException"
    case ChecksumException(_) => "ChecksumException"
    case ReedSolomonException(_) => "ReedSolomonException"
    case OtherException(debugText) => debugText
  }

  lemma FormatTagIsNoEcc()
    ensures NoEccTag("FormatException")
  {
    AbsentCharRulesOutSubstring("FormatException", "DataEcc", 'D');
    FormatExceptionIsNoFormatEcc();
  }

  /** None of the four named rxing tags reacts with the ECC recommendations, the
      checksum and Reed-Solomon failures included. */
  lemma RxingTagEcc(e: RxingApi.Exception)
    requires !e.OtherException?
    ensures !ContainsSubstring(RxingTag(e), "DataEcc") && !ContainsSubstring(RxingTag(e), "FormatEcc")
  {
    match e
    case NotFoundException(_) => NoEccWithout("NotFoundException", 0, 2);
    case FormatException(_) => FormatTagIsNoEcc();
    case ChecksumException(_) => NoEccWithout("ChecksumException", 0, 0);
    case ReedSolomonException(_) => NoEccWithout("ReedSolomonException", 0, 0);
  }

  /** `analyze_rxing_error`: the four named exceptions get their own tag and quote their
      message; any other exception falls back to its `Debug` rendering. */
  function AnalyzeRxingError(e: RxingApi.Exception): (info: ErrorInfo)
    ensures info.tag == RxingTag(e)
    ensures e.OtherException? ==> info == ErrorInfo(e.debugText, SeeLogs)
    ensures e.NotFoundException? ==> info.detail == Explanation(Rxing, info.tag)
    ensures e.FormatException? || e.ChecksumException? || e.ReedSolomonException? ==>
              info.detail == ExplanationWith(Rxing, info.tag, QuoteOrPlaceholder(e.message))
  {
    var tag := RxingTag(e);
    match e
    case NotFoundException(_) => ErrorInfo(tag, Explanation(Rxing, tag))
    case FormatException(msg) => ErrorInfo(tag, ExplanationWith(Rxing, tag, QuoteOrPlaceholder(msg)))
    case ChecksumException(msg) => ErrorInfo(tag, ExplanationWith(Rxing, tag, QuoteOrPlaceholder(msg)))
    case ReedSolomonException(msg) => ErrorInfo(tag, ExplanationWith(Rxing, tag, QuoteOrPlaceholder(msg)))
    case OtherException(debugText) => ErrorInfo(debugText, SeeLogs)
  }

  // ---------------------------------------------------------------------------
  // Per-engine analyses

  /** The analysis of grid `i` as rqrr reports it. */
  function RqrrGrid(i: nat, outcome: Result<RqrrApi.Decoded, RqrrApi.DeQRError>): (g: GridAnalysis)
    ensures Coherent(g) && g.gridIndex == i && g.version.None? && g.moduleSize.None?
    ensures g.decodeSuccess <==> outcome.Ok?
    ensures outcome.Ok? ==> g.content == Some(outcome.value.content)
    ensures outcome.Err? ==> g.errorType == Some(AnalyzeRqrrError(outcome.error).tag)
  {
    match outcome
    case Ok(d) =>
      GridAnalysis(i, None, None, true, None,
                   RqrrMeta(d.meta.version, d.meta.eccLevel, d.meta.version * 4 + 17), Some(d.content))
    case Err(e) =>
      var info := AnalyzeRqrrError(e);
      GridAnalysis(i, None, None, false, Some(info.tag), info.detail, None)
  }

  /** The text quircs shows for a decoded payload. */
  const BINARY_DATA := "<binary data>"

  /** The analysis of code `i` as quircs reports it: extracted and decoded, extracted
      but not decoded, or not extracted. */
  function QuircsGrid(i: nat, outcome: Result<Result<QuircsApi.Data, QuircsApi.DecodeError>, QuircsApi.ExtractError>)
    : (g: GridAnalysis)
    ensures Coherent(g) && g.gridIndex == i && g.version.None? && g.moduleSize.None?
    ensures g.decodeSuccess <==> outcome.Ok? && outcome.value.Ok?
    ensures g.decodeSuccess ==>
              g.content == Some(match outcome.value.value.payloadText
                                case Some(text) => text
                                case None => BINARY_DATA)
    ensures outcome.Ok? && outcome.value.Err? ==>
              g.errorType == Some(AnalyzeQuircsDecodeError(outcome.value.error).tag)
    ensures outcome.Err? ==> g.errorType == Some("OutOfBounds")
  {
    match outcome
    case Ok(Ok(data)) =>
      var text := match data.payloadText case Some(t) => t case None => BINARY_DATA;
      GridAnalysis(i, None, None, true, None, QuircsMeta(data.version, data.eccLevel, data.dataType), Some(text))
    case Ok(Err(e)) =>
      var info := AnalyzeQuircsDecodeError(e);
      GridAnalysis(i, None, None, false, Some(info.tag), info.detail, None)
    case Err(e) =>
      var info := AnalyzeQuircsExtractError(e);
      GridAnalysis(i, None, None, false, Some(info.tag), info.detail, None)
  }

  /** How many grid analyses report a successful decode. */
  function CountDecoded(results: seq<GridAnalysis>): (n: nat)
    ensures n <= |results|
    ensures n > 0 <==> exists i :: 0 <= i < |results| && results[i].decodeSuccess
  {
    if results == [] then 0
    else
      var last := results[|results| - 1];
      var init := results[..|results| - 1];
      assert forall i :: 0 <= i < |init| ==> init[i] == results[i];
      CountDecoded(init) + (if last.decodeSuccess then 1 else 0)
  }

  /** `a` is what rqrr's analysis reports for the located `grids`: one grid analysis per
      grid, in order; success exactly when some grid decoded; and a summary saying
      that nothing was located, how many grids decoded, or that all of them failed. */
  predicate IsRqrrAnalysis(a: EngineAnalysis, grids: seq<Result<RqrrApi.Decoded, RqrrApi.DeQRError>>,
                           variantName: string)
  {
    && a.engineName == "rqrr (" + variantName + ")"
    && a.gridsDetected == |grids| == |a.decodeResults|
    && (forall i :: 0 <= i < |grids| ==> a.decodeResults[i] == RqrrGrid(i, grids[i]))
    && (a.success <==> exists i :: 0 <= i < |grids| && grids[i].Ok?)
    && (a.summary.NoPatterns? <==> |grids| == 0)
    && (a.success ==> a.summary == DecodedSome(CountDecoded(a.decodeResults), |grids|, Grids))
    && (|grids| > 0 && !a.success ==> a.summary == AllFailed(|grids|, Grids))
  }

  /** `analyze_with_rqrr`: one grid analysis per located grid, in order. */
  method AnalyzeWithRqrr(grids: seq<Result<RqrrApi.Decoded, RqrrApi.DeQRError>>, variantName: string)
    returns (a: EngineAnalysis)
    ensures IsRqrrAnalysis(a, grids, variantName)
  {
    var decodeResults: seq<GridAnalysis> := [];
    var anySuccess := false;
    var i := 0;
    while i < |grids|
      invariant 0 <= i <= |grids| && |decodeResults| == i
      invariant forall k :: 0 <= k < i ==> decodeResults[k] == RqrrGrid(k, grids[k])
      invariant anySuccess <==> exists k :: 0 <= k < i && grids[k].Ok?
    {
      var grid: GridAnalysis;
      match grids[i] {
        case Ok(d) =>
          anySuccess := true;
          grid := GridAnalysis(i, None, None, true, None,
                               RqrrMeta(d.meta.version, d.meta.eccLevel, d.meta.version * 4 + 17), Some(d.content));
        case Err(e) =>
          var info := AnalyzeRqrrError(e);
          grid := GridAnalysis(i, None, None, false, Some(info.tag), info.detail, None);
      }
      decodeResults := decodeResults + [grid];
      i := i + 1;
    }
    var gridsDetected := |grids|;
    var summary :=
      if gridsDetected == 0 then NoPatterns
      else if anySuccess then DecodedSome(CountDecoded(decodeResults), gridsDetected, Grids)
      else AllFailed(gridsDetected, Grids);
    a := EngineAnalysis("rqrr (" + variantName + ")", gridsDetected, decodeResults, anySuccess, summary);
  }

  /** `a` is what quircs's analysis reports for the identified `codes`: one grid
      analysis per code, in order; success exactly when some code was extracted and
      decoded; and the same three kinds of summary as rqrr's, counting codes. */
  predicate IsQuircsAnalysis(
    a: EngineAnalysis,
    codes: seq<Result<Result<QuircsApi.Data, QuircsApi.DecodeError>, QuircsApi.ExtractError>>,
    variantName: string)
  {
    && a.engineName == "quircs (" + variantName + ")"
    && a.gridsDetected == |codes| == |a.decodeResults|
    && (forall i :: 0 <= i < |codes| ==> a.decodeResults[i] == QuircsGrid(i, codes[i]))
    && (a.success <==> exists i :: 0 <= i < |codes| && codes[i].Ok? && codes[i].value.Ok?)
    && (a.summary.NoPatterns? <==> |codes| == 0)
    && (a.success ==> a.summary == DecodedSome(CountDecoded(a.decodeResults), |codes|, Codes))
    && (|codes| > 0 && !a.success ==> a.summary == AllFailed(|codes|, Codes))
  }

  /** `analyze_with_quircs`: one grid analysis per identified code, in order. */
  method AnalyzeWithQuircs(
    codes: seq<Result<Result<QuircsApi.Data, QuircsApi.DecodeError>, QuircsApi.ExtractError>>,
    variantName: string)
    returns (a: EngineAnalysis)
    ensures IsQuircsAnalysis(a, codes, variantName)
  {
    var gridsDetected := 0;
    var decodeResults: seq<GridAnalysis> := [];
    var anySuccess := false;
    var i := 0;
    while i < |codes|
      invariant 0 <= i <= |codes| && gridsDetected == |decodeResults| == i
      invariant forall k :: 0 <= k < i ==> decodeResults[k] == QuircsGrid(k, codes[k])
      invariant anySuccess <==> exists k :: 0 <= k < i && codes[k].Ok? && codes[k].value.Ok?
    {
      gridsDetected := gridsDetected + 1;
      var grid: GridAnalysis;
      match codes[i] {
        case Ok(Ok(data)) =>
          anySuccess := true;
          var text := match data.payloadText case Some(t) => t case None => BINARY_DATA;
          grid := GridAnalysis(i, None, None, true, None,
                               QuircsMeta(data.version, data.eccLevel, data.dataType), Some(text));
        case Ok(Err(e)) =>
          var info := AnalyzeQuircsDecodeError(e);
          grid := GridAnalysis(i, None, None, false, Some(info.tag), info.detail, None);
        case Err(e) =>
          var info := AnalyzeQuircsExtractError(e);
          grid := GridAnalysis(i, None, None, false, Some(info.tag), info.detail, None);
      }
      decodeResults := decodeResults + [grid];
      i := i + 1;
    }
    var summary :=
      if gridsDetected == 0 then NoPatterns
      else if anySuccess then DecodedSome(CountDecoded(decodeResults), gridsDetected, Codes)
      else AllFailed(gridsDetected, Codes);
    a := EngineAnalysis("quircs (" + variantName + ")", gridsDetected, decodeResults, anySuccess, summary);
  }

  /** `analyze_with_rxing`: rxing reports one code or none, so there is always exactly
      one grid analysis, and a located grid is counted only when it decoded. */
  function AnalyzeWithRxing(outcome: Result<RxingApi.Decoded, RxingApi.Exception>, variantName: string)
    : (a: EngineAnalysis)
    ensures a.engineName == "rxing (" + variantName + ")"
    ensures |a.decodeResults| == 1 && a.decodeResults[0].gridIndex == 0 && Coherent(a.decodeResults[0])
    ensures a.success <==> outcome.Ok?
    ensures a.decodeResults[0].decodeSuccess <==> outcome.Ok?
    ensures a.gridsDetected == if outcome.Ok? then 1 else 0
    ensures outcome.Ok? ==> a.decodeResults[0].content == Some(outcome.value.text)
    ensures outcome.Err? ==> a.decodeResults[0].errorType == Some(AnalyzeRxingError(outcome.error).tag)
  {
    match outcome
    case Ok(result) =>
      var grid := GridAnalysis(0, None, None, true, None, RxingFormat(result.format), Some(result.text));
      EngineAnalysis("rxing (" + variantName + ")", 1, [grid], true, RxingDecoded)
    case Err(e) =>
      var info := AnalyzeRxingError(e);
      var grid := GridAnalysis(0, None, None, false, Some(info.tag), info.detail, None);
      EngineAnalysis("rxing (" + variantName + ")", 0, [grid], false, RxingFailed(info.tag))
  }

  // ---------------------------------------------------------------------------
  // Recommendations

  /** The sum of `grids_detected` over all analyses. */
  function TotalGrids(analyses: seq<EngineAnalysis>): nat {
    if analyses == [] then 0
    else TotalGrids(analyses[..|analyses| - 1]) + analyses[|analyses| - 1].gridsDetected
  }

  /** No grids at all means no analysis located one. */
  lemma {:induction false} TotalGridsZero(analyses: seq<EngineAnalysis>)
    ensures TotalGrids(analyses) == 0 <==> forall i :: 0 <= i < |analyses| ==> analyses[i].gridsDetected == 0
  {
    if analyses != [] {
      var init := analyses[..|analyses| - 1];
      TotalGridsZero(init);
      assert forall i :: 0 <= i < |init| ==> init[i] == analyses[i];
    }
  }

  /** The two patterns the recommendations look for in error tags. */
  const DATA_ECC: string := "DataEcc"
  const FORMAT_ECC: string := "FormatEcc"

  predicate TagContains(g: GridAnalysis, needle: string) {
    g.errorType.Some? && ContainsSubstring(g.errorType.value, needle)
  }

  /** Some grid of the analysis carries an error tag containing `needle`. */
  predicate AnalysisTagContains(a: EngineAnalysis, needle: string) {
    exists k :: 0 <= k < |a.decodeResults| && TagContains(a.decodeResults[k], needle)
  }

  /** Some grid of some analysis carries an error tag containing `needle`. */
  predicate SomeTagContains(analyses: seq<EngineAnalysis>, needle: string) {
    exists i :: 0 <= i < |analyses| && AnalysisTagContains(analyses[i], needle)
  }

  predicate AnySucceeded(analyses: seq<EngineAnalysis>) {
    exists i :: 0 <= i < |analyses| && analyses[i].success
  }

  /** The advice for a total grid count, the two ECC flags and whether some engine
      decoded: the no-pattern advice alone when nothing was located; otherwise the ECC
      advice that applies, data before format, or the re-capture advice when neither
      applies and nothing decoded. */
  function Advice(totalGrids: nat, dataEcc: bool, formatEcc: bool, anySuccess: bool): seq<Recommendation> {
    if totalGrids == 0 then [NoPatternAdvice]
    else
      var flagged := (if dataEcc then [DataEccAdvice] else []) + (if formatEcc then [FormatEccAdvice] else []);
      if flagged == [] && !anySuccess then [RecaptureAdvice] else flagged
  }

  /** The advice `generate_recommendations` gives for a set of analyses. */
  function Recommendations(analyses: seq<EngineAnalysis>): seq<Recommendation> {
    Advice(TotalGrids(analyses), SomeTagContains(analyses, DATA_ECC), SomeTagContains(analyses, FORMAT_ECC),
           AnySucceeded(analyses))
  }

  /** What the advice list is, case by case: no grids anywhere gives exactly the
      no-pattern advice; otherwise each ECC advice appears exactly when some tag names
      it, data before format, and the re-capture advice appears exactly when neither
      did and no engine decoded. There are never more than two entries, never a
      repeated one, and the list is empty only when grids were found, an engine
      decoded and no tag named an ECC failure. */
  lemma AdviceCharacterized(totalGrids: nat, dataEcc: bool, formatEcc: bool, anySuccess: bool)
    ensures var recs := Advice(totalGrids, dataEcc, formatEcc, anySuccess);
      && (totalGrids == 0 ==> recs == [NoPatternAdvice])
      && (NoPatternAdvice in recs <==> totalGrids == 0)
      && (totalGrids > 0 ==>
            && (DataEccAdvice in recs <==> dataEcc)
            && (FormatEccAdvice in recs <==> formatEcc)
            && (RecaptureAdvice in recs <==> !dataEcc && !formatEcc && !anySuccess))
      && (forall i, j ::
            0 <= i < |recs| && 0 <= j < |recs| && recs[i] == DataEccAdvice && recs[j] == FormatEccAdvice ==> i < j)
      && 1 <= |recs| + (if anySuccess then 1 else 0)
      && |recs| <= 2
      && NoDuplicates(recs)
      && (recs == [] <==> totalGrids > 0 && anySuccess && !dataEcc && !formatEcc)
  {
  }

  /** `generate_recommendations`, scanning every grid of every analysis for the two
      ECC tags and then adding advice in order. */
  method GenerateRecommendations(analyses: seq<EngineAnalysis>) returns (recs: seq<Recommendation>)
    ensures recs == Recommendations(analyses)
  {
    recs := [];
    var totalGrids := TotalGrids(analyses);
    if totalGrids == 0 {
      recs := recs + [NoPatternAdvice];
      return;
    }
    var hasDataEcc := false;
    var hasFormatEcc := false;
    var i := 0;
    while i < |analyses|
      invariant 0 <= i <= |analyses|
      invariant hasDataEcc <==> SomeTagContains(analyses[..i], DATA_ECC)
      invariant hasFormatEcc <==> SomeTagContains(analyses[..i], FORMAT_ECC)
    {
      hasDataEcc, hasFormatEcc := FlagEccTags(analyses[i], hasDataEcc, hasFormatEcc);
      SomeTagExtends(analyses, i, DATA_ECC);
      SomeTagExtends(analyses, i, FORMAT_ECC);
      i := i + 1;
    }
    assert analyses[..|analyses|] == analyses;
    ghost var flags := (hasDataEcc, hasFormatEcc);
    assert flags == (SomeTagContains(analyses, DATA_ECC), SomeTagContains(analyses, FORMAT_ECC));
    if hasDataEcc {
      recs := recs + [DataEccAdvice];
    }
    if hasFormatEcc {
      recs := recs + [FormatEccAdvice];
    }
    if recs == [] && !AnySucceeded(analyses) {
      recs := recs + [RecaptureAdvice];
    }
  }

  /** The inner loop of `generate_recommendations`: raise each flag when some grid of
      the analysis carries a tag containing its pattern. */
  method FlagEccTags(analysis: EngineAnalysis, dataEcc: bool, formatEcc: bool)
    returns (hasDataEcc: bool, hasFormatEcc: bool)
    ensures hasDataEcc <==> dataEcc || AnalysisTagContains(analysis, DATA_ECC)
    ensures hasFormatEcc <==> formatEcc || AnalysisTagContains(analysis, FORMAT_ECC)
  {
    hasDataEcc, hasFormatEcc := dataEcc, formatEcc;
    var results := analysis.decodeResults;
    var j := 0;
    while j < |results|
      invariant 0 <= j <= |results|
      invariant hasDataEcc <==> dataEcc || exists k :: 0 <= k < j && TagContains(results[k], DATA_ECC)
      invariant hasFormatEcc <==> formatEcc || exists k :: 0 <= k < j && TagContains(results[k], FORMAT_ECC)
    {
      match results[j].errorType {
        case Some(errType) =>
          if ContainsSubstring(errType, DATA_ECC) {
            hasDataEcc := true;
          }
          if ContainsSubstring(errType, FORMAT_ECC) {
            hasFormatEcc := true;
          }
        case None =>
      }
      j := j + 1;
    }
  }

  /** Taking one more analysis into the scanned prefix adds exactly its grids. */
  lemma SomeTagExtends(analyses: seq<EngineAnalysis>, i: nat, needle: string)
    requires i < |analyses|
    ensures SomeTagContains(analyses[..i + 1], needle) <==>
              SomeTagContains(analyses[..i], needle) || AnalysisTagContains(analyses[i], needle)
  {
    var pre, next := analyses[..i], analyses[..i + 1];
    assert forall a :: 0 <= a < i ==> next[a] == pre[a];
    assert next[i] == analyses[i];
  }

  // ---------------------------------------------------------------------------
  // The whole file

  /** Some engine decodes the given variant. */
  predicate SomeEngineDecodes(engines: Engines, gray: GrayImage) {
    || (exists i :: 0 <= i < |engines.rqrr(gray)| && engines.rqrr(gray)[i].Ok?)
    || (exists i :: 0 <= i < |engines.quircs(gray)| && engines.quircs(gray)[i].Ok? && engines.quircs(gray)[i].value.Ok?)
    || engines.rxing(gray).Ok?
  }

  // ---------------------------------------------------------------------------
  // From what the engines returned to the advice

  /** The analysis of one grid names an ECC failure exactly when rqrr reported that
      failure for the grid. */
  lemma RqrrGridEcc(i: nat, outcome: Result<RqrrApi.Decoded, RqrrApi.DeQRError>)
    ensures TagContains(RqrrGrid(i, outcome), DATA_ECC) <==> outcome == Err(RqrrApi.DataEcc)
    ensures TagContains(RqrrGrid(i, outcome), FORMAT_ECC) <==> outcome == Err(RqrrApi.FormatEcc)
  {
    if outcome.Err? {
      RqrrTagEcc(outcome.error);
    }
  }

  /** The analysis of one code names an ECC failure exactly when quircs extracted it
      and then reported that failure while decoding it. */
  lemma QuircsGridEcc(i: nat, outcome: Result<Result<QuircsApi.Data, QuircsApi.DecodeError>, QuircsApi.ExtractError>)
    ensures TagContains(QuircsGrid(i, outcome), DATA_ECC) <==> outcome == Ok(Err(QuircsApi.DataEcc))
    ensures TagContains(QuircsGrid(i, outcome), FORMAT_ECC) <==> outcome == Ok(Err(QuircsApi.FormatEcc))
  {
    if outcome.Ok? && outcome.value.Err? {
      QuircsTagEcc(outcome.value.error);
    }
  }

  /** rqrr reported the error `e` for some located grid. */
  predicate RqrrReported(grids: seq<Result<RqrrApi.Decoded, RqrrApi.DeQRError>>, e: RqrrApi.DeQRError) {
    exists i :: 0 <= i < |grids| && grids[i] == Err(e)
  }

  /** quircs extracted some identified code and reported the error `e` decoding it. */
  predicate QuircsReported(
    codes: seq<Result<Result<QuircsApi.Data, QuircsApi.DecodeError>, QuircsApi.ExtractError>>,
    e: QuircsApi.DecodeError)
  {
    exists i :: 0 <= i < |codes| && codes[i] == Ok(Err(e))
  }

  /** rxing failed with an exception the analyzer does not name, whose `Debug` text
      contains `needle`. */
  predicate RxingReported(outcome: Result<RxingApi.Decoded, RxingApi.Exception>, needle: string) {
    outcome.Err? && outcome.error.OtherException? && ContainsSubstring(outcome.error.debugText, needle)
  }

  lemma RqrrAnalysisEcc(a: EngineAnalysis, grids: seq<Result<RqrrApi.Decoded, RqrrApi.DeQRError>>, name: string)
    requires IsRqrrAnalysis(a, grids, name)
    ensures AnalysisTagContains(a, DATA_ECC) <==> RqrrReported(grids, RqrrApi.DataEcc)
    ensures AnalysisTagContains(a, FORMAT_ECC) <==> RqrrReported(grids, RqrrApi.FormatEcc)
  {
    forall i | 0 <= i < |grids| {
      RqrrGridEcc(i, grids[i]);
    }
  }

  lemma QuircsAnalysisEcc(
    a: EngineAnalysis,
    codes: seq<Result<Result<QuircsApi.Data, QuircsApi.DecodeError>, QuircsApi.ExtractError>>,
    name: string)
    requires IsQuircsAnalysis(a, codes, name)
    ensures AnalysisTagContains(a, DATA_ECC) <==> QuircsReported(codes, QuircsApi.DataEcc)
    ensures AnalysisTagContains(a, FORMAT_ECC) <==> QuircsReported(codes, QuircsApi.FormatEcc)
  {
    forall i | 0 <= i < |codes| {
      QuircsGridEcc(i, codes[i]);
    }
  }

  lemma RxingAnalysisEcc(outcome: Result<RxingApi.Decoded, RxingApi.Exception>, name: string)
    ensures AnalysisTagContains(AnalyzeWithRxing(outcome, name), DATA_ECC) <==> RxingReported(outcome, DATA_ECC)
    ensures AnalysisTagContains(AnalyzeWithRxing(outcome, name), FORMAT_ECC) <==> RxingReported(outcome, FORMAT_ECC)
  {
    var g := AnalyzeWithRxing(outcome, name).decodeResults[0];
    if outcome.Err? && !outcome.error.OtherException? {
      RxingTagEcc(outcome.error);
    }
    assert AnalysisTagContains(AnalyzeWithRxing(outcome, name), DATA_ECC) <==> TagContains(g, DATA_ECC);
    assert AnalysisTagContains(AnalyzeWithRxing(outcome, name), FORMAT_ECC) <==> TagContains(g, FORMAT_ECC);
  }

  /** Over three analyses, the grid total, the tag scan and the success test of the
      advice are those of the three analyses taken one by one. */
  lemma ThreeAnalyses(analyses: seq<EngineAnalysis>, needle: string)
    requires |analyses| == 3
    ensures TotalGrids(analyses) ==
      analyses[0].gridsDetected + analyses[1].gridsDetected + analyses[2].gridsDetected
    ensures SomeTagContains(analyses, needle) <==>
      || AnalysisTagContains(analyses[0], needle)
      || AnalysisTagContains(analyses[1], needle)
      || AnalysisTagContains(analyses[2], needle)
    ensures AnySucceeded(analyses) <==> analyses[0].success || analyses[1].success || analyses[2].success
  {
    var one, two := analyses[..1], analyses[..2];
    assert one[..0] == [] && two[..1] == one && analyses[..2] == two;
    assert TotalGrids(one) == analyses[0].gridsDetected;
    assert TotalGrids(two) == analyses[0].gridsDetected + analyses[1].gridsDetected;
  }

  /** rqrr, quircs or rxing reported a data ECC failure for the variant. */
  predicate EnginesReportDataEcc(
    grids: seq<Result<RqrrApi.Decoded, RqrrApi.DeQRError>>,
    codes: seq<Result<Result<QuircsApi.Data, QuircsApi.DecodeError>, QuircsApi.ExtractError>>,
    rx: Result<RxingApi.Decoded, RxingApi.Exception>)
  {
    RqrrReported(grids, RqrrApi.DataEcc) || QuircsReported(codes, QuircsApi.DataEcc) || RxingReported(rx, DATA_ECC)
  }

  /** rqrr, quircs or rxing reported a format ECC failure for the variant. */
  predicate EnginesReportFormatEcc(
    grids: seq<Result<RqrrApi.Decoded, RqrrApi.DeQRError>>,
    codes: seq<Result<Result<QuircsApi.Data, QuircsApi.DecodeError>, QuircsApi.ExtractError>>,
    rx: Result<RxingApi.Decoded, RxingApi.Exception>)
  {
    RqrrReported(grids, RqrrApi.FormatEcc) || QuircsReported(codes, QuircsApi.FormatEcc) || RxingReported(rx, FORMAT_ECC)
  }

  /** rqrr, quircs or rxing decoded something in the variant. */
  predicate EnginesDecode(
    grids: seq<Result<RqrrApi.Decoded, RqrrApi.DeQRError>>,
    codes: seq<Result<Result<QuircsApi.Data, QuircsApi.DecodeError>, QuircsApi.ExtractError>>,
    rx: Result<RxingApi.Decoded, RxingApi.Exception>)
  {
    || (exists i :: 0 <= i < |grids| && grids[i].Ok?)
    || (exists i :: 0 <= i < |codes| && codes[i].Ok? && codes[i].value.Ok?)
    || rx.Ok?
  }

  /** The advice `recs` is the advice for what the three engines returned for the
      analyzed variant: the no-pattern advice exactly when none of them located
      anything; otherwise each ECC advice exactly when some engine reported that
      failure, and the re-capture advice exactly when none did and none of them
      decoded anything. */
  predicate AdviceMatchesEngines(
    recs: seq<Recommendation>,
    grids: seq<Result<RqrrApi.Decoded, RqrrApi.DeQRError>>,
    codes: seq<Result<Result<QuircsApi.Data, QuircsApi.DecodeError>, QuircsApi.ExtractError>>,
    rx: Result<RxingApi.Decoded, RxingApi.Exception>)
  {
    var located := |grids| + |codes| + (if rx.Ok? then 1 else 0) > 0;
    && (NoPatternAdvice in recs <==> !located)
    && (DataEccAdvice in recs <==> located && EnginesReportDataEcc(grids, codes, rx))
    && (FormatEccAdvice in recs <==> located && EnginesReportFormatEcc(grids, codes, rx))
    && (RecaptureAdvice in recs <==>
          && located && !EnginesReportDataEcc(grids, codes, rx) && !EnginesReportFormatEcc(grids, codes, rx)
          && !EnginesDecode(grids, codes, rx))
  }

  /** The advice computed from the three analyses is the advice for what the engines
      returned. */
  lemma AdviceFromEngines(
    analyses: seq<EngineAnalysis>,
    grids: seq<Result<RqrrApi.Decoded, RqrrApi.DeQRError>>,
    codes: seq<Result<Result<QuircsApi.Data, QuircsApi.DecodeError>, QuircsApi.ExtractError>>,
    rx: Result<RxingApi.Decoded, RxingApi.Exception>,
    name: string)
    requires |analyses| == 3
    requires IsRqrrAnalysis(analyses[0], grids, name)
    requires IsQuircsAnalysis(analyses[1], codes, name)
    requires analyses[2] == AnalyzeWithRxing(rx, name)
    ensures AdviceMatchesEngines(Recommendations(analyses), grids, codes, rx)
  {
    RqrrAnalysisEcc(analyses[0], grids, name);
    QuircsAnalysisEcc(analyses[1], codes, name);
    RxingAnalysisEcc(rx, name);
    ThreeAnalyses(analyses, DATA_ECC);
    ThreeAnalyses(analyses, FORMAT_ECC);
    var total, dataEcc, formatEcc, anySuccess :=
      TotalGrids(analyses), SomeTagContains(analyses, DATA_ECC),
      SomeTagContains(analyses, FORMAT_ECC), AnySucceeded(analyses);
    assert total > 0 <==> |grids| + |codes| + (if rx.Ok? then 1 else 0) > 0;
    assert dataEcc <==> EnginesReportDataEcc(grids, codes, rx);
    assert formatEcc <==> EnginesReportFormatEcc(grids, codes, rx);
    assert anySuccess <==> EnginesDecode(grids, codes, rx);
    AdviceCharacterized(total, dataEcc, formatEcc, anySuccess);
  }

  /** An image on which rqrr locates one grid whose data error correction fails gets
      the data ECC advice, whatever the other engines return. */
  lemma CorruptedGridAdvice(
    analyses: seq<EngineAnalysis>,
    codes: seq<Result<Result<QuircsApi.Data, QuircsApi.DecodeError>, QuircsApi.ExtractError>>,
    rx: Result<RxingApi.Decoded, RxingApi.Exception>,
    name: string)
    requires |analyses| == 3
    requires IsRqrrAnalysis(analyses[0], [Err(RqrrApi.DataEcc)], name)
    requires IsQuircsAnalysis(analyses[1], codes, name)
    requires analyses[2] == AnalyzeWithRxing(rx, name)
    ensures DataEccAdvice in Recommendations(analyses)
    ensures NoPatternAdvice !in Recommendations(analyses)
  {
    var grids: seq<Result<RqrrApi.Decoded, RqrrApi.DeQRError>> := [Err(RqrrApi.DataEcc)];
    assert RqrrReported(grids, RqrrApi.DataEcc) by {
      assert grids[0] == Err(RqrrApi.DataEcc);
    }
    AdviceFromEngines(analyses, grids, codes, rx, name);
  }

  /** `analyze_file`: load the image, downsample it if needed, generate the variants
      and analyze the first one with rqrr, quircs and rxing, in that order. */
  method AnalyzeFile(path: string, loaded: Result<SourceImage, LoadFailure>, ops: ImageOps, engines: Engines)
    returns (r: Result<AnalysisReport, string>)
    requires ops.Valid()
    ensures loaded.Err? ==> r == Err(LoadFailureMessage(loaded.error, path))
    ensures loaded.Ok? ==> r.Ok?
    ensures loaded.Ok? ==>
      var img := loaded.value;
      var gray := ops.toLuma8(WorkingImage(img, ops));
      var report := r.value;
      && report.filePath == path
      && report.imageSize == (img.width, img.height)
      && report.variantsTested == |Variants(gray, ops)|
      && |report.engineAnalyses| == 3
      && IsRqrrAnalysis(report.engineAnalyses[0], engines.rqrr(gray), "original")
      && IsQuircsAnalysis(report.engineAnalyses[1], engines.quircs(gray), "original")
      && report.engineAnalyses[2] == AnalyzeWithRxing(engines.rxing(gray), "original")
      && (report.overallSuccess <==> AnySucceeded(report.engineAnalyses))
      && (report.overallSuccess <==> SomeEngineDecodes(engines, gray))
      && report.recommendations == Recommendations(report.engineAnalyses)
      && AdviceMatchesEngines(report.recommendations, engines.rqrr(gray), engines.quircs(gray), engines.rxing(gray))
  {
    if loaded.Err? {
      return Err(LoadFailureMessage(loaded.error, path));
    }
    var img := loaded.value;
    var width, height := img.width, img.height;
    var workingImg := WorkingImage(img, ops);
    var variants := GenerateVariants(ops.toLuma8(workingImg), ops);
    var variantsTested := |variants|;

    var engineAnalyses: seq<EngineAnalysis> := [];
    var overallSuccess := false;
    if |variants| > 0 {
      var first := variants[0];
      assert first.name == Names(variants)[0] == "original";
      engineAnalyses, overallSuccess := AnalyzeVariant(first, engines);
      AdviceFromEngines(engineAnalyses, engines.rqrr(first.image), engines.quircs(first.image),
                        engines.rxing(first.image), first.name);
    }

    var recommendations := GenerateRecommendations(engineAnalyses);
    r := Ok(AnalysisReport(path, (width, height), variantsTested, engineAnalyses, overallSuccess, recommendations));
  }

  /** The engine runs of `analyze_file` on one variant: rqrr, quircs and rxing in that
      order, the overall verdict set as soon as one of them decodes. */
  method AnalyzeVariant(variant: Variant, engines: Engines)
    returns (engineAnalyses: seq<EngineAnalysis>, overallSuccess: bool)
    ensures |engineAnalyses| == 3
    ensures IsRqrrAnalysis(engineAnalyses[0], engines.rqrr(variant.image), variant.name)
    ensures IsQuircsAnalysis(engineAnalyses[1], engines.quircs(variant.image), variant.name)
    ensures engineAnalyses[2] == AnalyzeWithRxing(engines.rxing(variant.image), variant.name)
    ensures overallSuccess <==> AnySucceeded(engineAnalyses)
    ensures overallSuccess <==> SomeEngineDecodes(engines, variant.image)
  {
    engineAnalyses := [];
    overallSuccess := false;
    var rqrrAnalysis := AnalyzeWithRqrr(engines.rqrr(variant.image), variant.name);
    if rqrrAnalysis.success {
      overallSuccess := true;
    }
    engineAnalyses := engineAnalyses + [rqrrAnalysis];

    var quircsAnalysis := AnalyzeWithQuircs(engines.quircs(variant.image), variant.name);
    if quircsAnalysis.success {
      overallSuccess := true;
    }
    engineAnalyses := engineAnalyses + [quircsAnalysis];

    var rxingAnalysis := AnalyzeWithRxing(engines.rxing(variant.image), variant.name);
    if rxingAnalysis.success {
      overallSuccess := true;
    }
    engineAnalyses := engineAnalyses + [rxingAnalysis];
    assert engineAnalyses == [rqrrAnalysis, quircsAnalysis, rxingAnalysis];
  }
}
