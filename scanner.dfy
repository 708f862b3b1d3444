/** The multi-engine scanner (src/scanner.rs): every variant of an image goes through
    five decoding engines; each engine's codes are merged into a set, and the sets of
    all engines into one. Files are loaded one by one, directory entries filtered by
    extension, and the batch statistics updated as files are scanned. */
module Scanner {
  import opened Common
  import opened Timer
  import opened Preprocessor
  import opened Capabilities
  import opened ImagePaths
  import RqrrApi
  import QuircsApi
  import RxingApi
  import ZbarApi

  /** The codes one engine found in a file, over all variants. */
  datatype EngineResult = EngineResult(engineName: string, qrCodes: seq<string>)

  /** The outcome of scanning one file. */
  datatype ScanResult = ScanResult(
    filePath: string,
    qrCodes: seq<string>,
    engineResults: seq<EngineResult>,
    timing: ScanTiming,
    success: bool,
    error: Option<string>)

  // ---------------------------------------------------------------------------
  // What each engine adapter keeps

  function RqrrText(r: Result<RqrrApi.Decoded, RqrrApi.DeQRError>): Option<string> {
    match r
    case Ok(d) => Some(d.content)
    case Err(_) => None
  }

  /** Only codes that are extracted, decoded, and whose payload is valid UTF-8. */
  function QuircsText(r: Result<Result<QuircsApi.Data, QuircsApi.DecodeError>, QuircsApi.ExtractError>)
    : Option<string>
  {
    match r
    case Ok(Ok(data)) => data.payloadText
    case _ => None
  }

  function BardecoderText(r: Result<string, string>): Option<string> {
    match r
    case Ok(text) => Some(text)
    case Err(_) => None
  }

  /** Only QR-code symbols; other symbologies zbar reports are dropped. */
  function ZbarQrData(symbol: ZbarApi.Symbol): Option<string> {
    if symbol.symbolType == ZbarApi.QrCode then Some(symbol.data) else None
  }

  /** The context attached when the pixel buffer cannot be rebuilt for bardecoder. */
  const BARDECODER_BUFFER_ERROR: string := "Failed to create image_v24::GrayImage"

  /** What the adapter of engine `e` returns for one grayscale image. */
  function Adapted(e: Engine, gray: GrayImage, engines: Engines): Result<seq<string>, string> {
    match e
    case Rqrr => Ok(FilterMap(engines.rqrr(gray), RqrrText))
    case Rxing => Ok(match engines.rxing(gray) case Ok(d) => [d.text] case Err(_) => [])
    case Quircs => Ok(FilterMap(engines.quircs(gray), QuircsText))
    case Bardecoder =>
      // GrayImage::from_raw refuses a buffer shorter than width * height
      if |gray.pixels| < gray.width * gray.height then Err(BARDECODER_BUFFER_ERROR)
      else Ok(FilterMap(engines.bardecoder(gray), BardecoderText))
    case ZbarPack =>
      match engines.zbar(gray)
      case Err(msg) => Err(msg)
      case Ok(symbols) => Ok(FilterMap(symbols, ZbarQrData))
  }

  /** rqrr reports exactly the contents of the grids that decoded. */
  lemma RqrrAdapterCodes(gray: GrayImage, engines: Engines, c: string)
    ensures Adapted(Rqrr, gray, engines).Ok?
    ensures var grids := engines.rqrr(gray);
      c in Adapted(Rqrr, gray, engines).value <==>
      exists i :: 0 <= i < |grids| && grids[i].Ok? && grids[i].value.content == c
  {
    var grids := engines.rqrr(gray);
    FilterMapMembers(grids, RqrrText, c);
    assert forall i :: 0 <= i < |grids| ==> (RqrrText(grids[i]) == Some(c) <==> grids[i].Ok? && grids[i].value.content == c);
  }

  /** rxing reports at most one code: the text it decoded, if it decoded. */
  lemma RxingAdapterCodes(gray: GrayImage, engines: Engines, c: string)
    ensures Adapted(Rxing, gray, engines).Ok? && |Adapted(Rxing, gray, engines).value| <= 1
    ensures c in Adapted(Rxing, gray, engines).value <==> engines.rxing(gray).Ok? && engines.rxing(gray).value.text == c
  {
  }

  /** quircs reports exactly the UTF-8 payloads of the codes that decoded. */
  lemma QuircsAdapterCodes(gray: GrayImage, engines: Engines, c: string)
    ensures Adapted(Quircs, gray, engines).Ok?
    ensures var codes := engines.quircs(gray);
      c in Adapted(Quircs, gray, engines).value <==>
      exists i :: 0 <= i < |codes| && codes[i].Ok? && codes[i].value.Ok? && codes[i].value.value.payloadText == Some(c)
  {
    var codes := engines.quircs(gray);
    FilterMapMembers(codes, QuircsText, c);
    assert forall i :: 0 <= i < |codes| ==>
      (QuircsText(codes[i]) == Some(c) <==>
       codes[i].Ok? && codes[i].value.Ok? && codes[i].value.value.payloadText == Some(c));
  }

  /** bardecoder fails only on a malformed buffer, and otherwise reports exactly its
      successful results. */
  lemma BardecoderAdapterCodes(gray: GrayImage, engines: Engines, c: string)
    ensures Adapted(Bardecoder, gray, engines).Ok? <==> |gray.pixels| >= gray.width * gray.height
    ensures gray.WellFormed() ==> Adapted(Bardecoder, gray, engines).Ok?
    ensures Adapted(Bardecoder, gray, engines).Ok? ==>
      var results := engines.bardecoder(gray);
      (c in Adapted(Bardecoder, gray, engines).value <==> exists i :: 0 <= i < |results| && results[i] == Ok(c))
  {
    var results := engines.bardecoder(gray);
    FilterMapMembers(results, BardecoderText, c);
    assert forall i :: 0 <= i < |results| ==> (BardecoderText(results[i]) == Some(c) <==> results[i] == Ok(c));
  }

  /** zbar fails exactly when the library does, and otherwise reports exactly the
      data of its QR-code symbols. */
  lemma ZbarAdapterCodes(gray: GrayImage, engines: Engines, c: string)
    ensures Adapted(ZbarPack, gray, engines).Ok? <==> engines.zbar(gray).Ok?
    ensures engines.zbar(gray).Ok? ==>
      var symbols := engines.zbar(gray).value;
      (c in Adapted(ZbarPack, gray, engines).value <==>
       exists i :: 0 <= i < |symbols| && symbols[i] == ZbarApi.Symbol(ZbarApi.QrCode, c))
  {
    if engines.zbar(gray).Ok? {
      var symbols := engines.zbar(gray).value;
      FilterMapMembers(symbols, ZbarQrData, c);
      assert forall i :: 0 <= i < |symbols| ==>
        (ZbarQrData(symbols[i]) == Some(c) <==> symbols[i] == ZbarApi.Symbol(ZbarApi.QrCode, c));
    }
  }

  // ---------------------------------------------------------------------------
  // Merging over variants and engines

  /** The order in which `detect_qr_codes` runs the engines and reports them. */
  const ENGINE_ORDER: seq<Engine> := [Rqrr, Rxing, Quircs, Bardecoder, ZbarPack]

  /** What one adapter call adds to its engine's set: its codes when it succeeded. */
  function Contribution(r: Result<seq<string>, string>): set<string> {
    match r
    case Ok(codes) => Elems(codes)
    case Err(_) => {}
  }

  /** The set one engine accumulates over the variants. */
  function EngineCodes(e: Engine, variants: seq<Variant>, engines: Engines): set<string> {
    if variants == [] then {}
    else
      EngineCodes(e, variants[..|variants| - 1], engines) +
      Contribution(Adapted(e, variants[|variants| - 1].image, engines))
  }

  /** Engine `e` decoded `c` in some variant. */
  predicate DecodedBy(e: Engine, variants: seq<Variant>, engines: Engines, c: string) {
    exists i :: 0 <= i < |variants| && c in Contribution(Adapted(e, variants[i].image, engines))
  }

  /** Taking one more variant adds what the engine decodes in it. */
  lemma EngineCodesStep(e: Engine, variants: seq<Variant>, i: nat, engines: Engines)
    requires i < |variants|
    ensures EngineCodes(e, variants[..i + 1], engines)
      == EngineCodes(e, variants[..i], engines) + Contribution(Adapted(e, variants[i].image, engines))
  {
    assert variants[..i + 1][..i] == variants[..i];
  }

  /** An engine's set holds exactly what it decoded in some variant. */
  lemma {:induction false} EngineCodesMembers(e: Engine, variants: seq<Variant>, engines: Engines, c: string)
    ensures c in EngineCodes(e, variants, engines) <==> DecodedBy(e, variants, engines, c)
  {
    if variants != [] {
      var init := variants[..|variants| - 1];
      EngineCodesMembers(e, init, engines, c);
      assert forall i :: 0 <= i < |init| ==> init[i] == variants[i];
    }
  }

  /** The union of the sets of the five engines. */
  function AllCodes(variants: seq<Variant>, engines: Engines): set<string> {
    EngineCodes(Rqrr, variants, engines) + EngineCodes(Rxing, variants, engines) +
    EngineCodes(Quircs, variants, engines) + EngineCodes(Bardecoder, variants, engines) +
    EngineCodes(ZbarPack, variants, engines)
  }

  /** A code is reported for a file exactly when some engine decoded it in some
      variant: merging loses nothing and invents nothing. */
  lemma FoundSomewhere(variants: seq<Variant>, engines: Engines, c: string)
    ensures c in AllCodes(variants, engines) <==> exists e: Engine :: DecodedBy(e, variants, engines, c)
  {
    EngineCodesMembers(Rqrr, variants, engines, c);
    EngineCodesMembers(Rxing, variants, engines, c);
    EngineCodesMembers(Quircs, variants, engines, c);
    EngineCodesMembers(Bardecoder, variants, engines, c);
    EngineCodesMembers(ZbarPack, variants, engines, c);
  }

  /** The variants of a loaded image, as both the scanner and the analyzer make them. */
  function ScanVariants(img: SourceImage, ops: ImageOps): (vs: seq<Variant>)
    requires ops.Valid()
    ensures 4 <= |vs| <= 5
    ensures forall i :: 0 <= i < |vs| ==> vs[i].image.WellFormed()
  {
    VariantsKeepShape(ops.toLuma8(WorkingImage(img, ops)), ops);
    Variants(ops.toLuma8(WorkingImage(img, ops)), ops)
  }

  /** On the variants the scanner makes, bardecoder's adapter never fails: its error
      path needs a buffer shorter than the image, which a well-formed image lacks. */
  lemma BardecoderNeverFailsOnVariants(img: SourceImage, ops: ImageOps, engines: Engines)
    requires ops.Valid()
    ensures var vs := ScanVariants(img, ops);
      forall i :: 0 <= i < |vs| ==> Adapted(Bardecoder, vs[i].image, engines).Ok?
  {
  }

  /** One entry of the per-engine report: the engine's name and its set, each code
      listed once. */
  predicate Reports(result: EngineResult, e: Engine, variants: seq<Variant>, engines: Engines) {
    && result.engineName == EngineName(e)
    && Elems(result.qrCodes) == EngineCodes(e, variants, engines)
    && NoDuplicates(result.qrCodes)
  }

  /** The per-engine report of `detect_qr_codes`: one entry per engine, in the order
      the engines run. */
  predicate ReportsEngines(results: seq<EngineResult>, variants: seq<Variant>, engines: Engines) {
    && |results| == |ENGINE_ORDER|
    && Reports(results[0], Rqrr, variants, engines)
    && Reports(results[1], Rxing, variants, engines)
    && Reports(results[2], Quircs, variants, engines)
    && Reports(results[3], Bardecoder, variants, engines)
    && Reports(results[4], ZbarPack, variants, engines)
  }

  /** Appending an element the sequence lacks keeps it free of duplicates. */
  lemma AppendNew(v: seq<string>, x: string)
    requires NoDuplicates(v) && x !in Elems(v)
    ensures Elems(v + [x]) == Elems(v) + {x} && NoDuplicates(v + [x])
  {
  }

  /** `HashSet::into_iter().collect()`: every element once, in an order the model
      leaves open. */
  method IntoVec(s: set<string>) returns (v: seq<string>)
    ensures Elems(v) == s && NoDuplicates(v) && |v| == |s|
  {
    v := [];
    var rest := s;
    while rest != {}
      invariant Elems(v) + rest == s && Elems(v) !! rest
      invariant NoDuplicates(v) && |v| + |rest| == |s|
      decreases |rest|
    {
      var x :| x in rest;
      AppendNew(v, x);
      v := v + [x];
      rest := rest - {x};
    }
  }

  // ---------------------------------------------------------------------------
  // Directory walking and statistics

  /** One item of the directory walk: the entry's path, whether it is a regular file
      (symbolic links followed), what reading and decoding it yields, and the timing
      measured while scanning it. */
  datatype WalkEntry = WalkEntry(
    path: string,
    isFile: bool,
    loaded: Result<SourceImage, LoadFailure>,
    timing: ScanTiming)

  /** The walk items that get scanned: readable entries that are regular files with
      an image extension. */
  function Selected(item: Result<WalkEntry, string>): Option<WalkEntry> {
    match item
    case Ok(entry) => if entry.isFile && IsImagePath(entry.path) then Some(entry) else None
    case Err(_) => None
  }

  function ScannedEntries(walk: seq<Result<WalkEntry, string>>): seq<WalkEntry> {
    FilterMap(walk, Selected)
  }

  /** Walking one more item adds that item's entry when it is selected. */
  lemma ScannedEntriesSnoc(walk: seq<Result<WalkEntry, string>>, i: nat)
    requires i < |walk|
    ensures Selected(walk[i]).Some? ==>
            ScannedEntries(walk[..i + 1]) == ScannedEntries(walk[..i]) + [Selected(walk[i]).value]
    ensures Selected(walk[i]).None? ==> ScannedEntries(walk[..i + 1]) == ScannedEntries(walk[..i])
  {
    FilterMapPrefixSnoc(walk, i, Selected);
  }

  /** An entry is scanned exactly when the walk could read it, it is a regular file
      and its extension is an image extension, in any case. */
  lemma ScannedExactly(walk: seq<Result<WalkEntry, string>>, entry: WalkEntry)
    ensures entry in ScannedEntries(walk) <==>
            Ok(entry) in walk && entry.isFile && IsImagePath(entry.path)
  {
    FilterMapMembers(walk, Selected, entry);
    if Ok(entry) in walk {
      var i :| 0 <= i < |walk| && walk[i] == Ok(entry);
    }
  }

  /** How scanning one file changes the counters. */
  function FileCounts(loaded: Result<SourceImage, LoadFailure>, timing: ScanTiming, ops: ImageOps, engines: Engines)
    : (c: Counts)
    requires ops.Valid()
    ensures c.totalFiles == 1
    ensures c.successfulScans == 1 <==> loaded.Ok?
  {
    match loaded
    case Err(_) => FailureCounts
    case Ok(img) => SuccessCounts(|AllCodes(ScanVariants(img, ops), engines)|, timing.total)
  }

  /** How scanning a sequence of files changes the counters. */
  function DirectoryCounts(entries: seq<WalkEntry>, ops: ImageOps, engines: Engines): (c: Counts)
    requires ops.Valid()
    ensures c.totalFiles == |entries|
  {
    if entries == [] then NoCounts
    else
      var last := entries[|entries| - 1];
      DirectoryCounts(entries[..|entries| - 1], ops, engines).Plus(FileCounts(last.loaded, last.timing, ops, engines))
  }

  lemma DirectoryCountsSnoc(entries: seq<WalkEntry>, entry: WalkEntry, ops: ImageOps, engines: Engines)
    requires ops.Valid()
    ensures DirectoryCounts(entries + [entry], ops, engines) ==
            DirectoryCounts(entries, ops, engines).Plus(FileCounts(entry.loaded, entry.timing, ops, engines))
  {
    assert (entries + [entry])[..|entries|] == entries;
  }

  /** Scanning a sequence of files counts each of them once, as a success or as a
      failure, and counts a file as holding codes only when it was scanned and at
      least one code was found in it. */
  lemma {:induction false} DirectoryCountsConsistent(entries: seq<WalkEntry>, ops: ImageOps, engines: Engines)
    requires ops.Valid()
    ensures DirectoryCounts(entries, ops, engines).Consistent()
  {
    if entries != [] {
      var last := entries[|entries| - 1];
      DirectoryCountsConsistent(entries[..|entries| - 1], ops, engines);
      PlusConsistent(DirectoryCounts(entries[..|entries| - 1], ops, engines),
                     FileCounts(last.loaded, last.timing, ops, engines));
    }
  }

  /** The result reported for a file that was loaded as `loaded`. */
  predicate Describes(result: ScanResult, path: string, loaded: Result<SourceImage, LoadFailure>,
                      timing: ScanTiming, ops: ImageOps, engines: Engines)
    requires ops.Valid()
  {
    match loaded
    case Err(failure) =>
      result == ScanResult(path, [], [], NewScanTiming(), false, Some(LoadFailureMessage(failure, path)))
    case Ok(img) =>
      var vs := ScanVariants(img, ops);
      && result.filePath == path
      && result.success && result.error.None?
      && result.timing == timing
      && Elems(result.qrCodes) == AllCodes(vs, engines)
      && NoDuplicates(result.qrCodes)
      && ReportsEngines(result.engineResults, vs, engines)
  }

  /** Relates a result to the walk entry it reports. */
  function Describer(ops: ImageOps, engines: Engines): (ScanResult, WalkEntry) -> bool
    requires ops.Valid()
  {
    (result: ScanResult, entry: WalkEntry) =>
      Describes(result, entry.path, entry.loaded, entry.timing, ops, engines)
  }

  /** `results` report `entries` one for one, in order. */
  predicate ReportedInOrder(results: seq<ScanResult>, entries: seq<WalkEntry>, ops: ImageOps, engines: Engines)
    requires ops.Valid()
  {
    PairedInOrder(results, entries, Describer(ops, engines))
  }

  /** Walking one more item that is selected extends both the reports and the counts
      by that item's file. */
  lemma DirectoryStep(walk: seq<Result<WalkEntry, string>>, i: nat, start: Counts, results: seq<ScanResult>,
                      result: ScanResult, ops: ImageOps, engines: Engines)
    requires ops.Valid() && i < |walk| && Selected(walk[i]).Some?
    requires ReportedInOrder(results, ScannedEntries(walk[..i]), ops, engines)
    requires var entry := Selected(walk[i]).value;
      Describes(result, entry.path, entry.loaded, entry.timing, ops, engines)
    ensures ReportedInOrder(results + [result], ScannedEntries(walk[..i + 1]), ops, engines)
    ensures var entry := Selected(walk[i]).value;
      start.Plus(DirectoryCounts(ScannedEntries(walk[..i]), ops, engines)).Plus(FileCounts(entry.loaded, entry.timing, ops, engines))
      == start.Plus(DirectoryCounts(ScannedEntries(walk[..i + 1]), ops, engines))
  {
    var before := ScannedEntries(walk[..i]);
    var entry := Selected(walk[i]).value;
    ScannedEntriesSnoc(walk, i);
    DirectoryCountsSnoc(before, entry, ops, engines);
    PlusAssociative(start, DirectoryCounts(before, ops, engines), FileCounts(entry.loaded, entry.timing, ops, engines));
    PairedSnoc(results, before, result, entry, Describer(ops, engines));
  }

  /** Reporting in order means each result describes the entry at its position. */
  lemma ReportedEach(results: seq<ScanResult>, entries: seq<WalkEntry>, ops: ImageOps, engines: Engines)
    requires ops.Valid()
    ensures ReportedInOrder(results, entries, ops, engines) <==>
      && |results| == |entries|
      && forall k :: 0 <= k < |entries| ==>
           Describes(results[k], entries[k].path, entries[k].loaded, entries[k].timing, ops, engines)
  {
    PairedEach(results, entries, Describer(ops, engines));
  }

  class QrScanner {
    const stats: ScanStats

    /** `QrScanner::new`: the verbosity flag only affects logging. */
    constructor (verbose: bool)
      ensures fresh(stats) && stats.Valid() && stats.IsZero()
    {
      stats := new ScanStats();
    }

    /** `detect_with_rqrr`: the contents of the grids that decode, in grid order. */
    method DetectWithRqrr(gray: GrayImage, engines: Engines) returns (r: Result<seq<string>, string>)
      ensures r == Adapted(Rqrr, gray, engines)
    {
      var grids := engines.rqrr(gray);
      var results: seq<string> := [];
      for i := 0 to |grids|
        invariant results == FilterMap(grids[..i], RqrrText)
      {
        match grids[i] {
          case Ok(d) =>
            results := results + [d.content];
          case Err(_) =>
        }
        FilterMapSnoc(grids[..i], grids[i], RqrrText);
        assert grids[..i + 1] == grids[..i] + [grids[i]];
      }
      assert grids[..|grids|] == grids;
      return Ok(results);
    }

    /** `detect_with_rxing`: the decoded text, or nothing. */
    method DetectWithRxing(gray: GrayImage, engines: Engines) returns (r: Result<seq<string>, string>)
      ensures r == Adapted(Rxing, gray, engines)
    {
      var results: seq<string> := [];
      match engines.rxing(gray) {
        case Ok(result) =>
          results := results + [result.text];
          assert results == [result.text];
        case Err(_) =>
      }
      return Ok(results);
    }

    /** `detect_with_quircs`: the UTF-8 payloads of the codes that decode, in order. */
    method DetectWithQuircs(gray: GrayImage, engines: Engines) returns (r: Result<seq<string>, string>)
      ensures r == Adapted(Quircs, gray, engines)
    {
      var codes := engines.quircs(gray);
      var results: seq<string> := [];
      for i := 0 to |codes|
        invariant results == FilterMap(codes[..i], QuircsText)
      {
        match codes[i] {
          case Ok(Ok(decoded)) =>
            match decoded.payloadText {
              case Some(text) =>
                results := results + [text];
              case None =>
            }
          case Ok(Err(_)) =>
          case Err(_) =>
        }
        FilterMapSnoc(codes[..i], codes[i], QuircsText);
        assert codes[..i + 1] == codes[..i] + [codes[i]];
      }
      assert codes[..|codes|] == codes;
      return Ok(results);
    }

    /** `detect_with_bardecoder`: rebuild the pixel buffer, then keep the successful
      results in order. */
    method DetectWithBardecoder(gray: GrayImage, engines: Engines) returns (r: Result<seq<string>, string>)
      ensures r == Adapted(Bardecoder, gray, engines)
    {
      if |gray.pixels| < gray.width * gray.height {
        return Err(BARDECODER_BUFFER_ERROR);
      }
      var decodedResults := engines.bardecoder(gray);
      var results: seq<string> := [];
      for i := 0 to |decodedResults|
        invariant results == FilterMap(decodedResults[..i], BardecoderText)
      {
        match decodedResults[i] {
          case Ok(text) =>
            results := results + [text];
          case Err(_) =>
        }
        FilterMapSnoc(decodedResults[..i], decodedResults[i], BardecoderText);
        assert decodedResults[..i + 1] == decodedResults[..i] + [decodedResults[i]];
      }
      assert decodedResults[..|decodedResults|] == decodedResults;
      return Ok(results);
    }

    /** `detect_with_zbar_pack`: propagate a library failure, otherwise keep the data
      of the QR-code symbols in order. */
    method DetectWithZbarPack(gray: GrayImage, engines: Engines) returns (r: Result<seq<string>, string>)
      ensures r == Adapted(ZbarPack, gray, engines)
    {
      var symbols: seq<ZbarApi.Symbol>;
      match engines.zbar(gray) {
        case Err(msg) =>
          return Err(msg);
        case Ok(found) =>
          symbols := found;
      }
      var results: seq<string> := [];
      for i := 0 to |symbols|
        invariant results == FilterMap(symbols[..i], ZbarQrData)
      {
        if symbols[i].symbolType == ZbarApi.QrCode {
          results := results + [symbols[i].data];
        }
        FilterMapSnoc(symbols[..i], symbols[i], ZbarQrData);
        assert symbols[..i + 1] == symbols[..i] + [symbols[i]];
      }
      assert symbols[..|symbols|] == symbols;
      return Ok(results);
    }

    /** The adapter of engine `e`. */
    method Detect(e: Engine, gray: GrayImage, engines: Engines) returns (r: Result<seq<string>, string>)
      ensures r == Adapted(e, gray, engines)
    {
      match e {
        case Rqrr => r := DetectWithRqrr(gray, engines);
        case Rxing => r := DetectWithRxing(gray, engines);
        case Quircs => r := DetectWithQuircs(gray, engines);
        case Bardecoder => r := DetectWithBardecoder(gray, engines);
        case ZbarPack => r := DetectWithZbarPack(gray, engines);
      }
    }

    /** One engine's pass of `detect_qr_codes`: try every variant and extend the
      engine's set with what a successful, non-empty call returns. */
    method CollectCodes(e: Engine, variants: seq<Variant>, engines: Engines) returns (codes: set<string>)
      ensures codes == EngineCodes(e, variants, engines)
    {
      codes := {};
      for i := 0 to |variants|
        invariant codes == EngineCodes(e, variants[..i], engines)
      {
        var r := Detect(e, variants[i].image, engines);
        EngineCodesStep(e, variants, i, engines);
        if r.Ok? && |r.value| > 0 {
          codes := codes + Elems(r.value);
        }
      }
      assert variants[..|variants|] == variants;
    }

    /** One engine block of `detect_qr_codes`: collect the engine's set over all
      variants and report it under the engine's name. */
    method RunEngine(e: Engine, variants: seq<Variant>, engines: Engines)
      returns (codes: set<string>, result: EngineResult)
      ensures codes == EngineCodes(e, variants, engines)
      ensures Reports(result, e, variants, engines)
    {
      codes := CollectCodes(e, variants, engines);
      var list := IntoVec(codes);
      result := EngineResult(EngineName(e), list);
    }

    /** `detect_qr_codes`: downsample if needed, generate the variants, run the five
      engines over all of them, and report the union and each engine's set. */
    method DetectQrCodes(img: SourceImage, ops: ImageOps, engines: Engines)
      returns (codes: seq<string>, engineResults: seq<EngineResult>)
      requires ops.Valid()
      ensures Elems(codes) == AllCodes(ScanVariants(img, ops), engines)
      ensures NoDuplicates(codes) && |codes| == |AllCodes(ScanVariants(img, ops), engines)|
      ensures ReportsEngines(engineResults, ScanVariants(img, ops), engines)
    {
      var workingImg := WorkingImage(img, ops);
      var variants := GenerateVariants(ops.toLuma8(workingImg), ops);
      codes, engineResults := RunEngines(variants, engines);
    }

    /** The five engine blocks of `detect_qr_codes`, merged into one set. */
    method RunEngines(variants: seq<Variant>, engines: Engines)
      returns (codes: seq<string>, engineResults: seq<EngineResult>)
      ensures Elems(codes) == AllCodes(variants, engines)
      ensures NoDuplicates(codes) && |codes| == |AllCodes(variants, engines)|
      ensures ReportsEngines(engineResults, variants, engines)
    {
      var allResults: set<string> := {};
      var rqrrCodes, rqrrResult := RunEngine(Rqrr, variants, engines);
      allResults := allResults + rqrrCodes;
      var rxingCodes, rxingResult := RunEngine(Rxing, variants, engines);
      allResults := allResults + rxingCodes;
      var quircsCodes, quircsResult := RunEngine(Quircs, variants, engines);
      allResults := allResults + quircsCodes;
      var bardecoderCodes, bardecoderResult := RunEngine(Bardecoder, variants, engines);
      allResults := allResults + bardecoderCodes;
      var zbarCodes, zbarResult := RunEngine(ZbarPack, variants, engines);
      allResults := allResults + zbarCodes;
      assert allResults == AllCodes(variants, engines);

      engineResults := [rqrrResult, rxingResult, quircsResult, bardecoderResult, zbarResult];
      assert engineResults[0] == rqrrResult && engineResults[1] == rxingResult;
      assert engineResults[2] == quircsResult && engineResults[3] == bardecoderResult;
      assert engineResults[4] == zbarResult;
      codes := IntoVec(allResults);
    }

    /** `scan_file`: load the file, detect its codes, and count it as a success; a file
      that cannot be read or decoded is an error and leaves the statistics alone. */
    method ScanFile(path: string, loaded: Result<SourceImage, LoadFailure>, measured: ScanTiming,
                    ops: ImageOps, engines: Engines)
      returns (r: Result<ScanResult, string>)
      requires ops.Valid()
      modifies stats
      ensures loaded.Err? ==> r == Err(LoadFailureMessage(loaded.error, path))
      ensures loaded.Ok? ==> r.Ok? && Describes(r.value, path, loaded, measured, ops, engines)
      ensures loaded.Ok? ==> stats.Snapshot() == old(stats.Snapshot()).Plus(FileCounts(loaded, measured, ops, engines))
      ensures loaded.Err? ==> stats.Snapshot() == old(stats.Snapshot())
      ensures stats.avgDurationPerFile == old(stats.avgDurationPerFile)
    {
      var img: SourceImage;
      match loaded {
        case Err(failure) =>
          return Err(LoadFailureMessage(failure, path));
        case Ok(image) =>
          img := image;
      }
      var qrCodes, engineResults := DetectQrCodes(img, ops, engines);

      stats.RecordSuccess(|qrCodes|, measured.total);
      return Ok(ScanResult(path, qrCodes, engineResults, measured, true, None));
    }

    /** One iteration of `scan_directory`: skip an item the walk could not read, an
      entry that is not a regular file, and a file without an image extension;
      otherwise scan the file, turning a scan error into a failed result that the
      statistics count. */
    method ScanItem(item: Result<WalkEntry, string>, ops: ImageOps, engines: Engines)
      returns (reported: Option<ScanResult>)
      requires ops.Valid()
      modifies stats
      ensures Selected(item).None? ==> reported.None? && stats.Snapshot() == old(stats.Snapshot())
      ensures Selected(item).Some? ==>
        var entry := Selected(item).value;
        && reported.Some?
        && Describes(reported.value, entry.path, entry.loaded, entry.timing, ops, engines)
        && stats.Snapshot() == old(stats.Snapshot()).Plus(FileCounts(entry.loaded, entry.timing, ops, engines))
      ensures stats.avgDurationPerFile == old(stats.avgDurationPerFile)
      ensures old(stats.Valid()) ==> stats.Valid()
    {
      var entry: WalkEntry;
      match item {
        case Err(_) =>
          return None;
        case Ok(found) =>
          entry := found;
      }
      if !entry.isFile {
        return None;
      }
      match Extension(FileName(entry.path)) {
        case Some(ext) =>
          var extStr := AsciiLower(ext);
          if extStr !in IMAGE_EXTENSIONS {
            return None;
          }
        case None =>
          return None;
      }
      var r := ScanFile(entry.path, entry.loaded, entry.timing, ops, engines);
      match r {
        case Ok(result) =>
          assert entry.loaded.Ok?;
          return Some(result);
        case Err(e) =>
          assert entry.loaded.Err?;
          stats.RecordFailure();
          return Some(ScanResult(entry.path, [], [], NewScanTiming(), false, Some(e)));
      }
    }

    /** `scan_directory`: scan every selected walk entry in order, reporting each one,
      and count it in the statistics. */
    method ScanDirectory(walk: seq<Result<WalkEntry, string>>, ops: ImageOps, engines: Engines)
      returns (results: seq<ScanResult>)
      requires ops.Valid()
      modifies stats
      ensures ReportedInOrder(results, ScannedEntries(walk), ops, engines)
      ensures stats.Snapshot() == old(stats.Snapshot()).Plus(DirectoryCounts(ScannedEntries(walk), ops, engines))
      ensures stats.avgDurationPerFile == old(stats.avgDurationPerFile)
      ensures old(stats.Valid()) ==> stats.Valid()
    {
      results := [];
      for i := 0 to |walk|
        invariant ReportedInOrder(results, ScannedEntries(walk[..i]), ops, engines)
        invariant stats.Snapshot() == old(stats.Snapshot()).Plus(DirectoryCounts(ScannedEntries(walk[..i]), ops, engines))
        invariant stats.avgDurationPerFile == old(stats.avgDurationPerFile)
        invariant old(stats.Valid()) ==> stats.Valid()
      {
        var reported := ScanItem(walk[i], ops, engines);
        if reported.Some? {
          DirectoryStep(walk, i, old(stats.Snapshot()), results, reported.value, ops, engines);
          results := results + [reported.value];
        } else {
          ScannedEntriesSnoc(walk, i);
        }
      }
      assert walk[..|walk|] == walk;
    }

    /** `stats`: finalize the average and hand out the statistics. */
    method Stats() returns (s: ScanStats)
      requires stats.totalFiles == 0 || stats.totalFiles % U32_MODULUS != 0
      modifies stats
      ensures s == stats
      ensures stats.Snapshot() == old(stats.Snapshot())
      ensures stats.totalFiles > 0 ==> stats.avgDurationPerFile == AverageDuration(stats.totalDuration, stats.totalFiles)
      ensures stats.totalFiles == 0 ==> stats.avgDurationPerFile == old(stats.avgDurationPerFile)
    {
      stats.Finalize();
      return stats;
    }
  }
}
