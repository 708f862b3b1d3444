# qr-tester core, modelled in Dafny

qr-tester is a command-line tool that scans image files for QR codes with five
decoding engines: rqrr, rxing, quircs, bardecoder and zbar-pack. It can also
explain, for one image, why the engines fail to decode it. This project models
the tool's core and proves properties of the model.

- **Preprocessing** (`preprocessor.dfy`). A loaded image is downsampled when one
  of its sides exceeds 2000 pixels, then turned into four or five grayscale
  variants: original, contrast-enhanced, Otsu-binarized, inverted, and adaptive
  when the image is larger than 100 pixels on both sides and smaller than ten
  million pixels. The image library's operations are function fields of
  `ImageOps`; the model only assumes that they keep the dimensions.
- **Engines** (`engines.dfy`). Each library is a deterministic function from a
  grayscale image to the raw values that library returns (grids, exceptions,
  symbols).
- **Scanner** (`scanner.dfy`). Each engine adapter keeps what decoded. The scanner
  merges every engine's codes over all variants into a set per engine and a
  union over engines. It then loads and scans files, filters the entries of a
  directory walk by regular-file status and by case-insensitive image extension
  (`paths.dfy`), and keeps batch statistics (`timer.dfy`, class `ScanStats`,
  updated in place).
- **Analyzer** (`analyzer.dfy`). rqrr, quircs and rxing are run on the first
  variant. Every located grid and every failure gets a tag. The advice is derived
  from the tags of all engines together.
- **Report** (`cli.dfy`). Long paths are shortened for the text report.

The engines' outcomes, the image operations, the file contents and the
wall-clock timings are all inputs to the model. For the same inputs, each
operation's result is fully determined.

Points of the code worth knowing when reading the model:

- The re-capture advice is given when no ECC advice was given and no engine
  decoded (src/analyzer.rs:536). The code does not check that every engine found
  regions; one grid located by any engine is enough.
- rxing's `ChecksumException` and `ReedSolomonException` are tagged with those
  names. Neither tag contains `DataEcc` or `FormatEcc`, so an rxing
  error-correction failure never triggers the ECC advice (`Analyzer.RxingTagEcc`).
- The file count is cast to `u32` before it divides the total duration in
  `finalize` (src/timer.rs:105). `Timer.AverageDuration` keeps the low 32 bits,
  and it excludes the counts for which the cast yields zero, where Rust panics.

## Model

| member | source | states |
|---|---|---|
| Timer.NewQrDetectionTiming | src/timer.rs:20-28 | every stage duration of a new detection timing is zero |
| Timer.NewScanTiming | src/timer.rs:46-51 | a new scan timing is zero throughout, nested detection timing included |
| Timer.AverageDuration | src/timer.rs:105 | below 2^32 files, the average times the file count is at most the total, and the next larger average would exceed it (floor division); from 2^32 files on, the same floor-division bounds hold with the count's low 32 bits in place of the count |
| Timer.PlusConsistent | src/timer.rs:73-88 | adding the counters of more files to consistent counters keeps them consistent: successes plus failures is the file count, and files with codes are at most the successes and at most the codes |
| Timer.SuccessCounts | src/scanner.rs:74-80 | a scanned file adds one file, one success, no failure, a file with codes exactly when at least one code was found, its codes and its duration |
| Timer.ScanStats.RecordSuccess | src/scanner.rs:74-80 | the counters become the old ones plus one successful file's counts; the average is untouched; validity is kept |
| Timer.ScanStats.RecordFailure | src/scanner.rs:494-495 | the counters become the old ones plus one failure; the average is untouched; validity is kept |
| Timer.ScanStats.constructor | src/timer.rs:91-101 | new statistics are all zero |
| Timer.ScanStats.Finalize | src/timer.rs:103-107 | with files counted, the average is recomputed from the totals, and below 2^32 files it never exceeds total / files; with none, it is left unchanged; only the average may change |
| Preprocessor.WorkingImage | src/scanner.rs:106-117 | the image is downscaled exactly when its larger side exceeds 2000 pixels, otherwise used as it is |
| Preprocessor.MinMaxFold | src/preprocessor.rs:26-29 | the fold bounds every pixel and both bounds are pixels of the image; an empty image gives (255, 0) |
| Preprocessor.NoStretchIffUniform | src/preprocessor.rs:33-37 | the stretch is skipped (min >= max) exactly when all pixels are equal or there are none |
| Preprocessor.EnhanceContrast | src/preprocessor.rs:24-38 | the result keeps the shape; a uniform image is returned unchanged; any other is stretched from its true min to its true max, with min < max |
| Preprocessor.Invert | src/preprocessor.rs:41-46 | same shape, and each pixel p becomes 255 - p |
| Preprocessor.InvertInvolution | src/preprocessor.rs:41-46 | inverting twice gives back the image |
| Preprocessor.PixelCount | src/preprocessor.rs:82 | the product of two u32 sides always fits in u64 |
| Preprocessor.BlockRadius | src/preprocessor.rs:88 | the radius is min(width, height) / 50 clamped into [5, 50], case by case |
| Preprocessor.Variants | src/preprocessor.rs:61-105 | the variant names in order, the adaptive one exactly when the size condition holds; how each variant is derived from the enhanced image |
| Preprocessor.VariantsKeepShape | src/preprocessor.rs:61-105 | every variant keeps the width and height of the grayscale image and is well formed |
| Preprocessor.GenerateVariants | src/preprocessor.rs:61-105 | pushing the variants one by one yields exactly the planned variants |
| Preprocessor.SmallImagesGetAdaptive | src/preprocessor.rs:86 | for images within 2000x2000, the pixel limit never binds: the adaptive variant is added exactly when both sides exceed 100 |
| Capabilities.LoadFailureMessage | src/scanner.rs:63-66 | the error message of a file that cannot be read or decoded ends with the file's path |
| ImagePaths.FileNameIsLastComponent | src/scanner.rs:478 | the file name holds no separator and is the path's suffix after the last separator, or the whole path when there is none |
| ImagePaths.ExtensionIsAfterLastDot | src/scanner.rs:478 | a name has an extension exactly when it is not `..` and has a dot after its first character; the extension is then the dot-free text after the last dot |
| ImagePaths.AsciiLower | src/scanner.rs:479 | lowercasing keeps the length and maps each character on its own |
| ImagePaths.FilterIgnoresCase | src/scanner.rs:478-482 | a path passes the extension filter exactly when its lowercase form does |
| ImagePaths.UpperCaseExtensionAccepted | src/scanner.rs:478-482 | `photos/IMG_0001.JPG` is scanned |
| ImagePaths.LastExtensionCounts | src/scanner.rs:478-482 | `backup/archive.tar.tif` is scanned: only the last extension counts |
| ImagePaths.HiddenFileRejected | src/scanner.rs:478-485 | `photos/.png` has no extension and is skipped |
| Scanner.RqrrAdapterCodes | src/scanner.rs:287-315 | rqrr never fails, and it reports exactly the contents of the grids that decoded |
| Scanner.RxingAdapterCodes | src/scanner.rs:318-347 | rxing never fails, and it reports at most one code, exactly the decoded text |
| Scanner.QuircsAdapterCodes | src/scanner.rs:350-388 | quircs never fails, and it reports exactly the UTF-8 payloads of the codes that were extracted and decoded |
| Scanner.BardecoderAdapterCodes | src/scanner.rs:391-424 | bardecoder fails exactly when the buffer is shorter than width * height (never for a well-formed image); otherwise it reports exactly its successful results |
| Scanner.ZbarAdapterCodes | src/scanner.rs:427-454 | zbar-pack fails exactly when the library does; otherwise it reports exactly the data of the QR-code symbols |
| Scanner.QrScanner.DetectWithRqrr | src/scanner.rs:287-315 | the loop pushes exactly the decoded contents `Adapted` keeps, in order |
| Scanner.QrScanner.DetectWithRxing | src/scanner.rs:318-347 | the decoded text or nothing, as specified |
| Scanner.QrScanner.DetectWithQuircs | src/scanner.rs:350-388 | the loop pushes exactly the valid UTF-8 payloads of the decoded codes, in order |
| Scanner.QrScanner.DetectWithBardecoder | src/scanner.rs:391-424 | the buffer-rebuild error, or exactly the successful results in order |
| Scanner.QrScanner.DetectWithZbarPack | src/scanner.rs:427-454 | the library's error, or exactly the QR-code symbols' data in order |
| Scanner.EngineCodesMembers | src/scanner.rs:135-148 | an engine's merged set holds a code exactly when some variant's successful call returned it |
| Scanner.QrScanner.CollectCodes | src/scanner.rs:134-148 | the loop over the variants builds exactly the engine's merged set |
| Scanner.QrScanner.RunEngine | src/scanner.rs:131-155 | one engine block reports the engine's name and its merged set, each code listed once |
| Scanner.FoundSomewhere | src/scanner.rs:128-276 | a code is in the union exactly when some engine decoded it in some variant: merging loses nothing and invents nothing |
| Scanner.IntoVec | src/scanner.rs:276 | collecting a set lists each of its elements exactly once |
| Scanner.ScanVariants | src/scanner.rs:106-121 | the scanner works on four or five well-formed variants |
| Scanner.BardecoderNeverFailsOnVariants | src/scanner.rs:399-400 | the bardecoder buffer error cannot occur on the variants the scanner makes |
| Scanner.QrScanner.DetectQrCodes | src/scanner.rs:95-284 | the codes are the union of all engines' sets, without duplicates; the engine results come one per engine in the order rqrr, rxing, quircs, bardecoder, zbar-pack, each listing that engine's set |
| Scanner.QrScanner.RunEngines | src/scanner.rs:128-276 | the five engine blocks yield the union of the engines' sets, listed once each, and one engine result per engine in order |
| Scanner.QrScanner.ScanFile | src/scanner.rs:56-91 | a file that fails to load gives that step's error and leaves the statistics alone; a loaded file gives a successful result with the merged codes and per-engine results, and the statistics gain exactly that file's counts |
| Scanner.FileCounts | src/scanner.rs:74-80 | each scanned file counts once, as a success exactly when it loaded |
| Scanner.DirectoryCounts | src/scanner.rs:466-507 | scanning a sequence of files counts each of them once |
| Scanner.ScannedExactly | src/scanner.rs:466-485 | a walk entry is scanned exactly when the walk could read it, it is a regular file and it has an image extension in any case |
| Scanner.QrScanner.ScanItem | src/scanner.rs:469-506 | an unreadable entry, a non-file, or a file without an image extension is skipped and changes nothing; a selected file yields one result, a failed one when it could not be loaded, and adds its counts |
| Scanner.QrScanner.ScanDirectory | src/scanner.rs:457-516 | the results describe the selected entries one for one, in walk order; the statistics gain exactly their counts; the average is untouched; validity is kept |
| Scanner.DirectoryCountsConsistent | src/scanner.rs:488-505 | the counts of a directory scan are consistent: successes plus failures is the file count, and files with codes are at most the successes and the codes |
| Scanner.ReportedEach | src/scanner.rs:488-506 | reporting in order means the same number of results as entries, with each result describing the entry at its position |
| Scanner.QrScanner.Stats | src/scanner.rs:519-522 | finalizing returns the scanner's own statistics, recomputes the average, and keeps every counter |
| Scanner.QrScanner.constructor | src/scanner.rs:49-54 | a new scanner starts with fresh, zero, valid statistics |
| Analyzer.RqrrTagEcc | src/analyzer.rs:186-245 | an rqrr tag contains `DataEcc` exactly for DataEcc errors, and `FormatEcc` exactly for FormatEcc errors |
| Analyzer.AnalyzeRqrrError | src/analyzer.rs:186-245 | every rqrr error is tagged with its name and explained by its fixed text; the tag names an ECC failure exactly for the two ECC errors |
| Analyzer.AnalyzeQuircsDecodeError | src/analyzer.rs:321-359 | a quircs decode error gets the tag of its rqrr counterpart, and the explanation that goes with that tag |
| Analyzer.QuircsTagEcc | src/analyzer.rs:321-359 | a quircs tag contains `DataEcc` exactly for DataEcc errors, and `FormatEcc` exactly for FormatEcc errors |
| Analyzer.QuircsSharesRqrrVocabulary | src/analyzer.rs:321-359 | every quircs decode error is tagged as its rqrr counterpart, the misspelt `UnkownDataType` as `UnknownDataType` |
| Analyzer.AnalyzeQuircsExtractError | src/analyzer.rs:360-371 | an extraction failure is tagged `OutOfBounds`, which names no ECC failure |
| Analyzer.FormatExceptionIsNoFormatEcc | src/analyzer.rs:508 | `FormatException` does not contain `FormatEcc` |
| Analyzer.RxingTagEcc | src/analyzer.rs:426-478 | none of the four named rxing tags contains `DataEcc` or `FormatEcc` |
| Analyzer.AnalyzeRxingError | src/analyzer.rs:426-478 | the named exceptions get their own tag, with the message quoted, or a placeholder when it is empty, except for NotFound; any other exception is tagged by its Debug text and points to the logs |
| Analyzer.RqrrGrid | src/analyzer.rs:131-161 | each grid analysis is coherent (decoded, untagged and with content, all or none), keeps its index, and carries the content or the error tag |
| Analyzer.QuircsGrid | src/analyzer.rs:257-296 | the same for quircs: a decoded payload that is not UTF-8 shows as `<binary data>`, and an extraction failure is tagged `OutOfBounds` |
| Analyzer.CountDecoded | src/analyzer.rs:169 | the count is at most the number of grids, and it is positive exactly when some grid decoded |
| Analyzer.AnalyzeWithRqrr | src/analyzer.rs:123-183 | one analysis per grid, in order; success exactly when some grid decoded; the summary case (none, some decoded with the count, all failed) matches |
| Analyzer.AnalyzeWithQuircs | src/analyzer.rs:246-318 | the same for quircs codes, whose count is the number of codes identified |
| Analyzer.AnalyzeWithRxing | src/analyzer.rs:372-423 | exactly one coherent grid analysis; a grid is counted and success reported exactly when rxing decoded |
| Analyzer.TotalGridsZero | src/analyzer.rs:485-486 | the grid total is zero exactly when no engine located a grid |
| Analyzer.AdviceCharacterized | src/analyzer.rs:481-547 | no grids gives exactly the no-pattern advice; otherwise each ECC advice appears exactly when a tag names it, data before format, and the re-capture advice exactly when neither did and nothing decoded; at most two entries, never a repeated one |
| Analyzer.FlagEccTags | src/analyzer.rs:503-512 | each flag is raised exactly when some grid's tag contains its pattern |
| Analyzer.GenerateRecommendations | src/analyzer.rs:481-547 | the nested scan and the pushes produce exactly the characterized advice |
| Analyzer.AnalyzeVariant | src/analyzer.rs:86-107 | three analyses labelled with the variant: rqrr's over the grids rqrr returned, quircs's over the codes quircs returned, rxing's over rxing's outcome; the overall verdict holds exactly when some analysis succeeded, that is, when some engine decodes the variant |
| Analyzer.AnalyzeFile | src/analyzer.rs:61-120 | a load failure is an error; otherwise the report holds the path, the original size, the number of variants, the three analyses of the original variant over what each engine returned for it, the verdict, and advice that matches what the engines reported |
| Analyzer.RqrrGridEcc | src/analyzer.rs:132-151 | the analysis of one rqrr grid names `DataEcc` (`FormatEcc`) exactly when rqrr returned that error for it |
| Analyzer.QuircsGridEcc | src/analyzer.rs:260-286 | the analysis of one quircs code names `DataEcc` (`FormatEcc`) exactly when quircs extracted the code and returned that error decoding it |
| Analyzer.RqrrAnalysisEcc | src/analyzer.rs:131-162 | an rqrr analysis carries a `DataEcc` (`FormatEcc`) tag exactly when rqrr returned that error for some grid |
| Analyzer.QuircsAnalysisEcc | src/analyzer.rs:257-297 | a quircs analysis carries a `DataEcc` (`FormatEcc`) tag exactly when quircs returned that error for some extracted code |
| Analyzer.RxingAnalysisEcc | src/analyzer.rs:387-415 | an rxing analysis carries a `DataEcc` (`FormatEcc`) tag exactly when rxing failed with an unnamed exception whose debug text contains it |
| Analyzer.AdviceFromEngines | src/analyzer.rs:481-547 | the advice for the three analyses, in terms of what the engines returned: no-pattern advice exactly when no engine located anything; otherwise ECC advice exactly when some engine reported that failure, re-capture advice exactly when none did and none decoded |
| Analyzer.CorruptedGridAdvice | src/analyzer.rs:502-526 | one rqrr grid with a data ECC failure yields the data ECC advice and not the no-pattern advice, whatever quircs and rxing return |
| Cli.TruncatePath | src/main.rs:211-228 | a short path is kept; a longer one becomes "..." followed by its last max_len - 3 characters (none when max_len < 3) |
| Cli.TruncateFits | src/main.rs:211-228 | the result never exceeds max(max_len, 3) characters and has exactly max_len when shortened with room for the marker; below that it is the marker alone |
| Cli.TruncateIdempotent | src/main.rs:211-228 | shortening a shortened path changes nothing when max_len >= 3 |
| Cli.TruncateExample | src/main.rs:156 | a 60-character path shown in the 50-character column keeps its last 47 characters |

## Left out

- The decoding libraries themselves (grid finding, sampling, Reed-Solomon correction) are not modelled. The model takes their outcomes as inputs through `Capabilities.Engines`.
- The image operations are function fields that only keep the image's shape: `to_luma8`, the Lanczos resize (with its `f32` scale factor and truncating casts), `stretch_contrast`, Otsu and adaptive thresholding.
- File I/O, `WalkDir` and symbolic-link following are inputs. Each walk item is an unreadable entry or an entry with its path, its regular-file flag, its load outcome and its measured timing.
- Wall-clock time is an input. The stage timings and the per-engine `duration_ms` (an `f64` from `to_ms`) are not computed.
- UTF-8 validation of quircs payloads is an input (`payloadText`). `to_lowercase` of extensions covers ASCII letters only, and `to_string_lossy` is not modelled.
- Paths are `/`-separated strings. `Path::extension` is modelled on the last component, without the standard library's normalization of trailing separators or `.` components.
- The explanatory texts of the error mappers, the recommendations, the summaries and the detail strings are abstract values keyed by engine and tag. The zbar-pack error message is the library's string as given.
- Logging (`debug!`, `info!`, `error!`), the command-line parsing, the text and JSON output formatting other than `truncate_path`, `print_report`, and `QrAnalyzer::new` (which holds no state) are not modelled.
- The `usize` counters and the `Duration` totals are unbounded. Overflow of the statistics and of the grid total is not modelled.
- Timer.AverageDuration: excludes the file counts whose `u32` cast is zero, where Rust's division panics.
- Timer.ScanStats.Finalize: excludes the same file counts.
- Scanner.QrScanner.Stats: excludes the same file counts.
- Timer.ScanStats.Finalize: for 2^32 files or more, it states only that the average is computed from the truncated count, not the average's meaning.
- Scanner.QrScanner.ScanFile: the statistics updates live in Timer.ScanStats.RecordSuccess, and the failure update of `scan_directory` in Timer.ScanStats.RecordFailure. Each is one method on the statistics object in place of field updates spread over the scanner.
- Scanner.IntoVec: the iteration order of a `HashSet` is left open; the model states only that every element appears once.
