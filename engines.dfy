/** The decoding libraries as the scanner and the analyzer see them. Each module below
    declares only the values a library hands back; the libraries themselves (grid
    finding, perspective sampling, Reed-Solomon correction) are not modelled. */

/** The `rqrr` crate: grids found by `detect_grids`, each decoded by `grid.decode()`. */
module RqrrApi {
  /** `rqrr::DeQRError`. */
  datatype DeQRError =
    | IoError | DataUnderflow | DataOverflow | UnknownDataType | DataEcc | FormatEcc
    | InvalidVersion | InvalidGridSize | EncodingError

  /** The parts of `rqrr::MetaData` the analyzer reports. */
  datatype MetaData = MetaData(version: nat, eccLevel: nat)

  /** `Ok((meta, content))` from `grid.decode()`. */
  datatype Decoded = Decoded(meta: MetaData, content: string)
}

/** The `quircs` crate: codes found by `identify`, each extracted and then decoded. */
module QuircsApi {
  import opened Common

  /** `quircs::DecodeError`, with the crate's own spelling of `UnkownDataType`. */
  datatype DecodeError =
    | InvalidGridSize | InvalidVersion | FormatEcc | DataEcc | UnkownDataType
    | DataOverflow | DataUnderflow

  /** `quircs::ExtractError`. */
  datatype ExtractError = OutOfBounds

  datatype EccLevel = M | L | H | Q

  datatype DataType = Numeric | Alpha | Byte | Kanji

  /** A decoded code. `payloadText` is `std::str::from_utf8` of the payload bytes:
      the text when they are valid UTF-8, `None` otherwise. */
  datatype Data = Data(version: nat, eccLevel: EccLevel, dataType: DataType, payloadText: Option<string>)
}

/** The `rxing` crate: one `QRCodeReader::decode_with_hints` call per image. */
module RxingApi {
  /** `rxing::Exceptions`. The variants the analyzer names carry their message; every
      other variant is represented by its `Debug` rendering. */
  datatype Exception =
    | NotFoundException(message: string)
    | FormatException(message: string)
    | ChecksumException(message: string)
    | ReedSolomonException(message: string)
    | OtherException(debugText: string)

  /** A successful decode: `getText()` and the `Debug` rendering of `getBarcodeFormat()`. */
  datatype Decoded = Decoded(text: string, format: string)
}

/** The `zbar-pack` crate: the symbols one `scan_image` call reports. */
module ZbarApi {
  datatype SymbolType = QrCode | OtherSymbology(name: string)

  datatype Symbol = Symbol(symbolType: SymbolType, data: string)
}

/** The five engines, file loading, and what each engine returns for a grayscale image. */
module Capabilities {
  import opened Common
  import opened Preprocessor
  import RqrrApi
  import QuircsApi
  import RxingApi
  import ZbarApi

  datatype Engine = Rqrr | Rxing | Quircs | Bardecoder | ZbarPack

  /** The name an engine is reported under. */
  function EngineName(e: Engine): string {
    match e
    case Rqrr => "rqrr"
    case Rxing => "rxing"
    case Quircs => "quircs"
    case Bardecoder => "bardecoder"
    case ZbarPack => "zbar-pack"
  }

  /** What each library returns for one grayscale image. These are deterministic
      functions of the image: running an engine twice on the same pixels gives the
      same answer. */
  datatype Engines = Engines(
    // detect_grids, then decode() on every grid found
    rqrr: GrayImage -> seq<Result<RqrrApi.Decoded, RqrrApi.DeQRError>>,
    // decode_with_hints on a HybridBinarizer bitmap of the pixels
    rxing: GrayImage -> Result<RxingApi.Decoded, RxingApi.Exception>,
    // identify, then for every extracted code its decode()
    quircs: GrayImage -> seq<Result<Result<QuircsApi.Data, QuircsApi.DecodeError>, QuircsApi.ExtractError>>,
    // default_decoder().decode on the same pixels, one result per candidate
    bardecoder: GrayImage -> seq<Result<string, string>>,
    // Image::from_gray, ImageScanner::new and scan_image, any of which may fail
    zbar: GrayImage -> Result<seq<ZbarApi.Symbol>, string>)

  /** Why a file yielded no image: `fs::read` failed, or `image::load_from_memory` did. */
  datatype LoadFailure = ReadFailed | DecodeFailed

  /** The message of the error returned for a file that could not be loaded: the
      context attached to the failing step, followed by the path. */
  function LoadFailureMessage(f: LoadFailure, path: string): (m: string)
    ensures |m| > |path| && m[|m| - |path|..] == path
  {
    match f
    case ReadFailed => "Failed to read file: " + path
    case DecodeFailed => "Failed to decode image: " + path
  }
}
