/** Timing records and the batch statistics accumulator (src/timer.rs).
    A `std::time::Duration` is modelled as a whole number of nanoseconds; wall-clock
    readings are supplied by callers as inputs. */
module Timer {
  import opened Common

  /** A `std::time::Duration`, in nanoseconds. */
  type Duration = nat

  /** Stage durations of one detection pass. */
  datatype QrDetectionTiming = QrDetectionTiming(
    toGrayscale: Duration,
    prepareImage: Duration,
    detectGrids: Duration,
    decodeQr: Duration,
    total: Duration)
  {
    predicate IsZero() {
      toGrayscale == 0 && prepareImage == 0 && detectGrids == 0 && decodeQr == 0 && total == 0
    }
  }

  /** Timing of one scanned file. */
  datatype ScanTiming = ScanTiming(qrDetection: QrDetectionTiming, total: Duration) {
    predicate IsZero() {
      qrDetection.IsZero() && total == 0
    }
  }

  /** `QrDetectionTiming::new`: every stage starts at zero. */
  function NewQrDetectionTiming(): (t: QrDetectionTiming)
    ensures t.IsZero()
  {
    QrDetectionTiming(0, 0, 0, 0, 0)
  }

  /** `ScanTiming::new`: every duration, nested ones included, is zero. */
  function NewScanTiming(): (t: ScanTiming)
    ensures t.IsZero()
    ensures t.qrDetection == NewQrDetectionTiming()
  {
    ScanTiming(NewQrDetectionTiming(), 0)
  }

  /** `total_duration / total_files as u32`: the count is cast to `u32`, keeping its
      low 32 bits, and the standard library divides a Duration by that integer
      exactly, rounding the nanosecond count down; a cast that yields zero panics. */
  function AverageDuration(total: Duration, files: nat): (avg: Duration)
    requires files % U32_MODULUS != 0
    ensures files < U32_MODULUS ==> avg * files <= total < (avg + 1) * files
    ensures files >= U32_MODULUS ==>
      var n := files % U32_MODULUS; avg * n <= total < (avg + 1) * n
  {
    total / (files % U32_MODULUS)
  }

  /** The counters of `ScanStats` other than the average, as one value. */
  datatype Counts = Counts(
    totalFiles: nat,
    successfulScans: nat,
    failedScans: nat,
    filesWithQr: nat,
    totalQrCodes: nat,
    totalDuration: Duration)
  {
    /** Each file is counted once, as a success or as a failure; only successful
        files can hold codes, and each of them holds one at least. */
    predicate Consistent() {
      && successfulScans + failedScans == totalFiles
      && filesWithQr <= successfulScans
      && filesWithQr <= totalQrCodes
    }

    /** Counters added field by field. */
    function Plus(other: Counts): (sum: Counts)
      ensures sum.totalFiles == totalFiles + other.totalFiles
    {
      Counts(totalFiles + other.totalFiles, successfulScans + other.successfulScans,
             failedScans + other.failedScans, filesWithQr + other.filesWithQr,
             totalQrCodes + other.totalQrCodes, totalDuration + other.totalDuration)
    }
  }

  const NoCounts := Counts(0, 0, 0, 0, 0, 0)

  /** Adding the counts of more files keeps the counters consistent. */
  lemma PlusConsistent(a: Counts, b: Counts)
    requires a.Consistent() && b.Consistent()
    ensures a.Plus(b).Consistent()
  {
  }

  /** Adding counts in two steps is adding their sum once. */
  lemma PlusAssociative(a: Counts, b: Counts, c: Counts)
    ensures a.Plus(b).Plus(c) == a.Plus(b.Plus(c))
  {
  }

  /** What one file that loaded and was scanned adds: a success, holding codes when
      at least one code was found, with its scan time. */
  function SuccessCounts(codeCount: nat, duration: Duration): (c: Counts)
    ensures c.totalFiles == 1 && c.successfulScans == 1 && c.failedScans == 0
    ensures c.filesWithQr == 1 <==> codeCount > 0
    ensures c.filesWithQr <= 1
    ensures c.totalQrCodes == codeCount && c.totalDuration == duration
  {
    Counts(1, 1, 0, if codeCount > 0 then 1 else 0, codeCount, duration)
  }

  /** What one file that could not be loaded adds: a failure and nothing else. */
  const FailureCounts := Counts(1, 0, 1, 0, 0, 0)

  /** Running totals over a batch of scanned files. */
  class ScanStats {
    var totalFiles: nat
    var successfulScans: nat
    var failedScans: nat
    var filesWithQr: nat
    var totalQrCodes: nat
    var totalDuration: Duration
    var avgDurationPerFile: Duration

    ghost function Snapshot(): Counts
      reads this
    {
      Counts(totalFiles, successfulScans, failedScans, filesWithQr, totalQrCodes, totalDuration)
    }

    /** What every update keeps: each file is counted once, as a success or as a
        failure; only successful files can hold codes, and each of them holds one at least. */
    ghost predicate Valid()
      reads this
    {
      Snapshot().Consistent()
    }

    ghost predicate IsZero()
      reads this
    {
      && totalFiles == 0 && successfulScans == 0 && failedScans == 0
      && filesWithQr == 0 && totalQrCodes == 0
      && totalDuration == 0 && avgDurationPerFile == 0
    }

    /** The updates `scan_file` makes after detecting `codeCount` codes in a file it
        scanned for `duration`. */
    method RecordSuccess(codeCount: nat, duration: Duration)
      modifies this
      ensures Snapshot() == old(Snapshot()).Plus(SuccessCounts(codeCount, duration))
      ensures avgDurationPerFile == old(avgDurationPerFile)
      ensures old(Valid()) ==> Valid()
    {
      totalFiles := totalFiles + 1;
      successfulScans := successfulScans + 1;
      totalDuration := totalDuration + duration;
      if codeCount > 0 {
        filesWithQr := filesWithQr + 1;
        totalQrCodes := totalQrCodes + codeCount;
      }
    }

    /** The updates `scan_directory` makes for a file whose scan returned an error. */
    method RecordFailure()
      modifies this
      ensures Snapshot() == old(Snapshot()).Plus(FailureCounts)
      ensures avgDurationPerFile == old(avgDurationPerFile)
      ensures old(Valid()) ==> Valid()
    {
      totalFiles := totalFiles + 1;
      failedScans := failedScans + 1;
    }

    /** `ScanStats::new`. */
    constructor ()
      ensures IsZero()
    {
      totalFiles, successfulScans, failedScans := 0, 0, 0;
      filesWithQr, totalQrCodes := 0, 0;
      totalDuration, avgDurationPerFile := 0, 0;
    }

    /** `ScanStats::finalize`: recomputes the average from the totals when there is at
        least one file, and otherwise leaves it as it was. Nothing else changes, and
        the new average depends only on fields this method does not touch, so a
        second call changes nothing. */
    method Finalize()
      requires totalFiles == 0 || totalFiles % U32_MODULUS != 0
      modifies this`avgDurationPerFile
      ensures totalFiles > 0 ==> avgDurationPerFile == AverageDuration(totalDuration, totalFiles)
      ensures 0 < totalFiles < U32_MODULUS ==> avgDurationPerFile * totalFiles <= totalDuration
      ensures totalFiles == 0 ==> avgDurationPerFile == old(avgDurationPerFile)
    {
      if totalFiles > 0 {
        avgDurationPerFile := AverageDuration(totalDuration, totalFiles);
      }
    }
  }
}
