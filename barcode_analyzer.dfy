/**
 * `BarcodeAnalyzer`: the camera frame analyser of the QR check screen. It hands
 * a scanned code on only if more than two seconds have passed since the last
 * code it handed on, which keeps one QR code in view from being reported on
 * every frame.
 *
 * The barcode scanner itself is given as each frame's scan result, and the
 * clock reading taken in the success listener as a parameter.
 */
module BarcodeAnalysis {
  import opened Outcomes

  /** One barcode the scanner found; `rawValue` is null when it could not be decoded as text. */
  datatype Barcode = Barcode(rawValue: Option<string>)

  /** What the scanner reports for a frame: the barcodes found, or a failure. */
  datatype ScanResult = Scanned(barcodes: seq<Barcode>) | ScanFailed

  /** A camera frame: without an image, or with an image and the scanner's result for it. */
  datatype Frame = NoImage | Image(scan: ScanResult)

  /** The minimum time, in milliseconds, between two codes handed on. */
  const DebounceMillis: int := 2000

  /**
   * The success listener's decision: the first barcode's raw value, provided
   * strictly more than `DebounceMillis` have passed since `lastScannedTime`. A
   * first barcode without a raw value gives nothing, even if a later one has one.
   */
  function Gate(lastScannedTime: int, now: int, barcodes: seq<Barcode>): (code: Option<string>)
    ensures code.Some? <==> now - lastScannedTime > DebounceMillis && |barcodes| > 0 && barcodes[0].rawValue.Some?
    ensures code.Some? ==> code == barcodes[0].rawValue
  {
    if now - lastScannedTime > DebounceMillis && |barcodes| > 0 then barcodes[0].rawValue else None
  }

  class BarcodeAnalyzer {
    var lastScannedTime: int

    /** The clock readings at which codes were handed on, and the codes, oldest first. */
    ghost var emissionTimes: seq<int>
    ghost var emitted: seq<string>

    /**
     * `lastScannedTime` is the time of the last code handed on (0 before the
     * first), and any two codes handed on are more than `DebounceMillis` apart;
     * the first came more than `DebounceMillis` after time 0.
     */
    ghost predicate Valid()
      reads this
    {
      && |emissionTimes| == |emitted|
      && (emissionTimes == [] ==> lastScannedTime == 0)
      && (emissionTimes != [] ==> lastScannedTime == emissionTimes[|emissionTimes| - 1])
      && (emissionTimes != [] ==> emissionTimes[0] > DebounceMillis)
      && (forall i, j :: 0 <= i < j < |emissionTimes| ==> emissionTimes[j] - emissionTimes[i] > DebounceMillis)
    }

    constructor ()
      ensures Valid()
      ensures lastScannedTime == 0 && emissionTimes == [] && emitted == []
    {
      lastScannedTime := 0;
      emissionTimes := [];
      emitted := [];
    }

    /**
     * `analyze`: a frame without an image is closed at once; otherwise the
     * success listener may hand on one code, and the frame is closed once the
     * scan completes, successfully or not. `code` is what `onQrCodeScanned`
     * receives, if it is called.
     */
    method Analyze(frame: Frame, now: int) returns (code: Option<string>, closed: bool)
      requires Valid()
      modifies this`lastScannedTime, this`emissionTimes, this`emitted
      ensures Valid()
      ensures closed
      ensures !(frame.Image? && frame.scan.Scanned?) ==> code.None?
      ensures frame.Image? && frame.scan.Scanned? ==> code == Gate(old(lastScannedTime), now, frame.scan.barcodes)
      ensures code.Some? ==>
        && lastScannedTime == now
        && emissionTimes == old(emissionTimes) + [now]
        && emitted == old(emitted) + [code.value]
      ensures code.None? ==>
        && lastScannedTime == old(lastScannedTime)
        && emissionTimes == old(emissionTimes)
        && emitted == old(emitted)
    {
      code := None;
      match frame {
        case NoImage =>
        case Image(scan) =>
          match scan {
            case ScanFailed =>
            case Scanned(barcodes) =>
              code := Gate(lastScannedTime, now, barcodes);
              if code.Some? {
                forall i | 0 <= i < |emissionTimes|
                  ensures now - emissionTimes[i] > DebounceMillis
                {
                  if i < |emissionTimes| - 1 {
                    assert emissionTimes[|emissionTimes| - 1] - emissionTimes[i] > DebounceMillis;
                  }
                }
                lastScannedTime := now;
                emissionTimes := emissionTimes + [now];
                emitted := emitted + [code.value];
              }
          }
      }
      closed := true;
    }
  }

  /** The same code in view on two frames one second apart is handed on once. */
  method SameCodeTwice(value: string, start: int) returns (analyzer: BarcodeAnalyzer, first: Option<string>, second: Option<string>)
    requires start > DebounceMillis
    ensures first == Some(value) && second == None
    ensures analyzer.emitted == [value]
  {
    analyzer := new BarcodeAnalyzer();
    var closed;
    first, closed := analyzer.Analyze(Image(Scanned([Barcode(Some(value))])), start);
    second, closed := analyzer.Analyze(Image(Scanned([Barcode(Some(value))])), start + 1000);
  }
}
