/** The scan page of src/pages/Scan.tsx as a state machine: the selected
 *  file and form fields, the page state, the two progress values, the
 *  result and the error text. The compression library, the upload and the
 *  scan request are parameters; `ticks` is how often the progress timer
 *  fires before the scan request settles. */
module ScanPage {
  import opened Common
  import opened Types
  import opened Api
  import opened Image

  datatype ScanState = Idle | Uploading | Scanning | Complete | Error

  /** What a handler's `catch` can receive. */
  datatype Failure = FromApi(error: ApiError) | Unexpected

  const SESSION_EXPIRED_TEXT := "Session expired. Please login again."
  const UNEXPECTED_TEXT := "An unexpected error occurred. Please try again."
  const DEFAULT_CATEGORY := "General"

  /** The error text both the scan and the compare page show: a 401 means the
      session expired, any other API error shows its own message. */
  function FailureMessage(f: Failure): (m: string)
    ensures f.FromApi? && f.error.status == Some(401) ==> m == SESSION_EXPIRED_TEXT
    ensures f.FromApi? && f.error.status != Some(401) ==> m == f.error.message
    ensures f.Unexpected? ==> m == UNEXPECTED_TEXT
  {
    match f
    case FromApi(e) => if e.status == Some(401) then SESSION_EXPIRED_TEXT else e.message
    case Unexpected => UNEXPECTED_TEXT
  }

  /** The options the page passes to `compressImage`. */
  const PAGE_COMPRESSION := CompressionOptions(Some(1.0), Some(1920), None)

  /** One firing of the progress timer. */
  function NextScanProgress(p: real): (q: real)
    ensures p <= 85.0 ==> q == p + 5.0
    ensures p > 85.0 ==> q == 90.0
    ensures p < 90.0 ==> p < q <= 90.0
  {
    if p + 5.0 <= 90.0 then p + 5.0 else 90.0
  }

  /** The progress after `n` firings of the timer from `p`. */
  function ProgressAfter(p: real, n: nat): real {
    if n == 0 then p else NextScanProgress(ProgressAfter(p, n - 1))
  }

  /** From 0 the timer adds 5 per firing up to 90, and then stays at 90. */
  lemma {:induction false} ProgressFromZero(n: nat)
    ensures ProgressAfter(0.0, n) == if 5 * n <= 90 then 5.0 * n as real else 90.0
  {
    if n > 0 {
      ProgressFromZero(n - 1);
    }
  }

  /** The timer never takes the progress past 90, nor back. */
  lemma {:induction false} ProgressAfterBounded(p: real, n: nat)
    requires p <= 90.0
    ensures p <= ProgressAfter(p, n) <= 90.0
  {
    if n > 0 {
      ProgressAfterBounded(p, n - 1);
    }
  }

  class ScanView {
    var selectedFile: Option<File>
    var category: string
    var allergyText: string
    var scanState: ScanState
    var uploadProgress: real
    var scanProgress: real
    var result: Option<ScanResult>
    var error: Option<string>

    /** A completed scan always has a result and no error; a failed one always has an error. */
    ghost predicate Valid()
      reads this
    {
      (scanState == Complete ==> result.Some? && error == None) && (scanState == Error ==> error.Some?)
    }

    /** The page as it mounts. */
    constructor ()
      ensures selectedFile == None && category == DEFAULT_CATEGORY && allergyText == ""
      ensures scanState == Idle && uploadProgress == 0.0 && scanProgress == 0.0
      ensures result == None && error == None && Valid()
    {
      selectedFile := None;
      category := DEFAULT_CATEGORY;
      allergyText := "";
      scanState := Idle;
      uploadProgress := 0.0;
      scanProgress := 0.0;
      result := None;
      error := None;
    }

    /** `canScan`. */
    predicate CanScan()
      reads this
    {
      selectedFile.Some? && category != "" && scanState == Idle
    }

    /** `handleFileSelect`: a new file discards the last result and error. */
    method HandleFileSelect(f: File)
      modifies this
      ensures selectedFile == Some(f) && result == None && error == None && scanState == Idle
      ensures category == old(category) && allergyText == old(allergyText)
      ensures uploadProgress == old(uploadProgress) && scanProgress == old(scanProgress)
      ensures CanScan() <==> category != ""
      ensures Valid()
    {
      selectedFile := Some(f);
      result := None;
      error := None;
      scanState := Idle;
    }

    /** `handleClearFile`. */
    method HandleClearFile()
      modifies this
      ensures selectedFile == None && result == None && error == None && scanState == Idle
      ensures category == old(category) && allergyText == old(allergyText)
      ensures uploadProgress == old(uploadProgress) && scanProgress == old(scanProgress)
      ensures !CanScan() && Valid()
    {
      selectedFile := None;
      result := None;
      error := None;
      scanState := Idle;
    }

    /** `handleScanAgain`: back to an empty form. */
    method HandleScanAgain()
      modifies this
      ensures selectedFile == None && result == None && error == None && scanState == Idle
      ensures allergyText == "" && category == DEFAULT_CATEGORY && Valid()
      ensures uploadProgress == old(uploadProgress) && scanProgress == old(scanProgress)
    {
      HandleClearFile();
      allergyText := "";
      category := DEFAULT_CATEGORY;
    }

    /** One firing of the progress timer. */
    method Tick()
      modifies this
      ensures scanProgress == NextScanProgress(old(scanProgress))
      ensures selectedFile == old(selectedFile) && category == old(category) && allergyText == old(allergyText)
      ensures scanState == old(scanState) && uploadProgress == old(uploadProgress)
      ensures result == old(result) && error == old(error)
    {
      scanProgress := if scanProgress + 5.0 <= 90.0 then scanProgress + 5.0 else 90.0;
    }

    /** The progress timer fires `ticks` times while the scan request is pending. */
    method RunTimer(ticks: nat)
      modifies this
      ensures scanProgress == ProgressAfter(old(scanProgress), ticks)
      ensures selectedFile == old(selectedFile) && category == old(category) && allergyText == old(allergyText)
      ensures scanState == old(scanState) && uploadProgress == old(uploadProgress)
      ensures result == old(result) && error == old(error)
    {
      var i := 0;
      while i < ticks
        invariant 0 <= i <= ticks
        invariant scanProgress == ProgressAfter(old(scanProgress), i)
        invariant selectedFile == old(selectedFile) && category == old(category) && allergyText == old(allergyText)
        invariant scanState == old(scanState) && uploadProgress == old(uploadProgress)
        invariant result == old(result) && error == old(error)
      {
        Tick();
        i := i + 1;
      }
    }

    /** `handleScan`. Returns the states the page passed through and the
        request sent to the scan endpoint, if any. */
    method HandleScan(compress: (File, Settings) -> Option<File>, upload: File -> UploadRun,
                      scan: ScanRequest -> Result<ScanResult, ApiError>, ticks: nat)
      returns (trace: seq<ScanState>, request: Option<ScanRequest>)
      requires Valid()
      modifies this
      // the form is never touched
      ensures selectedFile == old(selectedFile) && category == old(category) && allergyText == old(allergyText)
      // no file: only a notice, nothing changes
      ensures old(selectedFile).None? ==>
                trace == [] && request == None && scanState == old(scanState) && result == old(result) &&
                error == old(error) && uploadProgress == old(uploadProgress) && scanProgress == old(scanProgress)
      ensures old(selectedFile).Some? ==>
                var run := upload(CompressImage(old(selectedFile).value, PAGE_COMPRESSION, compress));
                && (run.result.Err? ==>
                      && trace == [Uploading, Error] && request == None
                      && error == Some(FailureMessage(FromApi(run.result.error)))
                      && result == old(result) && scanProgress == 0.0
                      && uploadProgress == (if run.progress == [] then 10.0 else run.progress[|run.progress| - 1]))
                && (run.result.Ok? ==>
                      && request == Some(ScanRequest(run.result.value, old(category), old(allergyText)))
                      && uploadProgress == 100.0
                      && (scan(request.value).Ok? ==>
                            trace == [Uploading, Scanning, Complete] && result == Some(scan(request.value).value) &&
                            error == None && scanProgress == 100.0)
                      && (scan(request.value).Err? ==>
                            trace == [Uploading, Scanning, Error] && result == old(result) &&
                            error == Some(FailureMessage(FromApi(scan(request.value).error))) &&
                            scanProgress == ProgressAfter(0.0, ticks)))
      ensures trace != [] ==> scanState == trace[|trace| - 1]
      ensures Valid()
    {
      request := None;
      if selectedFile.None? {
        trace := [];
        return;
      }
      // the state is written once per settled step; `trace` records the
      // intermediate states
      var compressed := CompressImage(selectedFile.value, PAGE_COMPRESSION, compress);
      var run := upload(compressed);
      var uploaded := if run.progress == [] then 10.0 else run.progress[|run.progress| - 1];
      match run.result {
        case Err(e) =>
          scanState, error, uploadProgress, scanProgress := Error, Some(FailureMessage(FromApi(e))), uploaded, 0.0;
          trace := [Uploading, Error];
        case Ok(url) =>
          scanState, error, uploadProgress, scanProgress := Scanning, None, 100.0, 0.0;
          RunTimer(ticks);
          request := Some(ScanRequest(url, category, Or(allergyText, "")));
          match scan(request.value) {
            case Ok(r) =>
              scanState, result, scanProgress := Complete, Some(r), 100.0;
              trace := [Uploading, Scanning, Complete];
            case Err(e) =>
              scanState, error := Error, Some(FailureMessage(FromApi(e)));
              trace := [Uploading, Scanning, Error];
          }
      }
    }
  }

  /** While a scan runs, the scan button is disabled. */
  lemma BusyPageCannotScan(v: ScanView)
    requires v.scanState == Uploading || v.scanState == Scanning
    ensures !v.CanScan()
  {
  }
}
