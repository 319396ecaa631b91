/** The compare page of src/pages/Compare.tsx as a state machine: two file
 *  slots, the form fields, the page state, the progress, the result and the
 *  error text. Compression, the uploads and the compare request are
 *  parameters, joined by `Api.Compare`. */
module ComparePage {
  import opened Common
  import opened Types
  import opened Api
  import opened Image
  import ScanPage

  datatype CompareState = Idle | Uploading | Comparing | Complete | Error

  class CompareView {
    var selectedFile1: Option<File>
    var selectedFile2: Option<File>
    var category: string
    var allergyText: string
    var useCaseText: string
    var compareState: CompareState
    var compareProgress: real
    var result: Option<CompareResult>
    var error: Option<string>

    /** A completed comparison always has a result and no error; a failed one always has an error. */
    ghost predicate Valid()
      reads this
    {
      (compareState == Complete ==> result.Some? && error == None) && (compareState == Error ==> error.Some?)
    }

    /** The page as it mounts. */
    constructor ()
      ensures selectedFile1 == None && selectedFile2 == None
      ensures category == ScanPage.DEFAULT_CATEGORY && allergyText == "" && useCaseText == ""
      ensures compareState == Idle && compareProgress == 0.0 && result == None && error == None && Valid()
    {
      selectedFile1 := None;
      selectedFile2 := None;
      category := ScanPage.DEFAULT_CATEGORY;
      allergyText := "";
      useCaseText := "";
      compareState := Idle;
      compareProgress := 0.0;
      result := None;
      error := None;
    }

    /** `canCompare`. */
    predicate CanCompare()
      reads this
    {
      selectedFile1.Some? && selectedFile2.Some? && category != "" && compareState == Idle
    }

    /** `handleFileSelect1` (`slot` 1) and `handleFileSelect2` (any other
        `slot`): only that slot changes; the last result and error are dropped. */
    method HandleFileSelect(slot: int, f: File)
      modifies this
      ensures slot == 1 ==> selectedFile1 == Some(f) && selectedFile2 == old(selectedFile2)
      ensures slot != 1 ==> selectedFile2 == Some(f) && selectedFile1 == old(selectedFile1)
      ensures result == None && error == None && compareState == Idle && Valid()
      ensures category == old(category) && allergyText == old(allergyText) && useCaseText == old(useCaseText)
      ensures compareProgress == old(compareProgress)
    {
      if slot == 1 {
        selectedFile1 := Some(f);
      } else {
        selectedFile2 := Some(f);
      }
      result := None;
      error := None;
      compareState := Idle;
    }

    /** `handleClearFile1` (`slot` 1) and `handleClearFile2` (any other `slot`). */
    method HandleClearFile(slot: int)
      modifies this
      ensures slot == 1 ==> selectedFile1 == None && selectedFile2 == old(selectedFile2)
      ensures slot != 1 ==> selectedFile2 == None && selectedFile1 == old(selectedFile1)
      ensures result == None && error == None && compareState == Idle && !CanCompare() && Valid()
      ensures category == old(category) && allergyText == old(allergyText) && useCaseText == old(useCaseText)
      ensures compareProgress == old(compareProgress)
    {
      if slot == 1 {
        selectedFile1 := None;
      } else {
        selectedFile2 := None;
      }
      result := None;
      error := None;
      compareState := Idle;
    }

    /** `handleCompareAgain`: back to an empty form. */
    method HandleCompareAgain()
      modifies this
      ensures selectedFile1 == None && selectedFile2 == None
      ensures allergyText == "" && useCaseText == "" && category == ScanPage.DEFAULT_CATEGORY
      ensures result == None && error == None && compareState == Idle && Valid()
      ensures compareProgress == old(compareProgress)
    {
      HandleClearFile(1);
      HandleClearFile(2);
      allergyText := "";
      useCaseText := "";
      category := ScanPage.DEFAULT_CATEGORY;
    }

    /** The "Try again" button of the error panel. */
    method TryAgain()
      modifies this
      ensures error == None && compareState == Idle && Valid()
      ensures selectedFile1 == old(selectedFile1) && selectedFile2 == old(selectedFile2)
      ensures category == old(category) && allergyText == old(allergyText) && useCaseText == old(useCaseText)
      ensures result == old(result) && compareProgress == old(compareProgress)
      ensures CanCompare() <==> selectedFile1.Some? && selectedFile2.Some? && category != ""
    {
      error := None;
      compareState := Idle;
    }

    /** `handleCompare`. Returns the states the page passed through and the
        run of `Api.Compare`, if one was started. */
    method HandleCompare(compress: (File, Settings) -> Option<File>, upload: File -> UploadRun,
                         send: (string, CompareRequest) -> Result<Reply<CompareResult>, Exception>)
      returns (trace: seq<CompareState>, run: Option<CompareRun>)
      requires Valid()
      modifies this
      ensures Valid()
      // the form is never touched
      ensures selectedFile1 == old(selectedFile1) && selectedFile2 == old(selectedFile2)
      ensures category == old(category) && allergyText == old(allergyText) && useCaseText == old(useCaseText)
      // a missing file: only a notice, nothing changes
      ensures (old(selectedFile1).None? || old(selectedFile2).None?) ==>
                trace == [] && run == None && compareState == old(compareState) && result == old(result) &&
                error == old(error) && compareProgress == old(compareProgress)
      ensures old(selectedFile1).Some? && old(selectedFile2).Some? ==>
                && run == Some(Api.Compare(upload(CompressImage(old(selectedFile1).value, ScanPage.PAGE_COMPRESSION, compress)),
                                           upload(CompressImage(old(selectedFile2).value, ScanPage.PAGE_COMPRESSION, compress)),
                                           old(category), Some(old(allergyText)), Some(old(useCaseText)), send))
                // compression never fails, so every run reaches the comparing state
                && (run.value.result.Ok? ==>
                      trace == [Uploading, Comparing, Complete] && result == Some(run.value.result.value) &&
                      error == None && compareProgress == 100.0)
                && (run.value.result.Err? ==>
                      trace == [Uploading, Comparing, Error] && result == old(result) &&
                      error == Some(ScanPage.FailureMessage(ScanPage.FromApi(run.value.result.error))) &&
                      compareProgress == run.value.progress[|run.value.progress| - 1])
      ensures trace != [] ==> compareState == trace[|trace| - 1]
    {
      run := None;
      if selectedFile1.None? || selectedFile2.None? {
        trace := [];
        return;
      }
      // the state is written once per settled step; `trace` records the
      // intermediate states
      var compressed1 := CompressImage(selectedFile1.value, ScanPage.PAGE_COMPRESSION, compress);
      var compressed2 := CompressImage(selectedFile2.value, ScanPage.PAGE_COMPRESSION, compress);
      var c := Api.Compare(upload(compressed1), upload(compressed2), category, Some(allergyText), Some(useCaseText), send);
      run := Some(c);
      match c.result {
        case Ok(r) =>
          compareState, error, result, compareProgress := Complete, None, Some(r), 100.0;
          trace := [Uploading, Comparing, Complete];
        case Err(e) =>
          compareState, error, compareProgress := Error, Some(ScanPage.FailureMessage(ScanPage.FromApi(e))), c.progress[|c.progress| - 1];
          trace := [Uploading, Comparing, Error];
      }
    }
  }

  /** Without both files and a category, or while a comparison is under way
      or settled, the compare button is disabled. */
  lemma CannotCompare(v: CompareView)
    requires v.selectedFile1.None? || v.selectedFile2.None? || v.category == "" || v.compareState != Idle
    ensures !v.CanCompare()
  {
  }
}
