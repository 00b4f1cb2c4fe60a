/** The dialog that adds files to an existing chatbot: the staged files,
    the upload loop that counts the files the server accepted, and the
    notifications it raises. Closing the dialog is the parent's business;
    the model reports whether the dialog asks to be closed. */
module FileEnhancement {
  import opened Common
  import opened Text
  import opened StagedFiles

  const NoFilesWarning := Toast(Warning, "No Files Selected", "Please upload at least one file to enhance your chatbot.")

  /** The number of uploads that the server accepted. */
  function CountOk(outcomes: seq<UploadOutcome>): (n: nat)
    ensures n <= |outcomes|
    decreases |outcomes|
  {
    if outcomes == [] then 0
    else
      var k := |outcomes| - 1;
      CountOk(outcomes[..k]) + (if outcomes[k].UploadOk? then 1 else 0)
  }

  /** Every upload was accepted exactly when the count is the number of
      uploads, and none was exactly when it is zero. */
  lemma {:induction false} CountOkBounds(outcomes: seq<UploadOutcome>)
    ensures CountOk(outcomes) == |outcomes| <==> forall i :: 0 <= i < |outcomes| ==> outcomes[i].UploadOk?
    ensures CountOk(outcomes) == 0 <==> forall i :: 0 <= i < |outcomes| ==> !outcomes[i].UploadOk?
    decreases |outcomes|
  {
    if outcomes != [] {
      var k := |outcomes| - 1;
      CountOkBounds(outcomes[..k]);
      assert forall i :: 0 <= i < k ==> outcomes[..k][i] == outcomes[i];
    }
  }

  /** The error toast for one failed upload, if it failed. */
  function FailureNotice(file: StagedFile, outcome: UploadOutcome): seq<Notice> {
    match outcome
    case UploadOk => []
    case UploadRejected(detail) => [Toast(Error, "Failed to process " + file.name, OrElse(detail, "Unknown error"))]
    case UploadThrew => [Toast(Error, "Error uploading " + file.name, "Network or server error")]
  }

  /** The error toasts of an upload run, in the order of the files: one per
      file the server did not accept. */
  function FailureNotices(files: seq<StagedFile>, outcomes: seq<UploadOutcome>): (ns: seq<Notice>)
    requires |outcomes| == |files|
    ensures |ns| <= |files|
    decreases |files|
  {
    if files == [] then []
    else
      var k := |files| - 1;
      FailureNotices(files[..k], outcomes[..k]) + FailureNotice(files[k], outcomes[k])
  }

  /** One error toast for every file the server did not accept. */
  lemma {:induction false} FailureNoticesCount(files: seq<StagedFile>, outcomes: seq<UploadOutcome>)
    requires |outcomes| == |files|
    ensures |FailureNotices(files, outcomes)| == |files| - CountOk(outcomes)
    ensures forall i :: 0 <= i < |FailureNotices(files, outcomes)| ==>
      FailureNotices(files, outcomes)[i].Toast? && FailureNotices(files, outcomes)[i].kind == Error
    decreases |files|
  {
    if files != [] {
      var k := |files| - 1;
      FailureNoticesCount(files[..k], outcomes[..k]);
      assert forall i :: 0 <= i < k ==> outcomes[..k][i] == outcomes[i];
    }
  }

  /** The title of the success toast: the count, then "File" for exactly one
      and "Files" otherwise. */
  function SuccessTitle(count: nat): (title: string)
    ensures StartsWith(title, NatToString(count) + " ")
    ensures count == 1 ==> title == NatToString(count) + " File Processed"
    ensures count != 1 ==> title == NatToString(count) + " Files Processed"
  {
    NatToString(count) + " " + (if count == 1 then "File" else "Files") + " Processed"
  }

  lemma OneFileTitle()
    ensures SuccessTitle(1) == "1 File Processed"
  {
    assert NatToString(1) == "1";
  }

  function SuccessNotice(count: nat, chatbotName: string): Notice {
    Toast(Success, SuccessTitle(count), chatbotName + " has been enhanced with new information!")
  }

  /** The upload requests of a run: one per staged file, in order, each
      naming the file and the chatbot's collection. */
  function Requests(files: seq<StagedFile>, collection: string): (rs: seq<(string, string)>)
    ensures |rs| == |files|
    ensures forall i :: 0 <= i < |files| ==> rs[i] == (files[i].name, collection)
  {
    seq(|files|, i requires 0 <= i < |files| => (files[i].name, collection))
  }

  /** One more file of the run. */
  lemma UploadStep(files: seq<StagedFile>, collection: string, outcomes: seq<UploadOutcome>, i: nat)
    requires |outcomes| == |files| && i < |files|
    ensures CountOk(outcomes[..i + 1]) == CountOk(outcomes[..i]) + (if outcomes[i].UploadOk? then 1 else 0)
    ensures FailureNotices(files[..i + 1], outcomes[..i + 1]) ==
      FailureNotices(files[..i], outcomes[..i]) + FailureNotice(files[i], outcomes[i])
    ensures Requests(files[..i + 1], collection) == Requests(files[..i], collection) + [(files[i].name, collection)]
  {
    assert files[..i + 1][..i] == files[..i] && outcomes[..i + 1][..i] == outcomes[..i];
    assert files[..i + 1][i] == files[i] && outcomes[..i + 1][i] == outcomes[i];
  }

  /** The loop of `handleSubmit`: every staged file is uploaded in turn, an
      accepted one is counted and a refused one is reported, and the loop
      never stops early. */
  method UploadAll(files: seq<StagedFile>, collection: string, outcomes: seq<UploadOutcome>)
    returns (successCount: nat, requests: seq<(string, string)>, notices: seq<Notice>)
    requires |outcomes| == |files|
    ensures successCount == CountOk(outcomes) && successCount <= |files|
    ensures requests == Requests(files, collection)
    ensures notices == FailureNotices(files, outcomes)
  {
    successCount := 0;
    requests := [];
    notices := [];
    var i := 0;
    while i < |files|
      invariant 0 <= i <= |files|
      invariant successCount == CountOk(outcomes[..i])
      invariant requests == Requests(files[..i], collection)
      invariant notices == FailureNotices(files[..i], outcomes[..i])
    {
      UploadStep(files, collection, outcomes, i);
      var file := files[i];
      requests := requests + [(file.name, collection)];
      if outcomes[i].UploadOk? {
        successCount := successCount + 1;
      }
      notices := notices + FailureNotice(file, outcomes[i]);
      i := i + 1;
    }
    assert files[..i] == files && outcomes[..i] == outcomes;
  }

  /** The uploads it requested, as (file name, collection) pairs, the toasts
      it raised, the staged files left and whether it asks to be closed. */
  datatype Enhancement = Enhancement(requests: seq<(string, string)>, notices: seq<Notice>, filesAfter: seq<StagedFile>, closes: bool)

  /** `handleSubmit` on the staged files and the outcome of every upload. */
  function Enhance(files: seq<StagedFile>, collection: string, chatbotName: string, outcomes: seq<UploadOutcome>): (r: Enhancement)
    requires |outcomes| == |files|
    // with nothing staged: a warning and no upload
    ensures files == [] ==> r.requests == [] && r.notices == [NoFilesWarning] && r.filesAfter == files && !r.closes
    // otherwise one upload per file, in order
    ensures files != [] ==> r.requests == Requests(files, collection)
    // the dialog is cleared and closed exactly when some file was accepted
    ensures files != [] ==> (r.closes <==> CountOk(outcomes) > 0)
    ensures r.closes ==> r.filesAfter == []
    ensures !r.closes ==> r.filesAfter == files
    // one error toast per refused file, then the success toast with the count
    ensures files != [] ==>
      |r.notices| >= |files| - CountOk(outcomes) && r.notices[..|files| - CountOk(outcomes)] == FailureNotices(files, outcomes)
    ensures files != [] && CountOk(outcomes) > 0 ==>
      |r.notices| == |files| - CountOk(outcomes) + 1 && r.notices[|r.notices| - 1] == SuccessNotice(CountOk(outcomes), chatbotName)
    ensures files != [] && CountOk(outcomes) == 0 ==> |r.notices| == |files|
  {
    if files == [] then Enhancement([], [NoFilesWarning], files, false)
    else
      var count := CountOk(outcomes);
      var requests := Requests(files, collection);
      var failures := FailureNotices(files, outcomes);
      FailureNoticesCount(files, outcomes);
      if count > 0 then Enhancement(requests, failures + [SuccessNotice(count, chatbotName)], [], true)
      else Enhancement(requests, failures, files, false)
  }

  class FileEnhancementModal {
    const collectionName: string
    const chatbotName: string
    var files: seq<StagedFile>
    var isLoading: bool

    constructor (collectionName: string, chatbotName: string)
      ensures this.collectionName == collectionName && this.chatbotName == chatbotName
      ensures files == [] && !isLoading
    {
      this.collectionName := collectionName;
      this.chatbotName := chatbotName;
      files := [];
      isLoading := false;
    }

    method HandleFileUpload(picked: Option<seq<StagedFile>>)
      modifies this`files
      ensures files == AddFiles(old(files), picked)
    {
      if picked.Some? {
        files := files + picked.value;
      }
    }

    method RemoveFile(index: int)
      modifies this`files
      ensures files == RemoveAt(old(files), index)
    {
      files := RemoveAt(files, index);
    }

    /** `handleSubmit`. With nothing staged it returns before loading
      starts; otherwise loading is over when it returns, whatever the
      uploads did. */
    method HandleSubmit(outcomes: seq<UploadOutcome>) returns (requests: seq<(string, string)>, notices: seq<Notice>, closes: bool)
      requires |outcomes| == |files|
      modifies this`files, this`isLoading
      ensures var r := Enhance(old(files), collectionName, chatbotName, outcomes);
        requests == r.requests && notices == r.notices && closes == r.closes && files == r.filesAfter
      ensures old(files) == [] ==> isLoading == old(isLoading)
      ensures old(files) != [] ==> !isLoading
    {
      if |files| == 0 {
        return [], [NoFilesWarning], false;
      }
      isLoading := true;
      var successCount;
      successCount, requests, notices := UploadAll(files, collectionName, outcomes);
      closes := false;
      if successCount > 0 {
        notices := notices + [SuccessNotice(successCount, chatbotName)];
        files := [];
        closes := true;
      }
      isLoading := false;
    }
  }
}
