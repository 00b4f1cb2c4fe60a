/** The form that creates a chatbot from a website and optional files: URL
    validation and its messages, the collection name, and the submit
    sequence (validate, scrape, upload the files, record the chatbot, hand
    the task to the dashboard). The URL parser is outside the model: each
    operation that validates receives the protocol it yields for the
    current text, or `None` when it rejects the text. */
module CreationForm {
  import opened Common
  import opened Text
  import opened StagedFiles

  const UrlRequired := "URL is required"
  const UrlScheme := "URL must start with http:// or https://"
  const UrlMalformed := "Please enter a valid URL (e.g., https://example.com)"

  predicate IsWebProtocol(protocol: string) {
    protocol == "http:" || protocol == "https:"
  }

  /** `validateUrl`: whether the URL is accepted, and the error text it
      leaves (empty when accepted). The blank test comes first, then the
      parse, then the protocol. */
  datatype UrlCheck = UrlCheck(valid: bool, error: string)

  function CheckUrl(url: string, parsed: Option<string>): (c: UrlCheck)
    ensures c.valid <==> !IsBlank(url) && parsed.Some? && IsWebProtocol(parsed.value)
    ensures c.valid <==> c.error == ""
    ensures IsBlank(url) ==> c.error == UrlRequired
    ensures !IsBlank(url) && parsed.None? ==> c.error == UrlMalformed
    ensures !IsBlank(url) && parsed.Some? && !IsWebProtocol(parsed.value) ==> c.error == UrlScheme
  {
    if IsBlank(url) then UrlCheck(false, UrlRequired)
    else if parsed.None? then UrlCheck(false, UrlMalformed)
    else if !IsWebProtocol(parsed.value) then UrlCheck(false, UrlScheme)
    else UrlCheck(true, "")
  }

  /** The error text after the URL field is edited to `value`: a cleared
      field clears the error without validating; anything else is
      validated. */
  function ErrorAfterEdit(value: string, parsed: Option<string>): (e: string)
    ensures IsBlank(value) ==> e == ""
    ensures !IsBlank(value) ==> (e == "" <==> CheckUrl(value, parsed).valid)
    ensures !IsBlank(value) ==> e == CheckUrl(value, parsed).error
  {
    if IsBlank(value) then "" else CheckUrl(value, parsed).error
  }

  /** The submit button is enabled when nothing is loading, both fields hold
      text and no URL error is shown. */
  predicate CanSubmit(isLoading: bool, url: string, name: string, urlError: string) {
    !(isLoading || IsBlank(url) || IsBlank(name) || urlError != "")
  }

  /** The button's test in terms of `trim`: enabled exactly when not loading,
      both trimmed fields are non-empty and no error is shown. */
  lemma CanSubmitTrimmed(isLoading: bool, url: string, name: string, urlError: string)
    ensures CanSubmit(isLoading, url, name, urlError) <==>
      !isLoading && Trim(url) != [] && Trim(name) != [] && urlError == ""
  {
    BlankMeansTrimmedEmpty(url);
    BlankMeansTrimmedEmpty(name);
  }

  /** After an edit of the URL field, an enabled submit button means the URL
      passes validation. */
  lemma EnabledMeansValid(value: string, parsed: Option<string>, name: string)
    requires CanSubmit(false, value, name, ErrorAfterEdit(value, parsed))
    ensures CheckUrl(value, parsed).valid
  {
  }

  // ------------------------------------------------------------ collection name

  predicate IsNameChar(c: char) {
    'a' <= c <= 'z' || '0' <= c <= '9' || c == '_'
  }

  /** `name.toLowerCase().replace(/[^a-z0-9]/g, "_")`. */
  function CleanName(name: string): (r: string)
    ensures |r| == |name|
    ensures forall i :: 0 <= i < |r| ==> IsNameChar(r[i])
    ensures forall i :: 0 <= i < |r| ==>
      ('a' <= LowerChar(name[i]) <= 'z' || IsDigit(name[i]) ==> r[i] == LowerChar(name[i]))
    ensures forall i :: 0 <= i < |r| ==>
      (!('a' <= LowerChar(name[i]) <= 'z' || IsDigit(name[i])) ==> r[i] == '_')
  {
    var lower := ToLower(name);
    seq(|name|, i requires 0 <= i < |name| =>
      if 'a' <= lower[i] <= 'z' || IsDigit(lower[i]) then lower[i] else '_')
  }

  /** `generateCollectionName`, with the clock reading as a parameter. */
  function GenerateCollectionName(name: string, userId: string, timestamp: nat): (r: string)
    ensures StartsWith(r, userId + "_")
    ensures |r| == |userId| + |name| + 2 + |NatToString(timestamp)|
    ensures forall i :: |userId| <= i < |r| ==> IsNameChar(r[i])
    // the parts: the cleaned name, then `_`, then the timestamp's digits
    ensures r[|userId| + 1..|userId| + 1 + |name|] == CleanName(name)
    ensures r[|userId| + 1 + |name|] == '_'
    ensures r[|userId| + 2 + |name|..] == NatToString(timestamp)
  {
    userId + "_" + CleanName(name) + "_" + NatToString(timestamp)
  }

  /** The longest run of digits at the end of `s`. */
  function TrailingDigits(s: string): (d: string)
    ensures |d| <= |s| && d == s[|s| - |d|..] && AllDigits(d)
    ensures |d| == |s| || !IsDigit(s[|s| - |d| - 1])
  {
    if |s| > 0 && IsDigit(s[|s| - 1]) then TrailingDigits(s[..|s| - 1]) + [s[|s| - 1]] else []
  }

  lemma {:induction false} TrailingDigitsAfter(head: string, digits: string)
    requires AllDigits(digits) && |head| > 0 && !IsDigit(head[|head| - 1])
    ensures TrailingDigits(head + digits) == digits
    decreases |digits|
  {
    if digits == [] {
      assert head + digits == head;
    } else {
      var last := |digits| - 1;
      var init := head + digits[..last];
      assert head + digits == init + [digits[last]];
      assert digits == digits[..last] + [digits[last]];
      DigitsPrefix(digits, last);
      TrailingDigitsAfter(head, digits[..last]);
      TrailingDigitsSnoc(init, digits[last]);
    }
  }

  lemma TrailingDigitsSnoc(s: string, c: char)
    requires IsDigit(c)
    ensures TrailingDigits(s + [c]) == TrailingDigits(s) + [c]
  {
    var t := s + [c];
    assert t[..|t| - 1] == s && t[|t| - 1] == c;
  }

  lemma DigitsPrefix(digits: string, k: nat)
    requires AllDigits(digits) && k <= |digits|
    ensures AllDigits(digits[..k])
  {
    forall i | 0 <= i < k ensures IsDigit(digits[..k][i]) {
      assert digits[..k][i] == digits[i];
    }
  }

  /** The clock reading can be read back from the end of a collection name. */
  lemma TimestampRecoverable(name: string, userId: string, timestamp: nat)
    ensures AllDigits(TrailingDigits(GenerateCollectionName(name, userId, timestamp)))
    ensures DigitsValue(TrailingDigits(GenerateCollectionName(name, userId, timestamp))) == timestamp
  {
    var head := userId + "_" + CleanName(name) + "_";
    assert GenerateCollectionName(name, userId, timestamp) == head + NatToString(timestamp);
    TrailingDigitsAfter(head, NatToString(timestamp));
    NatToStringRoundTrip(timestamp);
  }

  // ------------------------------------------------------------ submit

  /** What a submission does that is visible outside the form, in order:
      the requests it sends, the alerts it shows and the hand-off to the
      dashboard. */
  datatype Effect =
    | ScrapeRequest(url: string, collectionName: string, chatbotName: string)
    | UploadRequest(fileName: string, uploadCollection: string)
    | RecordRequest(name: string, recordCollection: string, sourceUrl: string, description: string, taskId: Option<string>)
    | Alerted(text: string)
    | HandOff(handOffTaskId: Option<string>, handOffCollection: string, handOffName: string)

  datatype EffectKind = ScrapeKind | UploadKind | RecordKind | AlertKind | HandOffKind

  function KindOf(e: Effect): EffectKind {
    match e
    case ScrapeRequest(_, _, _) => ScrapeKind
    case UploadRequest(_, _) => UploadKind
    case RecordRequest(_, _, _, _, _) => RecordKind
    case Alerted(_) => AlertKind
    case HandOff(_, _, _) => HandOffKind
  }

  /** The kinds of effect that occur among some effects. */
  function Kinds(effects: seq<Effect>): set<EffectKind>
    decreases |effects|
  {
    if effects == [] then {} else {KindOf(effects[0])} + Kinds(effects[1..])
  }

  lemma {:induction false} KindsAppend(a: seq<Effect>, b: seq<Effect>)
    ensures Kinds(a + b) == Kinds(a) + Kinds(b)
    decreases |a|
  {
    if a == [] {
      assert a + b == b;
    } else {
      assert (a + b)[0] == a[0];
      assert (a + b)[1..] == a[1..] + b;
      KindsAppend(a[1..], b);
    }
  }

  lemma KindsSingle(a: Effect)
    ensures Kinds([a]) == {KindOf(a)}
  {
    assert Kinds([a]) == {KindOf(a)} + Kinds([a][1..]);
    assert [a][1..] == [];
  }

  lemma KindsPair(a: Effect, b: Effect)
    ensures Kinds([a, b]) == {KindOf(a), KindOf(b)}
  {
    var s := [a, b];
    assert Kinds(s) == {KindOf(a)} + Kinds(s[1..]);
    assert s[1..] == [b];
    KindsSingle(b);
  }

  /** The alert for a file the server refused, with the `detail` of its
      answer. */
  function RejectedFileAlert(name: string, detail: Option<string>): string {
    "Failed to process " + name + ": " + OrElse(detail, "Unknown error")
  }

  /** The alert for a file whose upload threw. */
  function FailedFileAlert(name: string): string {
    "Network error while uploading " + name
  }

  /** The effects of uploading one file: its upload request, then an alert
      when it failed. */
  function FileLog(file: StagedFile, collection: string, outcome: UploadOutcome): (log: seq<Effect>)
    ensures |log| == (if outcome.UploadOk? then 1 else 2)
    ensures log[0] == UploadRequest(file.name, collection)
    ensures |log| == 2 ==> log[1].Alerted?
  {
    var request := [UploadRequest(file.name, collection)];
    match outcome
    case UploadOk => request
    case UploadRejected(detail) => request + [Alerted(RejectedFileAlert(file.name, detail))]
    case UploadThrew => request + [Alerted(FailedFileAlert(file.name))]
  }

  lemma FileLogKinds(file: StagedFile, collection: string, outcome: UploadOutcome)
    ensures Kinds(FileLog(file, collection, outcome)) == if outcome.UploadOk? then {UploadKind} else {UploadKind, AlertKind}
  {
    var log := FileLog(file, collection, outcome);
    if outcome.UploadOk? {
      assert log == [log[0]];
      KindsSingle(log[0]);
    } else {
      assert log == [log[0], log[1]];
      KindsPair(log[0], log[1]);
    }
  }

  predicate AllUploaded(outcomes: seq<UploadOutcome>) {
    forall i :: 0 <= i < |outcomes| ==> outcomes[i].UploadOk?
  }

  lemma AllUploadedSnoc(outcomes: seq<UploadOutcome>)
    requires |outcomes| > 0
    ensures AllUploaded(outcomes) <==>
      AllUploaded(outcomes[..|outcomes| - 1]) && outcomes[|outcomes| - 1].UploadOk?
  {
    var n := |outcomes| - 1;
    if AllUploaded(outcomes[..n]) && outcomes[n].UploadOk? {
      forall i | 0 <= i < |outcomes| ensures outcomes[i].UploadOk? {
        if i < n { assert outcomes[i] == outcomes[..n][i]; }
      }
    }
  }

  /** The effects of uploading the files one after the other. */
  function UploadLog(files: seq<StagedFile>, collection: string, outcomes: seq<UploadOutcome>): (log: seq<Effect>)
    requires |outcomes| == |files|
    ensures |files| <= |log| <= 2 * |files|
    decreases |files|
  {
    if files == [] then []
    else
      var n := |files| - 1;
      UploadLog(files[..n], collection, outcomes[..n]) + FileLog(files[n], collection, outcomes[n])
  }

  /** An upload per file, and an alert for every failed one. */
  lemma {:induction false} UploadLogKinds(files: seq<StagedFile>, collection: string, outcomes: seq<UploadOutcome>)
    requires |outcomes| == |files|
    ensures Kinds(UploadLog(files, collection, outcomes)) <= {UploadKind, AlertKind}
    ensures |files| > 0 ==> UploadKind in Kinds(UploadLog(files, collection, outcomes))
    ensures AlertKind !in Kinds(UploadLog(files, collection, outcomes)) <==> AllUploaded(outcomes)
    decreases |files|
  {
    if files != [] {
      var n := |files| - 1;
      var prefix := UploadLog(files[..n], collection, outcomes[..n]);
      var last := FileLog(files[n], collection, outcomes[n]);
      UploadLogKinds(files[..n], collection, outcomes[..n]);
      FileLogKinds(files[n], collection, outcomes[n]);
      KindsAppend(prefix, last);
      AllUploadedSnoc(outcomes);
    }
  }

  /** The upload requests among some effects. */
  function Uploads(log: seq<Effect>): seq<Effect>
    decreases |log|
  {
    if log == [] then []
    else Uploads(log[..|log| - 1]) + (if log[|log| - 1].UploadRequest? then [log[|log| - 1]] else [])
  }

  lemma {:induction false} UploadsAppend(a: seq<Effect>, b: seq<Effect>)
    ensures Uploads(a + b) == Uploads(a) + Uploads(b)
    decreases |b|
  {
    if b == [] {
      assert a + b == a;
    } else {
      var n := |b| - 1;
      assert (a + b)[..|a + b| - 1] == a + b[..n];
      assert (a + b)[|a + b| - 1] == b[n];
      UploadsAppend(a, b[..n]);
    }
  }

  lemma UploadsOfFileLog(file: StagedFile, collection: string, outcome: UploadOutcome)
    ensures Uploads(FileLog(file, collection, outcome)) == [UploadRequest(file.name, collection)]
  {
    var log := FileLog(file, collection, outcome);
    var request := [UploadRequest(file.name, collection)];
    assert Uploads(request) == [UploadRequest(file.name, collection)] by {
      assert request[..0] == [];
    }
    if !outcome.UploadOk? {
      assert log[..1] == request;
    }
  }

  /** The upload request of every file, in the order of the files. */
  function UploadRequests(files: seq<StagedFile>, collection: string): (r: seq<Effect>)
    ensures |r| == |files|
    ensures forall i :: 0 <= i < |files| ==> r[i] == UploadRequest(files[i].name, collection)
    decreases |files|
  {
    if files == [] then []
    else
      var n := |files| - 1;
      var r := UploadRequests(files[..n], collection) + [UploadRequest(files[n].name, collection)];
      assert forall i :: 0 <= i < n ==> files[..n][i] == files[i];
      r
  }

  /** One upload request per file, in the order of the files, whatever the
      outcomes: a failure does not stop the uploads that follow it. */
  lemma {:induction false} OneUploadPerFile(files: seq<StagedFile>, collection: string, outcomes: seq<UploadOutcome>)
    requires |outcomes| == |files|
    ensures Uploads(UploadLog(files, collection, outcomes)) == UploadRequests(files, collection)
    decreases |files|
  {
    if files != [] {
      var n := |files| - 1;
      OneUploadPerFile(files[..n], collection, outcomes[..n]);
      UploadsAppend(UploadLog(files[..n], collection, outcomes[..n]), FileLog(files[n], collection, outcomes[n]));
      UploadsOfFileLog(files[n], collection, outcomes[n]);
    }
  }

  /** One more file of the run. */
  lemma UploadLogStep(files: seq<StagedFile>, collection: string, outcomes: seq<UploadOutcome>, i: nat)
    requires |outcomes| == |files| && i < |files|
    ensures UploadLog(files[..i + 1], collection, outcomes[..i + 1]) ==
      UploadLog(files[..i], collection, outcomes[..i]) + FileLog(files[i], collection, outcomes[i])
    ensures AllUploaded(outcomes[..i + 1]) <==> AllUploaded(outcomes[..i]) && outcomes[i].UploadOk?
  {
    assert files[..i + 1][..i] == files[..i] && outcomes[..i + 1][..i] == outcomes[..i];
    assert files[..i + 1][i] == files[i] && outcomes[..i + 1][i] == outcomes[i];
    AllUploadedSnoc(outcomes[..i + 1]);
  }

  /** `processUploadedFiles`: every file is uploaded in turn, failures are
      reported and skipped, and the result says whether every upload
      succeeded. */
  method ProcessUploadedFiles(files: seq<StagedFile>, collection: string, outcomes: seq<UploadOutcome>)
    returns (allSuccessful: bool, log: seq<Effect>)
    requires |outcomes| == |files|
    ensures allSuccessful <==> AllUploaded(outcomes)
    ensures log == UploadLog(files, collection, outcomes)
  {
    allSuccessful := true;
    log := [];
    var i := 0;
    while i < |files|
      invariant 0 <= i <= |files|
      invariant allSuccessful <==> AllUploaded(outcomes[..i])
      invariant log == UploadLog(files[..i], collection, outcomes[..i])
    {
      UploadLogStep(files, collection, outcomes, i);
      var entry := FileLog(files[i], collection, outcomes[i]);
      if !outcomes[i].UploadOk? {
        allSuccessful := false;
      }
      log := log + entry;
      i := i + 1;
    }
    assert files[..i] == files && outcomes[..i] == outcomes;
  }

  /** How the scrape-and-ingest request ended: an OK response with the
      payload's `task_id`, a non-OK response with its `detail`, or a thrown
      error (network failure or a body that cannot be read). */
  datatype ScrapeOutcome = ScrapeOk(taskId: Option<string>) | ScrapeRejected(detail: Option<string>) | ScrapeThrew

  const NameRequired := "Please enter a chatbot name"
  const ScrapeNetworkError := "Network error. Please try again."
  const ScrapeFailed := "Failed to start processing"
  const RecordFailed := "Processing completed but failed to save chatbot record. Please try again."
  const FilesFailed := "URL processing succeeded but some files failed to upload. Chatbot was not created."

  /** The effects of a part of the submission, and whether the form is
      still loading after it. */
  datatype Tail = Tail(effects: seq<Effect>, loading: bool)

  /** The record request: the chatbot's name, collection and website, the
      generated description and the task id of the scrape. */
  function Record(url: string, name: string, collection: string, taskId: Option<string>): Effect {
    RecordRequest(name, collection, url, "Chatbot created from " + url, taskId)
  }

  /** What follows the uploads: the record is created only when every file
      went up, and the dashboard takes over only once the record exists. */
  function RecordTail(url: string, name: string, collection: string, taskId: Option<string>,
                      allUploaded: bool, recordOk: bool): (t: Tail)
    ensures |t.effects| > 0 && Kinds(t.effects) <= {RecordKind, AlertKind, HandOffKind}
    ensures RecordKind in Kinds(t.effects) <==> allUploaded
    ensures HandOffKind in Kinds(t.effects) <==> allUploaded && recordOk
    ensures t.loading <==> allUploaded && recordOk
    ensures !t.loading ==> t.effects[|t.effects| - 1].Alerted?
    ensures allUploaded ==> t.effects[0] == Record(url, name, collection, taskId)
    ensures allUploaded && recordOk ==> t.effects == [Record(url, name, collection, taskId), HandOff(taskId, collection, name)]
    ensures allUploaded && !recordOk ==> t.effects == [Record(url, name, collection, taskId), Alerted(RecordFailed)]
  {
    var record := Record(url, name, collection, taskId);
    if allUploaded then
      if recordOk then
        var t := Tail([record, HandOff(taskId, collection, name)], true);
        KindsPair(record, HandOff(taskId, collection, name));
        t
      else
        var t := Tail([record, Alerted(RecordFailed)], false);
        KindsPair(record, Alerted(RecordFailed));
        t
    else
      Tail([Alerted(FilesFailed)], false)
  }

  /** The uploads that follow an OK scrape: none when no file is staged. */
  function SubmitUploads(files: seq<StagedFile>, collection: string, outcomes: seq<UploadOutcome>): (log: seq<Effect>)
    requires |outcomes| == |files|
    ensures Kinds(log) <= {UploadKind, AlertKind}
    ensures UploadKind in Kinds(log) <==> |files| > 0
    ensures AlertKind !in Kinds(log) <==> AllUploaded(outcomes)
  {
    UploadLogKinds(files, collection, outcomes);
    if |files| > 0 then UploadLog(files, collection, outcomes) else []
  }

  /** What follows the scrape request. Files are uploaded and the record is
      created only after an OK scrape. */
  function ScrapeTail(url: string, name: string, collection: string, files: seq<StagedFile>,
                      scrape: ScrapeOutcome, uploads: seq<UploadOutcome>, recordOk: bool): (t: Tail)
    requires |uploads| == |files|
    // a thrown scrape ends with the network alert, a refused one with its detail or the default
    ensures scrape.ScrapeThrew? ==> t == Tail([Alerted(ScrapeNetworkError)], false)
    ensures scrape.ScrapeRejected? ==> t == Tail([Alerted(OrElse(scrape.detail, ScrapeFailed))], false)
    // an OK scrape: the uploads first, then what the record step does
    ensures scrape.ScrapeOk? ==>
      var uploaded := SubmitUploads(files, collection, uploads);
      var rest := RecordTail(url, name, collection, scrape.taskId, AllUploaded(uploads), recordOk);
      |t.effects| == |uploaded| + |rest.effects| && t.effects[..|uploaded|] == uploaded
      && t.effects[|uploaded|..] == rest.effects && t.loading == rest.loading
  {
    match scrape
    case ScrapeThrew => Tail([Alerted(ScrapeNetworkError)], false)
    case ScrapeRejected(detail) => Tail([Alerted(OrElse(detail, ScrapeFailed))], false)
    case ScrapeOk(taskId) =>
      var rest := RecordTail(url, name, collection, taskId, AllUploaded(uploads), recordOk);
      Tail(SubmitUploads(files, collection, uploads) + rest.effects, rest.loading)
  }

  /** The steps after the scrape request: files are uploaded and the record
      is created only after an OK scrape, the record only when every file
      went up, and the hand-off only once the record exists. */
  lemma ScrapeTailSteps(url: string, name: string, collection: string, files: seq<StagedFile>,
                        scrape: ScrapeOutcome, uploads: seq<UploadOutcome>, recordOk: bool)
    requires |uploads| == |files|
    ensures var t := ScrapeTail(url, name, collection, files, scrape, uploads, recordOk);
      && |t.effects| > 0 && ScrapeKind !in Kinds(t.effects)
      && (UploadKind in Kinds(t.effects) <==> scrape.ScrapeOk? && |files| > 0)
      && (RecordKind in Kinds(t.effects) <==> scrape.ScrapeOk? && AllUploaded(uploads))
      && (HandOffKind in Kinds(t.effects) <==> scrape.ScrapeOk? && AllUploaded(uploads) && recordOk)
      && (t.loading <==> scrape.ScrapeOk? && AllUploaded(uploads) && recordOk)
      && (!t.loading ==> t.effects[|t.effects| - 1].Alerted?)
      && (scrape.ScrapeOk? && AllUploaded(uploads) ==>
            |t.effects| >= 2 && t.effects[|t.effects| - 2] == Record(url, name, collection, scrape.taskId))
      && (scrape.ScrapeOk? && AllUploaded(uploads) && recordOk ==>
            t.effects[|t.effects| - 1] == HandOff(scrape.taskId, collection, name))
  {
    match scrape
    case ScrapeThrew => KindsSingle(Alerted(ScrapeNetworkError));
    case ScrapeRejected(detail) => KindsSingle(Alerted(OrElse(detail, ScrapeFailed)));
    case ScrapeOk(taskId) =>
      var uploaded := SubmitUploads(files, collection, uploads);
      var rest := RecordTail(url, name, collection, taskId, AllUploaded(uploads), recordOk);
      KindsAppend(uploaded, rest.effects);
  }


  datatype Submission = Submission(effects: seq<Effect>, isLoading: bool, urlError: string)

  /** Both checks pass, so the submission sends requests. */
  predicate Ready(url: string, parsed: Option<string>, name: string) {
    CheckUrl(url, parsed).valid && !IsBlank(name)
  }

  /** `handleSubmit` on the form's current contents and the outcomes of its
      requests. `isLoading` is the flag before the submission. */
  function Submit(url: string, parsed: Option<string>, name: string, files: seq<StagedFile>,
                  userId: string, timestamp: nat, isLoading: bool,
                  scrape: ScrapeOutcome, uploads: seq<UploadOutcome>, recordOk: bool): (r: Submission)
    requires |uploads| == |files|
    // the URL is validated on every submission
    ensures r.urlError == CheckUrl(url, parsed).error
    // both checks run before any request, and a failed check changes nothing else
    ensures !CheckUrl(url, parsed).valid ==> r.effects == [] && r.isLoading == isLoading
    ensures CheckUrl(url, parsed).valid && IsBlank(name) ==>
      r.effects == [Alerted(NameRequired)] && r.isLoading == isLoading
    // otherwise the scrape, under the generated collection name, comes first
    ensures Ready(url, parsed, name) ==>
      var collection := GenerateCollectionName(name, userId, timestamp);
      var tail := ScrapeTail(url, name, collection, files, scrape, uploads, recordOk);
      r.effects == [ScrapeRequest(url, collection, name)] + tail.effects && r.isLoading == tail.loading
  {
    var check := CheckUrl(url, parsed);
    if !check.valid then Submission([], isLoading, check.error)
    else if IsBlank(name) then Submission([Alerted(NameRequired)], isLoading, check.error)
    else
      var collection := GenerateCollectionName(name, userId, timestamp);
      var tail := ScrapeTail(url, name, collection, files, scrape, uploads, recordOk);
      Submission([ScrapeRequest(url, collection, name)] + tail.effects, tail.loading, check.error)
  }

  /** The requests of a submission that passes both checks: the scrape
      first and only once, files only after an OK scrape, and the record
      only after an OK scrape when every file went up; the dashboard takes
      over only once the record has been created. */
  lemma {:induction false} SubmitStepsInOrder(url: string, parsed: Option<string>, name: string, files: seq<StagedFile>,
                          userId: string, timestamp: nat, isLoading: bool,
                          scrape: ScrapeOutcome, uploads: seq<UploadOutcome>, recordOk: bool)
    requires |uploads| == |files|
    requires Ready(url, parsed, name)
    ensures var r := Submit(url, parsed, name, files, userId, timestamp, isLoading, scrape, uploads, recordOk);
      && |r.effects| >= 2
      && r.effects[0] == ScrapeRequest(url, GenerateCollectionName(name, userId, timestamp), name)
      && ScrapeKind !in Kinds(r.effects[1..])
      && (UploadKind in Kinds(r.effects) <==> scrape.ScrapeOk? && |files| > 0)
      && (RecordKind in Kinds(r.effects) <==> scrape.ScrapeOk? && AllUploaded(uploads))
      && (HandOffKind in Kinds(r.effects) <==> scrape.ScrapeOk? && AllUploaded(uploads) && recordOk)
  {
    var collection := GenerateCollectionName(name, userId, timestamp);
    var start := [ScrapeRequest(url, collection, name)];
    var tail := ScrapeTail(url, name, collection, files, scrape, uploads, recordOk);
    ScrapeTailSteps(url, name, collection, files, scrape, uploads, recordOk);
    KindsSingle(start[0]);
    KindsAppend(start, tail.effects);
    assert (start + tail.effects)[1..] == tail.effects;
  }

  /** The record request is the next-to-last step and the hand-off the
      last. */
  lemma {:induction false} SubmitRecordBeforeHandOff(url: string, parsed: Option<string>, name: string, files: seq<StagedFile>,
                          userId: string, timestamp: nat, isLoading: bool,
                          scrape: ScrapeOutcome, uploads: seq<UploadOutcome>, recordOk: bool)
    requires |uploads| == |files|
    requires Ready(url, parsed, name) && scrape.ScrapeOk? && AllUploaded(uploads)
    ensures var r := Submit(url, parsed, name, files, userId, timestamp, isLoading, scrape, uploads, recordOk);
      var collection := GenerateCollectionName(name, userId, timestamp);
      && |r.effects| >= 3
      && r.effects[|r.effects| - 2] == Record(url, name, collection, scrape.taskId)
      && (recordOk ==> r.effects[|r.effects| - 1] == HandOff(scrape.taskId, collection, name))
      && (!recordOk ==> r.effects[|r.effects| - 1] == Alerted(RecordFailed))
  {
    var collection := GenerateCollectionName(name, userId, timestamp);
    var start := [ScrapeRequest(url, collection, name)];
    var rest := RecordTail(url, name, collection, scrape.taskId, true, recordOk);
    var uploaded := SubmitUploads(files, collection, uploads);
    var tail := ScrapeTail(url, name, collection, files, scrape, uploads, recordOk);
    assert tail.effects == uploaded + rest.effects;
    var r := Submit(url, parsed, name, files, userId, timestamp, isLoading, scrape, uploads, recordOk);
    assert r.effects == start + tail.effects;
    var effects := start + (uploaded + rest.effects);
    assert |rest.effects| == 2;
    assert effects[|effects| - 2] == rest.effects[0];
    assert effects[|effects| - 1] == rest.effects[1];
  }

  /** Loading goes on after a submission that passes both checks only when
      the dashboard has taken over; every other such submission ends with an
      alert and clears the flag. */
  lemma {:induction false} SubmitEndsLoading(url: string, parsed: Option<string>, name: string, files: seq<StagedFile>,
                          userId: string, timestamp: nat, isLoading: bool,
                          scrape: ScrapeOutcome, uploads: seq<UploadOutcome>, recordOk: bool)
    requires |uploads| == |files|
    requires Ready(url, parsed, name)
    ensures var r := Submit(url, parsed, name, files, userId, timestamp, isLoading, scrape, uploads, recordOk);
      && (r.isLoading <==> HandOffKind in Kinds(r.effects))
      && (!r.isLoading ==> r.effects[|r.effects| - 1].Alerted?)
  {
    var collection := GenerateCollectionName(name, userId, timestamp);
    var start := [ScrapeRequest(url, collection, name)];
    var tail := ScrapeTail(url, name, collection, files, scrape, uploads, recordOk);
    ScrapeTailSteps(url, name, collection, files, scrape, uploads, recordOk);
    var r := Submit(url, parsed, name, files, userId, timestamp, isLoading, scrape, uploads, recordOk);
    assert r.effects == start + tail.effects && r.isLoading == tail.loading;
    KindsSingle(start[0]);
    KindsAppend(start, tail.effects);
    assert HandOffKind in Kinds(r.effects) <==> HandOffKind in Kinds(tail.effects);
    assert r.effects[|r.effects| - 1] == tail.effects[|tail.effects| - 1];
  }

  /** The form's fields. */
  class CreationFormState {
    var url: string
    var chatbotName: string
    var files: seq<StagedFile>
    var isLoading: bool
    var urlError: string

    constructor ()
      ensures url == "" && chatbotName == "" && files == [] && !isLoading && urlError == ""
    {
      url, chatbotName, files, isLoading, urlError := "", "", [], false, "";
    }

    predicate SubmitEnabled()
      reads this
    {
      CanSubmit(isLoading, url, chatbotName, urlError)
    }

    method SetChatbotName(value: string)
      modifies this`chatbotName
      ensures chatbotName == value
    {
      chatbotName := value;
    }

    /** The URL field's change handler. */
    method OnUrlChange(value: string, parsed: Option<string>)
      modifies this`url, this`urlError
      ensures url == value && urlError == ErrorAfterEdit(value, parsed)
    {
      url := value;
      if !IsBlank(value) {
        urlError := CheckUrl(value, parsed).error;
      } else {
        urlError := "";
      }
    }

    method HandleFileUpload(picked: Option<seq<StagedFile>>)
      modifies this`files
      ensures files == AddFiles(old(files), picked)
    {
      if picked.Some? {
        files := files + picked.value;
      }
    }

    method RemoveFile(index: int)
      modifies this`files
      ensures files == RemoveAt(old(files), index)
    {
      files := RemoveAt(files, index);
    }

    /** `handleSubmit`, with the parse of the current URL, the clock reading
      and the outcome of every request it may send as parameters. */
    method HandleSubmit(parsed: Option<string>, userId: string, timestamp: nat,
                        scrape: ScrapeOutcome, uploads: seq<UploadOutcome>, recordOk: bool)
      returns (effects: seq<Effect>)
      requires |uploads| == |files|
      modifies this`isLoading, this`urlError
      ensures var r := Submit(old(url), parsed, old(chatbotName), old(files), userId, timestamp,
                              old(isLoading), scrape, uploads, recordOk);
        effects == r.effects && isLoading == r.isLoading && urlError == r.urlError
    {
      var url, name, files := this.url, chatbotName, this.files;
      var check := CheckUrl(url, parsed);
      urlError := check.error;
      if !check.valid {
        return [];
      }
      if IsBlank(name) {
        return [Alerted(NameRequired)];
      }
      isLoading := true;
      var collection := GenerateCollectionName(name, userId, timestamp);
      var tail, loading := AfterScrape(url, name, files, collection, scrape, uploads, recordOk);
      effects := [ScrapeRequest(url, collection, name)] + tail;
      isLoading := loading;
    }
  }

  /** The part of `handleSubmit` after the scrape request has settled. */
  method AfterScrape(url: string, name: string, files: seq<StagedFile>, collection: string,
                     scrape: ScrapeOutcome, uploads: seq<UploadOutcome>, recordOk: bool)
    returns (tail: seq<Effect>, loading: bool)
    requires |uploads| == |files|
    ensures Tail(tail, loading) == ScrapeTail(url, name, collection, files, scrape, uploads, recordOk)
  {
    loading := true;
    match scrape {
      case ScrapeThrew =>
        tail := [Alerted(ScrapeNetworkError)];
        loading := false;
      case ScrapeRejected(detail) =>
        tail := [Alerted(OrElse(detail, ScrapeFailed))];
        loading := false;
      case ScrapeOk(taskId) =>
        var allFilesProcessed := true;
        tail := [];
        if |files| > 0 {
          allFilesProcessed, tail := ProcessUploadedFiles(files, collection, uploads);
        }
        if allFilesProcessed {
          tail := tail + [Record(url, name, collection, taskId)];
          if recordOk {
            tail := tail + [HandOff(taskId, collection, name)];
          } else {
            tail := tail + [Alerted(RecordFailed)];
            loading := false;
          }
        } else {
          tail := tail + [Alerted(FilesFailed)];
          loading := false;
        }
    }
  }
}
