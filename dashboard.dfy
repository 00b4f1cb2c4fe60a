/** The dashboard page: the state that follows one website-processing task
    (its id, the loader, a stop in progress, whether the success toast has
    been shown, the creation form), the handlers that change it, and the
    choice of what the main area shows. Every transition is a function on a
    state record, so that properties of whole event sequences can be stated;
    the page class applies those functions to its fields. */
module Dashboard {
  import opened Common
  import opened Text

  datatype PageState = PageState(
    currentTaskId: Option<string>,
    showLoader: bool,
    isCancelling: bool,
    hasShownSuccessToast: bool,
    showCreateForm: bool,
    selectedChatbot: Option<Chatbot>)

  predicate HasTask(s: PageState) {
    Truthy(s.currentTaskId)
  }

  /** The condition under which the polling effect runs. */
  predicate PollingActive(s: PageState): (b: bool)
    // polling needs a non-empty task id, the loader on screen and no cancel in flight
    ensures b ==> s.currentTaskId.Some? && s.currentTaskId.value != "" && s.showLoader && !s.isCancelling
    ensures s.currentTaskId == None || s.currentTaskId == Some("") || !s.showLoader || s.isCancelling ==> !b
  {
    HasTask(s) && s.showLoader && !s.isCancelling
  }

  /** What a handler produces besides its new state: the toasts it raises and
      whether it reloads the page. */
  datatype Step = Step(state: PageState, notices: seq<Notice>, reload: bool)

  // ------------------------------------------------------------ polling

  /** One progress poll. `NoProgress` is a non-OK response or a thrown error,
      which the poll ignores; otherwise the payload's fields. */
  datatype PollResponse =
    | NoProgress
    | Progress(status: Option<string>, isCompleted: bool, error: Option<string>, pagesStored: Option<nat>)

  /** The classification of a poll, in the order the checks run. */
  datatype PollStatus = Completed | Failed(message: string) | Cancelled | Partial(pages: nat) | Pending

  function Classify(r: PollResponse): (c: PollStatus)
    ensures r.NoProgress? ==> c == Pending
    ensures r.Progress? ==>
      (c == Completed <==> r.status == Some("completed") || r.isCompleted)
    ensures r.Progress? ==>
      (c.Failed? <==> !(r.status == Some("completed") || r.isCompleted)
                      && (r.status == Some("error") || Truthy(r.error)))
    ensures r.Progress? ==>
      (c == Cancelled <==> !(r.status == Some("completed") || r.isCompleted)
                           && !(r.status == Some("error") || Truthy(r.error))
                           && r.status == Some("cancelled"))
    ensures r.Progress? ==>
      (c.Partial? <==> !(r.status == Some("completed") || r.isCompleted)
                       && !(r.status == Some("error") || Truthy(r.error))
                       && r.status == Some("partial_completed"))
    ensures c.Failed? ==> c.message == OrElse(r.error, "An error occurred during processing")
    ensures c.Partial? ==> c.pages == r.pagesStored.GetOr(0)
  {
    match r
    case NoProgress => Pending
    case Progress(status, isCompleted, error, pages) =>
      if status == Some("completed") || isCompleted then Completed
      else if status == Some("error") || Truthy(error) then Failed(OrElse(error, "An error occurred during processing"))
      else if status == Some("cancelled") then Cancelled
      else if status == Some("partial_completed") then Partial(pages.GetOr(0))
      else Pending
  }

  predicate IsTerminal(c: PollStatus) {
    !c.Pending?
  }

  const CreatedToast := Toast(Success, "Chatbot Created!", "Your AI chatbot is ready to use!")

  const PollCancelledToast := Toast(Success, "Process Cancelled", "The scraping process has been cancelled successfully")

  function FailedToast(message: string): Notice {
    Toast(Error, "Processing Failed", message)
  }

  function PartialToast(pages: nat): Notice {
    Toast(Success, "Chatbot Created with Partial Data!",
      "Successfully processed " + NatToString(pages) + " pages. Your chatbot is ready to use!")
  }

  /** The number of completion toasts in a list of notices. */
  function CreatedCount(notices: seq<Notice>): nat {
    if notices == [] then 0
    else (if notices[0] == CreatedToast then 1 else 0) + CreatedCount(notices[1..])
  }

  /** What `checkProgress` does once a poll is classified, read against the
      current state. */
  function Dispatch(s: PageState, c: PollStatus): (t: Step)
    // a pending poll changes nothing
    ensures !IsTerminal(c) ==> t == Step(s, [], false)
    // every terminal poll ends the task and hides the loader
    ensures IsTerminal(c) ==> t.state.currentTaskId.None? && !t.state.showLoader
    // only completion touches the form and the toast flag, and it closes the form
    ensures c.Completed? ==> !t.state.showCreateForm && t.state.hasShownSuccessToast
    ensures !c.Completed? ==>
      t.state.showCreateForm == s.showCreateForm && t.state.hasShownSuccessToast == s.hasShownSuccessToast
    // cancellation and partial completion end a stop in progress; the others keep the flag
    ensures (c.Cancelled? || c.Partial?) ==> !t.state.isCancelling
    ensures !(c.Cancelled? || c.Partial?) ==> t.state.isCancelling == s.isCancelling
    ensures t.state.selectedChatbot == s.selectedChatbot
    ensures c.Completed? ==> t.notices == (if s.hasShownSuccessToast then [] else [CreatedToast])
    ensures c.Failed? ==> t.notices == [FailedToast(c.message)]
    ensures c.Cancelled? ==> t.notices == [PollCancelledToast]
    ensures c.Partial? ==> t.notices == [PartialToast(c.pages)]
    // the page reloads after completion, full or partial
    ensures t.reload <==> c.Completed? || c.Partial?
  {
    var ended := s.(currentTaskId := None, showLoader := false);
    match c
    case Completed =>
      var notices := if s.hasShownSuccessToast then [] else [CreatedToast];
      Step(ended.(showCreateForm := false, hasShownSuccessToast := true), notices, true)
    case Failed(message) =>
      Step(ended, [FailedToast(message)], false)
    case Cancelled =>
      Step(ended.(isCancelling := false), [PollCancelledToast], false)
    case Partial(pages) =>
      Step(ended.(isCancelling := false), [PartialToast(pages)], true)
    case Pending =>
      Step(s, [], false)
  }

  /** `checkProgress` on one response. */
  function PollStep(s: PageState, r: PollResponse): Step {
    Dispatch(s, Classify(r))
  }

  // ------------------------------------------------------------ stopping

  /** The common first half of cancel and stop-and-store. */
  datatype Begun = Begun(state: PageState, request: Option<string>)

  /** Without a task nothing happens and no request is sent; otherwise a stop
      is in progress and the task id is sent. */
  function BeginStop(s: PageState): (b: Begun)
    ensures !HasTask(s) <==> b.request.None?
    ensures !HasTask(s) ==> b.state == s
    ensures HasTask(s) ==> b.request == s.currentTaskId && b.state == s.(isCancelling := true)
    ensures !PollingActive(b.state)
  {
    if HasTask(s) then Begun(s.(isCancelling := true), s.currentTaskId) else Begun(s, None)
  }

  /** Outcome of the stop-scraping request. `Threw` covers a network failure
      and an OK response whose body cannot be read; a non-OK response whose
      body cannot be read is `Rejected(None)`. */
  datatype CancelOutcome = CancelAccepted(message: Option<string>) | CancelRejected(message: Option<string>) | CancelThrew

  /** Outcome of the stop-and-store request, with the payload's counts and
      its `chatbot_available` flag. */
  datatype StoreOutcome =
    | Stored(pagesStored: Option<nat>, chunksStored: Option<nat>, chatbotAvailable: bool)
    | StoreRejected(message: Option<string>)
    | StoreThrew

  /** The state after a successful stop: the task is over and the loader,
      the stop flag and the form are gone. */
  function Stopped(s: PageState): (t: PageState)
    ensures t.currentTaskId.None? && !t.showLoader && !t.isCancelling && !t.showCreateForm
    ensures t.hasShownSuccessToast == s.hasShownSuccessToast && t.selectedChatbot == s.selectedChatbot
  {
    s.(currentTaskId := None, showLoader := false, isCancelling := false, showCreateForm := false)
  }

  /** The toast that ends a cancel; never the completion toast. */
  function CancelNotice(outcome: CancelOutcome): (n: Notice)
    ensures n.Toast? && (n.kind == Success <==> outcome.CancelAccepted?)
    ensures n != CreatedToast
  {
    match outcome
    case CancelAccepted(message) =>
      Toast(Success, "Process Cancelled", OrElse(message, "Scraping process has been cancelled successfully"))
    case CancelRejected(message) =>
      Toast(Error, "Cancellation Failed", OrElse(message, "Failed to cancel the scraping process"))
    case CancelThrew =>
      Toast(Error, "Cancellation Error", "An error occurred while trying to cancel the process")
  }

  /** `handleCancelScraping` once its request has settled. */
  function CancelSettled(s: PageState, outcome: CancelOutcome): (t: Step)
    ensures outcome.CancelAccepted? ==> t.state == Stopped(s)
    ensures !outcome.CancelAccepted? ==> t.state == s.(isCancelling := false)
    ensures t.notices == [CancelNotice(outcome)] && !t.reload
    ensures t.notices[0].Toast? && (t.notices[0].kind == Success <==> outcome.CancelAccepted?)
  {
    var state := if outcome.CancelAccepted? then Stopped(s) else s.(isCancelling := false);
    Step(state, [CancelNotice(outcome)], false)
  }

  /** `${n}` of an optional number field. */
  function RenderedCount(n: Option<nat>): (r: string)
    ensures n.Some? ==> r == NatToString(n.value)
    ensures n.None? ==> r == "undefined"
  {
    if n.Some? then NatToString(n.value) else "undefined"
  }

  /** The toast that ends a stop-and-store; never the completion toast. */
  function StoreNotice(outcome: StoreOutcome): (n: Notice)
    ensures n.Toast? && (n.kind == Success <==> outcome.Stored?)
    ensures n != CreatedToast
  {
    match outcome
    case Stored(pages, chunks, available) =>
      Toast(Success, "Partial Data Saved!",
        if available then
          "Successfully saved " + RenderedCount(pages) + " pages and " + RenderedCount(chunks)
            + " content chunks. Your partial chatbot is ready to use!"
        else
          "Saved " + RenderedCount(pages) + " pages and " + RenderedCount(chunks) + " content chunks.")
    case StoreRejected(message) =>
      Toast(Error, "Save Failed", OrElse(message, "Failed to save the partial data"))
    case StoreThrew =>
      Toast(Error, "Save Error", "An error occurred while trying to save the partial data")
  }

  /** `handleStopAndStoreScraping` once its request has settled. */
  function StoreSettled(s: PageState, outcome: StoreOutcome): (t: Step)
    ensures outcome.Stored? ==> t.state == Stopped(s)
    ensures !outcome.Stored? ==> t.state == s.(isCancelling := false)
    ensures t.notices == [StoreNotice(outcome)]
    ensures t.notices[0].Toast? && (t.notices[0].kind == Success <==> outcome.Stored?)
    ensures t.reload <==> outcome.Stored? && outcome.chatbotAvailable
  {
    var state := if outcome.Stored? then Stopped(s) else s.(isCancelling := false);
    Step(state, [StoreNotice(outcome)], outcome.Stored? && outcome.chatbotAvailable)
  }

  // ------------------------------------------------------------ navigation

  /** `handleStartProcessing`: the form hands over a new task. */
  function StartProcessing(s: PageState, taskId: Option<string>): (t: PageState)
    ensures t.currentTaskId == taskId && t.showLoader && !t.showCreateForm
    ensures !t.hasShownSuccessToast && !t.isCancelling
    ensures t.selectedChatbot == s.selectedChatbot
    ensures PollingActive(t) <==> Truthy(taskId)
  {
    s.(currentTaskId := taskId, showLoader := true, showCreateForm := false,
       hasShownSuccessToast := false, isCancelling := false)
  }

  /** `handleCreateNew`. */
  function CreateNew(s: PageState): (t: PageState)
    ensures t.selectedChatbot.None? && t.showCreateForm
    ensures t.(selectedChatbot := s.selectedChatbot, showCreateForm := s.showCreateForm) == s
  {
    s.(selectedChatbot := None, showCreateForm := true)
  }

  /** `handleSelectChatbot`; the sidebar passes no chatbot to clear the
      selection after deleting the selected one. */
  function SelectChatbot(s: PageState, chatbot: Option<Chatbot>): (t: PageState)
    ensures t.selectedChatbot == chatbot && !t.showCreateForm
    ensures t.(selectedChatbot := s.selectedChatbot, showCreateForm := s.showCreateForm) == s
  {
    s.(selectedChatbot := chatbot, showCreateForm := false)
  }

  datatype View = LoaderView | CreateFormView | DetailsView(chatbot: Chatbot) | WelcomeView

  /** What the main area shows: the loader first, then the form, then the
      selected chatbot, then the welcome panel. */
  function MainView(s: PageState): (v: View)
    ensures v == LoaderView <==> s.showLoader
    ensures v == CreateFormView <==> !s.showLoader && s.showCreateForm
    ensures v.DetailsView? <==> !s.showLoader && !s.showCreateForm && s.selectedChatbot.Some?
    ensures v.DetailsView? ==> v.chatbot == s.selectedChatbot.value
    ensures v == WelcomeView <==> !s.showLoader && !s.showCreateForm && s.selectedChatbot.None?
  {
    if s.showLoader then LoaderView
    else if s.showCreateForm then CreateFormView
    else if s.selectedChatbot.Some? then DetailsView(s.selectedChatbot.value)
    else WelcomeView
  }

  /** Creating a new chatbot shows the form unless a task is running. */
  lemma CreateNewShowsForm(s: PageState)
    ensures MainView(CreateNew(s)) == (if s.showLoader then LoaderView else CreateFormView)
  {
  }

  /** Selecting a chatbot shows its details unless a task is running. */
  lemma SelectShowsDetails(s: PageState, c: Chatbot)
    ensures MainView(SelectChatbot(s, Some(c))) == (if s.showLoader then LoaderView else DetailsView(c))
  {
  }

  // ------------------------------------------------------------ traces

  /** The events the page reacts to. A poll happens only while polling is
      active; the two stops are split at their request. */
  datatype Event =
    | Poll(response: PollResponse)
    | CancelRequested
    | CancelAnswered(cancel: CancelOutcome)
    | StoreRequested
    | StoreAnswered(store: StoreOutcome)
    | Start(taskId: Option<string>)
    | CreateNewClicked
    | Selected(chatbot: Option<Chatbot>)

  function Apply(s: PageState, e: Event): (t: Step)
    // only starting a task lowers the toast flag
    ensures !e.Start? && s.hasShownSuccessToast ==> t.state.hasShownSuccessToast
    // a poll that arrives while polling is inactive changes nothing
    ensures e.Poll? && !PollingActive(s) ==> t == Step(s, [], false)
  {
    match e
    case Poll(r) => if PollingActive(s) then PollStep(s, r) else Step(s, [], false)
    case CancelRequested => Step(BeginStop(s).state, [], false)
    case CancelAnswered(o) => CancelSettled(s, o)
    case StoreRequested => Step(BeginStop(s).state, [], false)
    case StoreAnswered(o) => StoreSettled(s, o)
    case Start(id) => Step(StartProcessing(s, id), [], false)
    case CreateNewClicked => Step(CreateNew(s), [], false)
    case Selected(c) => Step(SelectChatbot(s, c), [], false)
  }

  /** A completion toast is raised only while the flag is down, and it
      raises the flag. */
  lemma ApplyCreatedToast(s: PageState, e: Event)
    ensures CreatedCount(Apply(s, e).notices) <= (if s.hasShownSuccessToast then 0 else 1)
    ensures CreatedCount(Apply(s, e).notices) > 0 ==> Apply(s, e).state.hasShownSuccessToast
  {
    var t := Apply(s, e);
    match e {
      case Poll(r) =>
        if PollingActive(s) {
          DispatchCreatedToast(s, Classify(r));
        } else {
          assert t.notices == [];
        }
      case CancelAnswered(o) =>
        CreatedCountSingle(CancelNotice(o));
      case StoreAnswered(o) =>
        CreatedCountSingle(StoreNotice(o));
      case _ =>
        assert t.notices == [];
    }
  }

  lemma DispatchCreatedToast(s: PageState, c: PollStatus)
    ensures CreatedCount(Dispatch(s, c).notices) == (if c.Completed? && !s.hasShownSuccessToast then 1 else 0)
  {
    match c {
      case Completed =>
        if !s.hasShownSuccessToast { CreatedCountSingle(CreatedToast); }
      case Failed(message) => CreatedCountSingle(FailedToast(message));
      case Cancelled => CreatedCountSingle(PollCancelledToast);
      case Partial(pages) => CreatedCountSingle(PartialToast(pages));
      case Pending =>
    }
  }

  lemma CreatedCountSingle(n: Notice)
    ensures CreatedCount([n]) == if n == CreatedToast then 1 else 0
  {
    assert [n][1..] == [];
  }

  /** The state after a sequence of events. */
  function Final(s: PageState, events: seq<Event>): PageState
    decreases |events|
  {
    if events == [] then s else Final(Apply(s, events[0]).state, events[1..])
  }

  /** Every toast raised along a sequence of events, in order. */
  function Notices(s: PageState, events: seq<Event>): seq<Notice>
    decreases |events|
  {
    if events == [] then [] else Apply(s, events[0]).notices + Notices(Apply(s, events[0]).state, events[1..])
  }

  predicate NoStart(events: seq<Event>) {
    forall i :: 0 <= i < |events| ==> !events[i].Start?
  }

  lemma {:induction false} CreatedCountAppend(a: seq<Notice>, b: seq<Notice>)
    ensures CreatedCount(a + b) == CreatedCount(a) + CreatedCount(b)
    decreases |a|
  {
    if a == [] {
      assert a + b == b;
    } else {
      assert (a + b)[1..] == a[1..] + b;
      CreatedCountAppend(a[1..], b);
    }
  }

  /** The completion toast is shown at most once per task: along any events
      that do not start a new task, it appears at most once, and not at all
      once it has been shown. */
  lemma {:induction false} CreatedAtMostOnce(s: PageState, events: seq<Event>)
    requires NoStart(events)
    ensures CreatedCount(Notices(s, events)) <= (if s.hasShownSuccessToast then 0 else 1)
    ensures s.hasShownSuccessToast ==> Final(s, events).hasShownSuccessToast
    decreases |events|
  {
    if events != [] {
      var t := Apply(s, events[0]);
      assert NoStart(events[1..]) by {
        forall i | 0 <= i < |events[1..]| ensures !events[1..][i].Start? {
          assert events[1..][i] == events[i + 1];
        }
      }
      assert !events[0].Start?;
      ApplyCreatedToast(s, events[0]);
      CreatedAtMostOnce(t.state, events[1..]);
      CreatedCountAppend(t.notices, Notices(t.state, events[1..]));
    }
  }

  /** Every stop, whatever its outcome, leaves polling inactive until it is
      answered, and a failed answer hands the task back to polling. */
  lemma StopPausesPolling(s: PageState, o: CancelOutcome)
    requires PollingActive(s)
    ensures !PollingActive(Apply(s, CancelRequested).state)
    ensures !o.CancelAccepted? ==> PollingActive(Apply(Apply(s, CancelRequested).state, CancelAnswered(o)).state)
    ensures o.CancelAccepted? ==> !HasTask(Apply(Apply(s, CancelRequested).state, CancelAnswered(o)).state)
  {
  }

  // ------------------------------------------------------------ the page

  class DashboardPage {
    var currentTaskId: Option<string>
    var showLoader: bool
    var isCancelling: bool
    var hasShownSuccessToast: bool
    var showCreateForm: bool
    var selectedChatbot: Option<Chatbot>

    function State(): PageState
      reads this
    {
      PageState(currentTaskId, showLoader, isCancelling, hasShownSuccessToast, showCreateForm, selectedChatbot)
    }

    method SetState(s: PageState)
      modifies this
      ensures State() == s
    {
      currentTaskId := s.currentTaskId;
      showLoader := s.showLoader;
      isCancelling := s.isCancelling;
      hasShownSuccessToast := s.hasShownSuccessToast;
      showCreateForm := s.showCreateForm;
      selectedChatbot := s.selectedChatbot;
    }

    constructor ()
      ensures State() == PageState(None, false, false, false, false, None)
      ensures MainView(State()) == WelcomeView
    {
      currentTaskId := None;
      showLoader := false;
      isCancelling := false;
      hasShownSuccessToast := false;
      showCreateForm := false;
      selectedChatbot := None;
    }

    /** One tick of the polling interval, which exists only while polling is
      active. */
    method CheckProgress(r: PollResponse) returns (notices: seq<Notice>, reload: bool)
      requires PollingActive(State())
      modifies this
      ensures State() == PollStep(old(State()), r).state
      ensures notices == PollStep(old(State()), r).notices && reload == PollStep(old(State()), r).reload
    {
      var step := PollStep(State(), r);
      SetState(step.state);
      notices, reload := step.notices, step.reload;
    }

    /** The first half of `handleCancelScraping` and of
      `handleStopAndStoreScraping`. */
    method RequestStop() returns (request: Option<string>)
      modifies this
      ensures State() == BeginStop(old(State())).state && request == BeginStop(old(State())).request
    {
      var b := BeginStop(State());
      SetState(b.state);
      request := b.request;
    }

    method CancelAnswered(outcome: CancelOutcome) returns (notices: seq<Notice>)
      modifies this
      ensures State() == CancelSettled(old(State()), outcome).state
      ensures notices == CancelSettled(old(State()), outcome).notices
    {
      var step := CancelSettled(State(), outcome);
      SetState(step.state);
      notices := step.notices;
    }

    method StoreAnswered(outcome: StoreOutcome) returns (notices: seq<Notice>, reload: bool)
      modifies this
      ensures State() == StoreSettled(old(State()), outcome).state
      ensures notices == StoreSettled(old(State()), outcome).notices
      ensures reload == StoreSettled(old(State()), outcome).reload
    {
      var step := StoreSettled(State(), outcome);
      SetState(step.state);
      notices, reload := step.notices, step.reload;
    }

    method HandleStartProcessing(taskId: Option<string>)
      modifies this
      ensures State() == StartProcessing(old(State()), taskId)
    {
      SetState(StartProcessing(State(), taskId));
    }

    method HandleCreateNew()
      modifies this`selectedChatbot, this`showCreateForm
      ensures State() == CreateNew(old(State()))
    {
      selectedChatbot := None;
      showCreateForm := true;
    }

    method HandleSelectChatbot(chatbot: Option<Chatbot>)
      modifies this`selectedChatbot, this`showCreateForm
      ensures State() == SelectChatbot(old(State()), chatbot)
    {
      selectedChatbot := chatbot;
      showCreateForm := false;
    }
  }
}
