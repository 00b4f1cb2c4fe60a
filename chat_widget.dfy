/** The embeddable chat widget: the conversation it keeps in memory, the
    rule by which one submission adds a user message and exactly one bot
    reply, the links its action buttons open, and the theme lookup. */
module ChatWidget {
  import opened Common
  import opened Text

  const Greeting := "Hi! I'm here to help you. Ask me anything about this website or any topic you'd like to know about."
  const Apology := "I'm sorry, I couldn't process your request."
  const FailureReply := "Sorry, I encountered an error while processing your request. Please try again later."

  // ------------------------------------------------------------ buttons

  /** The scheme put in front of a button's data, by its case-folded type. */
  function TargetPrefix(buttonType: string): string {
    var t := ToLower(buttonType);
    if t == "email" then "mailto:" else if t == "phone" then "tel:" else ""
  }

  /** `handleButtonClick`: the address the button opens. E-mail buttons get
      a `mailto:` link, phone buttons a `tel:` link, and every other type
      (LinkedIn, website, url, anything unknown) opens its data as given. */
  function ButtonTarget(buttonType: string, data: string): (url: string)
    ensures url == TargetPrefix(buttonType) + data
    ensures TargetPrefix(buttonType) in {"mailto:", "tel:", ""}
    ensures ToLower(buttonType) == "email" <==> StartsWith(url, "mailto:") && url[7..] == data
    ensures ToLower(buttonType) == "phone" <==> StartsWith(url, "tel:") && url[4..] == data
  {
    var url := TargetPrefix(buttonType) + data;
    assert "mailto:"[0] != "tel:"[0];
    url
  }

  lemma {:induction false} ToLowerIdempotent(s: string)
    ensures ToLower(ToLower(s)) == ToLower(s)
  {
    var once := ToLower(s);
    forall i | 0 <= i < |s| ensures ToLower(once)[i] == once[i] {
      assert LowerChar(once[i]) == once[i];
    }
  }

  /** The button type is compared without regard to case: a type and its
      lower-case form open the same address. */
  lemma ButtonTargetCaseInsensitive(buttonType: string, data: string)
    ensures ButtonTarget(buttonType, data) == ButtonTarget(ToLower(buttonType), data)
  {
    ToLowerIdempotent(buttonType);
  }

  // ------------------------------------------------------------ themes

  const ThemeNames: set<string> := {
    "greenish", "ocean", "sunset", "royal", "crimson", "midnight",
    "forest", "golden", "coral", "arctic", "neon", "cosmos" }

  const DefaultTheme := "greenish"

  /** `currentTheme`: the chosen theme when the table has it, otherwise the
      default one. */
  function CurrentTheme(name: string): (r: string)
    ensures r in ThemeNames
    ensures name in ThemeNames ==> r == name
    ensures name !in ThemeNames ==> r == DefaultTheme
  {
    if name in ThemeNames then name else DefaultTheme
  }

  // ------------------------------------------------------------ messages

  datatype Message = Message(
    id: int,
    text: string,
    isUser: bool,
    buttons: bool,
    buttonType: Option<seq<string>>,
    buttonData: Option<seq<string>>)

  /** What the question-answering request produced: a failure (network
      error, non-OK status, unreadable body) or the fields of its payload. */
  datatype AskOutcome =
    | AskFailed
    | Answered(
        response: Option<string>,
        answer: Option<string>,
        buttons: bool,
        buttonType: Option<seq<string>>,
        buttonData: Option<seq<string>>)

  /** The text of the bot's reply: the payload's `response`, else its
      `answer`, else the apology; the failure text when the request failed. */
  function ReplyText(outcome: AskOutcome): (text: string)
    ensures text != ""
    ensures outcome.AskFailed? ==> text == FailureReply
    ensures outcome.Answered? && Truthy(outcome.response) ==> text == outcome.response.value
    ensures outcome.Answered? && !Truthy(outcome.response) && Truthy(outcome.answer) ==>
      text == outcome.answer.value
    ensures outcome.Answered? && !Truthy(outcome.response) && !Truthy(outcome.answer) ==>
      text == Apology
  {
    match outcome
    case AskFailed => FailureReply
    case Answered(response, answer, _, _, _) => OrElse(response, OrElse(answer, Apology))
  }

  /** The bot message appended for an outcome; the failure message carries
      no buttons. */
  function BotMessage(id: int, outcome: AskOutcome): (m: Message)
    ensures m.id == id && !m.isUser && m.text == ReplyText(outcome)
    ensures outcome.AskFailed? ==> !m.buttons && m.buttonType.None? && m.buttonData.None?
    ensures outcome.Answered? ==>
      m.buttons == outcome.buttons && m.buttonType == outcome.buttonType && m.buttonData == outcome.buttonData
  {
    match outcome
    case AskFailed => Message(id, ReplyText(outcome), false, false, None, None)
    case Answered(_, _, buttons, buttonType, buttonData) =>
      Message(id, ReplyText(outcome), false, buttons, buttonType, buttonData)
  }

  /** The open conversation. Sending is split at the request: `BeginSend`
      runs up to the request, `CompleteSend` runs when it settles. */
  class ChatSession {
    var messages: seq<Message>
    var inputValue: string
    var isLoading: bool

    /** Every message's id is its position plus one. */
    ghost predicate Valid()
      reads this
    {
      forall i :: 0 <= i < |messages| ==> messages[i].id == i + 1
    }

    constructor ()
      ensures Valid()
      ensures messages == [Message(1, Greeting, false, false, None, None)]
      ensures inputValue == "" && !isLoading
    {
      messages := [Message(1, Greeting, false, false, None, None)];
      inputValue := "";
      isLoading := false;
    }

    method SetInput(value: string)
      modifies this`inputValue
      ensures inputValue == value
    {
      inputValue := value;
    }

    /** The first half of `sendMessage`. Nothing happens when the input is
      blank or a request is pending; otherwise the input becomes a user
      message, the field is cleared, and the question is returned for the
      request. */
    method BeginSend() returns (question: Option<string>)
      requires Valid()
      modifies this`messages, this`inputValue, this`isLoading
      ensures Valid()
      ensures (old(IsBlank(inputValue)) || old(isLoading)) ==>
        question.None? && messages == old(messages) && inputValue == old(inputValue) && isLoading == old(isLoading)
      ensures !(old(IsBlank(inputValue)) || old(isLoading)) ==>
        && question == Some(old(inputValue))
        && messages == old(messages) + [Message(|old(messages)| + 1, old(inputValue), true, false, None, None)]
        && inputValue == ""
        && isLoading
    {
      var input, before := inputValue, messages;
      if IsBlank(input) || isLoading {
        return None;
      }
      var asked := Message(|before| + 1, input, true, false, None, None);
      question := Some(input);
      messages := before + [asked];
      inputValue := "";
      isLoading := true;
    }

    /** The second half of `sendMessage`: exactly one bot message is
      appended, whatever the outcome, and loading ends. Its id comes from
      the count `askedAt` that the handler saw before it added the user's
      message, so the ids stay positions plus one when nothing else was
      appended in between. */
    method CompleteSend(askedAt: nat, outcome: AskOutcome)
      requires Valid()
      modifies this`messages, this`isLoading
      ensures messages == old(messages) + [BotMessage(askedAt + 2, outcome)]
      ensures askedAt + 1 == |old(messages)| ==> Valid()
      ensures !isLoading
    {
      messages := messages + [BotMessage(askedAt + 2, outcome)];
      isLoading := false;
    }

    /** One whole submission when nothing interleaves with the request:
      either nothing changes, or one user message with id n+1 and one bot
      message with id n+2 are appended, n being the earlier count. */
    method SendMessage(outcome: AskOutcome) returns (question: Option<string>)
      requires Valid()
      modifies this`messages, this`inputValue, this`isLoading
      ensures Valid()
      ensures (old(IsBlank(inputValue)) || old(isLoading)) ==>
        question.None? && messages == old(messages) && inputValue == old(inputValue) && isLoading == old(isLoading)
      ensures !(old(IsBlank(inputValue)) || old(isLoading)) ==>
        && question == Some(old(inputValue))
        && |messages| == |old(messages)| + 2
        && messages[..|old(messages)|] == old(messages)
        && messages[|old(messages)|] == Message(|old(messages)| + 1, old(inputValue), true, false, None, None)
        && messages[|old(messages)| + 1] == BotMessage(|old(messages)| + 2, outcome)
        && inputValue == "" && !isLoading
    {
      var askedAt := |messages|;
      question := BeginSend();
      if question.Some? {
        ghost var asked := messages;
        CompleteSend(askedAt, outcome);
        assert messages == asked + [BotMessage(askedAt + 2, outcome)];
      }
    }
  }
}
