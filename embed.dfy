/** The chatbot detail view: the base URL of the dashboard, the link that
    opens a chatbot in a new tab, and the iframe snippet users paste into
    their own pages. The snippet is a fixed template in which only the base
    URL and the collection name vary. */
module Embed {
  import opened Common
  import opened Text

  const LocalBaseUrl := "http://localhost:3000"
  const ChatbotPath := "/chatbot?collection_name="

  /** Everything in the snippet before its `src` value. */
  const SnippetHead := "<iframe\n  src=\""

  /** Everything in the snippet after its `src` value. */
  const SnippetTail :=
    "\"\n  width=\"400\"\n  height=\"600\"\n  style=\"background: transparent !important; border: none; position: fixed; bottom: 20px; right: 20px; z-index: 9999; border-radius: 12px; overflow: hidden;\"\n  allowtransparency=\"true\"\n  frameborder=\"0\"\n  title=\"AI Chatbot\">\n</iframe>"

  predicate EndsWith(s: string, suffix: string) {
    |suffix| <= |s| && s[|s| - |suffix|..] == suffix
  }

  /** `getBaseUrl`: the page's origin when there is a window, otherwise the
      local development address. */
  function BaseUrl(windowOrigin: Option<string>): (r: string)
    ensures windowOrigin.Some? ==> r == windowOrigin.value
    ensures windowOrigin.None? ==> r == LocalBaseUrl
  {
    windowOrigin.GetOr(LocalBaseUrl)
  }

  /** The chat page of a collection; the collection name goes in verbatim,
      without any encoding. */
  function ChatbotUrl(base: string, collection: string): (url: string)
    ensures StartsWith(url, base + ChatbotPath) && EndsWith(url, collection)
    ensures |url| == |base| + |ChatbotPath| + |collection|
  {
    base + ChatbotPath + collection
  }

  /** The collection name a chat page URL carries, read back from it. */
  function CollectionOf(base: string, url: string): Option<string> {
    if StartsWith(url, base + ChatbotPath) then Some(url[|base + ChatbotPath|..]) else None
  }

  /** The collection name is recovered unchanged from the chat page URL. */
  lemma CollectionRoundTrip(base: string, collection: string)
    ensures CollectionOf(base, ChatbotUrl(base, collection)) == Some(collection)
  {
    var url := ChatbotUrl(base, collection);
    assert url[|base + ChatbotPath|..] == collection;
  }

  /** `iframeCode`: the embed snippet. */
  function IframeCode(base: string, collection: string): (code: string)
    ensures StartsWith(code, SnippetHead) && EndsWith(code, SnippetTail)
    ensures |code| == |SnippetHead| + |ChatbotUrl(base, collection)| + |SnippetTail|
  {
    SnippetHead + ChatbotUrl(base, collection) + SnippetTail
  }

  /** The value of the `src` attribute of a snippet, read by removing the
      fixed text around it. */
  function SrcOf(code: string): (src: Option<string>)
  {
    if |SnippetHead| + |SnippetTail| <= |code| && StartsWith(code, SnippetHead) && EndsWith(code, SnippetTail)
    then Some(code[|SnippetHead|..|code| - |SnippetTail|])
    else None
  }

  /** The snippet's `src` is exactly the chat page URL, so the link the
      detail view opens and the embedded page are the same. */
  lemma SnippetSrcIsChatbotUrl(base: string, collection: string)
    ensures SrcOf(IframeCode(base, collection)) == Some(ChatbotUrl(base, collection))
  {
    var code := IframeCode(base, collection);
    assert code[|SnippetHead|..|code| - |SnippetTail|] == ChatbotUrl(base, collection);
  }

  /** Two snippets for the same base URL are equal only for the same
      collection: nothing but the base URL and the collection name varies. */
  lemma SnippetDeterminesCollection(base: string, c1: string, c2: string)
    requires IframeCode(base, c1) == IframeCode(base, c2)
    ensures c1 == c2
  {
    SnippetSrcIsChatbotUrl(base, c1);
    SnippetSrcIsChatbotUrl(base, c2);
    CollectionRoundTrip(base, c1);
    CollectionRoundTrip(base, c2);
  }

  /** The detail view of one chatbot. */
  class ChatbotDetails {
    const chatbot: Chatbot
    const baseUrl: string
    var copied: bool

    constructor (chatbot: Chatbot, windowOrigin: Option<string>)
      ensures this.chatbot == chatbot && baseUrl == BaseUrl(windowOrigin) && !copied
    {
      this.chatbot := chatbot;
      this.baseUrl := BaseUrl(windowOrigin);
      copied := false;
    }

    function Snippet(): string {
      IframeCode(baseUrl, chatbot.collectionName)
    }

    /** `testChatbot`: the address opened in a new tab. */
    function TestUrl(): (url: string)
      ensures SrcOf(Snippet()) == Some(url)
    {
      SnippetSrcIsChatbotUrl(baseUrl, chatbot.collectionName);
      ChatbotUrl(baseUrl, chatbot.collectionName)
    }

    /** `copyCode`: the snippet goes to the clipboard and the copied mark is set. */
    method CopyCode() returns (clipboard: string, notice: Notice)
      modifies this`copied
      ensures clipboard == Snippet() && copied
      ensures notice == Toast(Success, "Code Copied!", "Embed code has been copied to your clipboard")
    {
      clipboard := Snippet();
      copied := true;
      notice := Toast(Success, "Code Copied!", "Embed code has been copied to your clipboard");
    }

    /** The timer started by `copyCode` clears the mark. */
    method CopiedTimerElapsed()
      modifies this`copied
      ensures !copied
    {
      copied := false;
    }
  }
}
