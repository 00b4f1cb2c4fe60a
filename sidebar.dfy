/** The sidebar listing the user's chatbots: loading the list, the
    two-step delete (pick a chatbot, then confirm or cancel), and the test
    link of a chatbot. The selection itself belongs to the dashboard; the
    sidebar only tells it when the selection must be cleared. */
module Sidebar {
  import opened Common
  import opened Embed

  /** `list.filter(bot => bot.id !== id)`. */
  function RemoveById(list: seq<Chatbot>, id: string): (r: seq<Chatbot>)
    ensures |r| <= |list|
    decreases |list|
  {
    if list == [] then []
    else (if list[0].id == id then [] else [list[0]]) + RemoveById(list[1..], id)
  }

  /** Exactly the chatbots with another id stay, and a list without the id
      is left as it was. */
  lemma {:induction false} RemoveByIdSpec(list: seq<Chatbot>, id: string)
    ensures forall c :: c in RemoveById(list, id) <==> c in list && c.id != id
    ensures (forall i :: 0 <= i < |list| ==> list[i].id != id) ==> RemoveById(list, id) == list
    decreases |list|
  {
    if list != [] {
      var rest := list[1..];
      RemoveByIdSpec(rest, id);
      assert list == [list[0]] + rest;
      var head := if list[0].id == id then [] else [list[0]];
      assert RemoveById(list, id) == head + RemoveById(rest, id);
      forall c ensures c in RemoveById(list, id) <==> c in list && c.id != id {
        assert c in list <==> c == list[0] || c in rest;
      }
      if forall i :: 0 <= i < |list| ==> list[i].id != id {
        forall i | 0 <= i < |rest| ensures rest[i].id != id {
          assert rest[i] == list[i + 1];
        }
      }
    }
  }

  /** Removal works piece by piece, so the chatbots that stay keep their
      order. */
  lemma {:induction false} RemoveByIdAppend(a: seq<Chatbot>, b: seq<Chatbot>, id: string)
    ensures RemoveById(a + b, id) == RemoveById(a, id) + RemoveById(b, id)
    decreases |a|
  {
    if a == [] {
      assert a + b == b;
    } else {
      assert (a + b)[0] == a[0];
      assert (a + b)[1..] == a[1..] + b;
      RemoveByIdAppend(a[1..], b, id);
    }
  }

  /** Removing an id twice is removing it once. */
  lemma {:induction false} RemoveByIdIdempotent(list: seq<Chatbot>, id: string)
    ensures RemoveById(RemoveById(list, id), id) == RemoveById(list, id)
  {
    var r := RemoveById(list, id);
    RemoveByIdSpec(list, id);
    forall i | 0 <= i < |r| ensures r[i].id != id {
      assert r[i] in r;
    }
    RemoveByIdSpec(r, id);
  }

  /** How the request for the user's chatbots ended. */
  datatype FetchOutcome =
    | Listed(chatbots: seq<Chatbot>)
    | FetchRejected
    | FetchThrew

  /** How the delete request ended: an OK response with the payload's
      `chatbot_name`, a non-OK response with its `message`, or a thrown
      error (network failure or unreadable body) with its message. */
  datatype DeleteOutcome =
    | Deleted(chatbotName: Option<string>)
    | DeleteRejected(message: Option<string>)
    | DeleteThrew(errorMessage: string)

  /** The toast that ends a delete. */
  function DeleteNotice(outcome: DeleteOutcome): (n: Notice)
    ensures n.Toast? && (n.kind == Success <==> outcome.Deleted?)
    ensures n.kind == Error ==> n.title == "Delete Failed"
    ensures outcome.Deleted? ==>
      n.title == "Chatbot Deleted" && n.body == "\"" + Rendered(outcome.chatbotName) + "\" has been successfully deleted"
    ensures outcome.DeleteRejected? ==> n.body == OrElse(outcome.message, "Failed to delete chatbot")
    ensures outcome.DeleteThrew? ==> n.body == outcome.errorMessage
  {
    match outcome
    case Deleted(name) => Toast(Success, "Chatbot Deleted", "\"" + Rendered(name) + "\" has been successfully deleted")
    case DeleteRejected(message) => Toast(Error, "Delete Failed", OrElse(message, "Failed to delete chatbot"))
    case DeleteThrew(message) => Toast(Error, "Delete Failed", message)
  }

  /** Whether the dashboard's selection goes: only after a successful delete
      of the chatbot that is selected. */
  predicate ClearsSelection(deletedId: string, selected: Option<Chatbot>, outcome: DeleteOutcome): (b: bool)
    // a failed delete, or no selection, keeps the selection
    ensures !outcome.Deleted? || selected.None? ==> !b
    // after a successful delete the selection goes exactly when it is the deleted chatbot
    ensures outcome.Deleted? && selected.Some? ==> (b <==> selected.value.id == deletedId)
  {
    outcome.Deleted? && selected.Some? && selected.value.id == deletedId
  }

  /** After a successful delete, a selected chatbot from the list loses its
      selection exactly when the filter drops it from the list. */
  lemma ClearedIffFiltered(list: seq<Chatbot>, deletedId: string, selected: Chatbot, outcome: DeleteOutcome)
    requires outcome.Deleted? && selected in list
    ensures ClearsSelection(deletedId, Some(selected), outcome) <==> selected !in RemoveById(list, deletedId)
  {
    RemoveByIdSpec(list, deletedId);
  }

  /** `testChatbot`: the page origin, the chat path and the collection name. */
  function TestChatbotUrl(origin: string, chatbot: Chatbot): (url: string)
    ensures CollectionOf(origin, url) == Some(chatbot.collectionName)
  {
    CollectionRoundTrip(origin, chatbot.collectionName);
    ChatbotUrl(origin, chatbot.collectionName)
  }

  class ChatbotSidebar {
    var chatbots: seq<Chatbot>
    var isLoading: bool
    var chatbotToDelete: Option<Chatbot>
    var isDeleting: bool

    constructor ()
      ensures chatbots == [] && isLoading && chatbotToDelete.None? && !isDeleting
    {
      chatbots := [];
      isLoading := true;
      chatbotToDelete := None;
      isDeleting := false;
    }

    /** `fetchUserChatbots` once its request has settled: a listing replaces
      the list, any failure keeps it and raises the error toast; loading
      ends either way. */
    method FetchSettled(outcome: FetchOutcome) returns (notice: Option<Notice>)
      modifies this`chatbots, this`isLoading
      ensures outcome.Listed? ==> chatbots == outcome.chatbots && notice.None?
      ensures !outcome.Listed? ==>
        chatbots == old(chatbots) && notice == Some(Toast(Error, "Error", "Failed to fetch chatbots"))
      ensures !isLoading
    {
      if outcome.Listed? {
        chatbots := outcome.chatbots;
        notice := None;
      } else {
        notice := Some(Toast(Error, "Error", "Failed to fetch chatbots"));
      }
      isLoading := false;
    }

    /** `handleDeleteClick`: the chatbot waits for confirmation. */
    method DeleteClick(chatbot: Chatbot)
      modifies this`chatbotToDelete
      ensures chatbotToDelete == Some(chatbot)
    {
      chatbotToDelete := Some(chatbot);
    }

    /** `handleDeleteCancel`: nothing is deleted and nothing waits any more. */
    method DeleteCancel()
      modifies this`chatbotToDelete
      ensures chatbotToDelete.None?
    {
      chatbotToDelete := None;
    }

    /** `handleDeleteConfirm` up to the delete request: nothing happens when no
      chatbot waits; otherwise deleting starts and the id of the waiting
      chatbot is returned for the request. */
    method DeleteConfirm() returns (request: Option<string>)
      modifies this`isDeleting
      ensures old(chatbotToDelete).None? ==> request.None? && isDeleting == old(isDeleting)
      ensures old(chatbotToDelete).Some? ==> request == Some(old(chatbotToDelete).value.id) && isDeleting
    {
      if chatbotToDelete.Some? {
        isDeleting := true;
        request := Some(chatbotToDelete.value.id);
      } else {
        request := None;
      }
    }

    /** The rest of `deleteChatbot` once the request for `id` has settled. A
      successful delete removes every chatbot with that id; a failed one
      leaves the list alone. In every case deleting ends and nothing waits
      for confirmation any more. */
    method DeleteSettled(id: string, selected: Option<Chatbot>, outcome: DeleteOutcome)
      returns (clearSelection: bool, notice: Notice)
      modifies this`chatbots, this`isDeleting, this`chatbotToDelete
      ensures outcome.Deleted? ==> chatbots == RemoveById(old(chatbots), id)
      ensures !outcome.Deleted? ==> chatbots == old(chatbots)
      ensures clearSelection == ClearsSelection(id, selected, outcome)
      ensures notice == DeleteNotice(outcome)
      ensures !isDeleting && chatbotToDelete.None?
    {
      if outcome.Deleted? {
        chatbots := RemoveById(chatbots, id);
      }
      clearSelection := ClearsSelection(id, selected, outcome);
      notice := DeleteNotice(outcome);
      isDeleting := false;
      chatbotToDelete := None;
    }

    /** Confirming a delete when nothing interleaves with its request. */
    method ConfirmAndDelete(selected: Option<Chatbot>, outcome: DeleteOutcome)
      returns (clearSelection: bool, notice: Option<Notice>)
      modifies this`chatbots, this`isDeleting, this`chatbotToDelete
      ensures old(chatbotToDelete).None? ==>
        chatbots == old(chatbots) && isDeleting == old(isDeleting) && chatbotToDelete.None?
        && !clearSelection && notice.None?
      ensures old(chatbotToDelete).Some? ==>
        var id := old(chatbotToDelete).value.id;
        && (outcome.Deleted? ==> chatbots == RemoveById(old(chatbots), id))
        && (!outcome.Deleted? ==> chatbots == old(chatbots))
        && clearSelection == ClearsSelection(id, selected, outcome)
        && notice == Some(DeleteNotice(outcome))
        && !isDeleting && chatbotToDelete.None?
    {
      var request := DeleteConfirm();
      if request.Some? {
        var n;
        clearSelection, n := DeleteSettled(request.value, selected, outcome);
        notice := Some(n);
      } else {
        clearSelection, notice := false, None;
      }
    }
  }
}
