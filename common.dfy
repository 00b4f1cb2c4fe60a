/** Shared vocabulary of the dashboard and the chat widget: optional values,
    the chatbot record the remote API returns, and the user-visible
    notifications (toasts and alerts) that the components raise. */
module Common {

  datatype Option<+T> = None | Some(value: T) {
    function GetOr(default: T): T {
      match this
      case Some(v) => v
      case None => default
    }
  }

  /** JavaScript truthiness of an optional string field: absent, null and the
      empty string are all falsy. */
  predicate Truthy(s: Option<string>) {
    s.Some? && s.value != ""
  }

  /** The value of `a || fallback` for an optional string field. */
  function OrElse(a: Option<string>, fallback: string): (r: string)
    ensures Truthy(a) ==> r == a.value
    ensures !Truthy(a) ==> r == fallback
  {
    if Truthy(a) then a.value else fallback
  }

  /** The text a template string gives an optional string field: the value,
      or `undefined` when the field is absent. */
  function Rendered(a: Option<string>): (r: string)
    ensures a.Some? ==> r == a.value
    ensures a.None? ==> r == "undefined"
  {
    a.GetOr("undefined")
  }

  /** A chatbot as the remote API describes it. */
  datatype Chatbot = Chatbot(
    id: string,
    userId: string,
    name: string,
    description: Option<string>,
    collectionName: string,
    sourceUrl: Option<string>,
    createdAt: string,
    updatedAt: string,
    isActive: bool)

  datatype ToastKind = Success | Error | Warning

  /** A notification shown to the user: a toast with a title and a body, or a
      blocking browser alert with one text. */
  datatype Notice =
    | Toast(kind: ToastKind, title: string, body: string)
    | Alert(text: string)
}
