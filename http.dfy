/** What a route handler gives back, and the way the handlers read optional
    string fields of a JSON body. */
module Http {
  import opened Wrappers
  import opened JsText
  import opened JsObject

  /** A response body: plain text or JSON. */
  datatype Body = PlainText(text: string) | JsonBody(json: Json)

  /** What a handler does: respond, or throw (which the framework turns
      into a generic server error). */
  datatype Outcome = Respond(status: int, body: Body) | Throw

  /** `JSON.stringify({ message })`. */
  function Message(m: string): Body {
    JsonBody(JObj([("message", JStr(m))]))
  }

  /** `payload.k?.trim()`: `Undefined` for a missing or null field, the
      trimmed text for a string, and `Throws` when the payload is null or the
      field holds anything else (it has no `trim` to call). */
  function TrimmedProp(payload: Json, k: string): Access
  {
    match Prop(payload, k)
    case Throws => Throws
    case Undefined => Undefined
    case Found(v) =>
      if v.JNull? then Undefined
      else if v.JStr? then Found(JStr(Trim(v.s)))
      else Throws
  }

  /** A field of the payload the handler treats as given: a string that is
      not empty once trimmed. */
  predicate Given(a: Access) {
    a.Found? && a.value.JStr? && a.value.s != ""
  }

  /** A string field is given exactly when it has a character that is not
      whitespace. */
  lemma {:induction false} GivenIff(fields: Obj<Json>, k: string, s: string)
    requires Get(fields, k) == Some(JStr(s))
    ensures Given(TrimmedProp(JObj(fields), k)) <==> exists i :: 0 <= i < |s| && !IsSpace(s[i])
  {
    TrimEmptyIff(s);
  }

  /** An error caught by a handler's `catch`: its `message` and `status`
      ("" and 0 stand for a missing one). */
  datatype Thrown = Thrown(message: string, status: int)

  /** A step that returns a value or throws. */
  datatype Try<T> = Returned(value: T) | Raised(error: Thrown)

  const UnexpectedError := "An unexpected error occurred"

  /** `error.message || "An unexpected error occurred"`. */
  function CaughtMessage(e: Thrown): (m: string)
    ensures m != ""
    ensures e.message != "" ==> m == e.message
    ensures e.message == "" ==> m == UnexpectedError
  {
    if e.message != "" then e.message else UnexpectedError
  }

  /** `error.status || 500`. */
  function CaughtStatus(e: Thrown): (s: int)
    ensures s != 0
    ensures e.status != 0 ==> s == e.status
    ensures e.status == 0 ==> s == 500
  {
    if e.status != 0 then e.status else 500
  }

  /** A chat message as the client sends it: its role, its content, and any
      other fields it carries. */
  datatype ChatMessage = ChatMessage(role: string, content: string, extra: Obj<Json>)
}
