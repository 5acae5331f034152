/** The Pollinations chat route: maps the chosen model to a Pollinations
    text model, takes the last user message as the prompt, and proxies the
    streamed reply of `text.pollinations.ai`; failures become a message and
    a status. The upstream fetch is a parameter. */
module PollinationsRoute {
  import opened Wrappers
  import opened JsText
  import opened JsObject
  import opened Seqs
  import opened LlmTypes
  import opened PollinationsModels
  import opened Http

  /** `pollinationsModelMap[modelId] || "openai"`. */
  function ModelFor(modelId: string): (m: string)
    ensures m in {"openai", "openai-large", "mistral", "llama"}
  {
    match modelId
    case "pollinations-openai" => "openai"
    case "pollinations-openai-large" => "openai-large"
    case "pollinations-mistral" => "mistral"
    case "pollinations-llama" => "llama"
    case _ => "openai"
  }

  /** Each listed Pollinations model is sent as its own hosted id. */
  lemma {:induction false} ModelForMatchesList()
    ensures forall i :: 0 <= i < |PollinationsLlmList| ==>
              ModelFor(PollinationsLlmList[i].modelId) == PollinationsLlmList[i].hostedId
  {
  }

  /** Any id the list does not hold is sent as "openai". */
  lemma {:induction false} UnknownModelFallsBack(modelId: string)
    requires modelId !in ModelIds(PollinationsLlmList)
    ensures ModelFor(modelId) == "openai"
  {
    ListOrder();
  }

  /** A message as sent upstream: its role and content only. */
  datatype Formatted = Formatted(role: string, content: string)

  /** `messages.map(({ role, content }) => ...)`. */
  function FormatMessages(messages: seq<ChatMessage>): (r: seq<Formatted>)
    ensures |r| == |messages|
    ensures forall i :: 0 <= i < |r| ==> r[i].role == messages[i].role && r[i].content == messages[i].content
  {
    seq(|messages|, i requires 0 <= i < |messages| => Formatted(messages[i].role, messages[i].content))
  }

  /** Other fields of a message never reach the upstream. */
  lemma {:induction false} FormatDropsExtraFields(a: seq<ChatMessage>, b: seq<ChatMessage>)
    requires |a| == |b| && forall i :: 0 <= i < |a| ==> a[i].role == b[i].role && a[i].content == b[i].content
    ensures FormatMessages(a) == FormatMessages(b)
  {
  }

  function IsUser(m: Formatted): bool {
    m.role == "user"
  }

  /** The last message whose role is "user", if any. */
  function LastUserMessage(messages: seq<Formatted>): (r: Option<Formatted>)
    ensures r.Some? <==> exists i :: 0 <= i < |messages| && messages[i].role == "user"
    ensures r.Some? ==> exists i :: 0 <= i < |messages| && messages[i] == r.value && r.value.role == "user"
                          && forall j :: i < j < |messages| ==> messages[j].role != "user"
    decreases |messages|
  {
    if messages == [] then None
    else
      var last := messages[|messages| - 1];
      var front := messages[..|messages| - 1];
      if last.role == "user" then Some(last)
      else
        var r := LastUserMessage(front);
        assert forall i :: 0 <= i < |front| ==> front[i] == messages[i];
        r
  }

  /** `filter(role === "user").pop()` is the last user message. */
  lemma {:induction false} LastUserIsFilterPop(messages: seq<Formatted>)
    ensures var users := Filter(messages, IsUser);
            LastUserMessage(messages) == if users == [] then None else Some(users[|users| - 1])
    decreases |messages|
  {
    if messages != [] {
      var front := messages[..|messages| - 1];
      var last := messages[|messages| - 1];
      assert messages == front + [last];
      FilterAppend(front, [last], IsUser);
      assert Filter([last], IsUser) == if IsUser(last) then [last] else [];
      LastUserIsFilterPop(front);
    }
  }

  /** Messages of other roles after the last user message do not change it. */
  lemma {:induction false} NonUserSuffixIgnored(messages: seq<Formatted>, later: seq<Formatted>)
    requires forall j :: 0 <= j < |later| ==> later[j].role != "user"
    ensures LastUserMessage(messages + later) == LastUserMessage(messages)
    decreases |later|
  {
    if later != [] {
      var front := later[..|later| - 1];
      assert messages + later == (messages + front) + [later[|later| - 1]];
      NonUserSkipped(messages + front, later[|later| - 1]);
      NonUserSuffixIgnored(messages, front);
    } else {
      assert messages + later == messages;
    }
  }

  /** One message of another role at the end does not change it. */
  lemma {:induction false} NonUserSkipped(messages: seq<Formatted>, m: Formatted)
    requires m.role != "user"
    ensures LastUserMessage(messages + [m]) == LastUserMessage(messages)
  {
    assert (messages + [m])[..|messages|] == messages;
  }

  /** The prompt is the last user message even when later messages have
      other roles. */
  lemma {:induction false} LaterRepliesIgnored(messages: seq<Formatted>, prompt: string, later: seq<Formatted>)
    requires forall j :: 0 <= j < |later| ==> later[j].role != "user"
    ensures LastUserMessage(messages + [Formatted("user", prompt)] + later) == Some(Formatted("user", prompt))
  {
    NonUserSuffixIgnored(messages + [Formatted("user", prompt)], later);
  }

  const ApiBase := "https://text.pollinations.ai/"

  /** The upstream URL: the encoded prompt as the path, then the model and
      the stream flag. */
  function ApiUrl(content: string, model: string): string {
    ApiBase + EncodeUriComponent(content) + "?model=" + model + "&stream=true"
  }

  /** The prompt fills exactly one path segment: its encoding holds no "/",
      "?", "&" or "#", so the query starts at the first "?" of the URL and
      holds only the model and the stream flag. */
  lemma {:induction false} ApiUrlShape(content: string, model: string)
    ensures var e := EncodeUriComponent(content);
            ApiUrl(content, model) == ApiBase + e + "?model=" + model + "&stream=true"
            && '/' !in e && '?' !in e && '&' !in e && '#' !in e
  {
    EncodedHasNoDelimiters(content);
  }

  /** A prompt of unreserved characters appears in the URL as written. */
  lemma {:induction false} PlainPromptKept(content: string, model: string)
    requires forall i :: 0 <= i < |content| ==> Unreserved(content[i])
    ensures ApiUrl(content, model) == ApiBase + content + "?model=" + model + "&stream=true"
  {
    EncodeUriComponentUnreserved(content);
  }

  /** The upstream reply: `ok`, the status and the body text. */
  datatype Upstream = Upstream(ok: bool, status: int, text: string)

  /** What the handler does: proxy the upstream stream, or fail. */
  datatype Reply = Proxied(url: string) | Failure(status: int, body: Body)

  const NoUserMessage := "No user message found"

  function Fail(e: Thrown): Reply {
    Failure(CaughtStatus(e), Message(CaughtMessage(e)))
  }

  /** `POST`, given the body's chosen model (`None` when the body has no
      `chatSettings`, so that reading its `model` throws), its messages, the
      runtime's error for a property read of `undefined`, and the fetch. */
  function Post(chatModel: Option<string>, messages: seq<ChatMessage>, typeError: Thrown,
                fetch: string -> Try<Upstream>): (r: Reply)
    ensures r.Proxied? ==> chatModel.Some? && exists i :: 0 <= i < |messages| && messages[i].role == "user"
    ensures chatModel.None? ==> r == Fail(typeError)
  {
    if chatModel.None? then Fail(typeError)
    else match LastUserMessage(FormatMessages(messages))
      case None => Fail(Thrown(NoUserMessage, 0))
      case Some(last) =>
        var url := ApiUrl(last.content, ModelFor(chatModel.value));
        match fetch(url)
        case Raised(e) => Fail(e)
        case Returned(response) =>
          if !response.ok then
            Fail(Thrown("Pollinations API returned " + IntToString(response.status) + ": " + response.text, 0))
          else Proxied(url)
  }

  /** A conversation with no user message fails with 500 before any
      request is made. */
  lemma {:induction false} NoUserMessageFails(chatModel: string, messages: seq<ChatMessage>, typeError: Thrown,
                                              fetch: string -> Try<Upstream>)
    requires forall i :: 0 <= i < |messages| ==> messages[i].role != "user"
    ensures Post(Some(chatModel), messages, typeError, fetch) == Failure(500, Message(NoUserMessage))
  {
    var f := FormatMessages(messages);
    assert forall i :: 0 <= i < |f| ==> f[i].role != "user";
  }

  /** A request goes to the URL of the last user message's content and the
      mapped model; an upstream that is not ok is a 500 that quotes its
      status and body. */
  lemma {:induction false} UpstreamOutcome(chatModel: string, messages: seq<ChatMessage>, typeError: Thrown,
                                           fetch: string -> Try<Upstream>)
    requires LastUserMessage(FormatMessages(messages)).Some?
    ensures var url := ApiUrl(LastUserMessage(FormatMessages(messages)).value.content, ModelFor(chatModel));
            match fetch(url)
            case Raised(e) => Post(Some(chatModel), messages, typeError, fetch) == Failure(CaughtStatus(e), Message(CaughtMessage(e)))
            case Returned(u) =>
              if u.ok then Post(Some(chatModel), messages, typeError, fetch) == Proxied(url)
              else Post(Some(chatModel), messages, typeError, fetch)
                   == Failure(500, Message("Pollinations API returned " + IntToString(u.status) + ": " + u.text))
  {
  }
}
