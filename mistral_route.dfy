/** The Mistral chat route: looks up context for the last message, appends
    it to the conversation as one system message, asks the Mistral API for a
    streamed completion with a fixed model, and maps a failure to a message
    and a status. The profile lookup and key check, the retrieval call, the
    output-length table and the completion call are parameters. */
module MistralRoute {
  import opened Wrappers
  import opened JsText
  import opened JsObject
  import opened Http

  /** The model every request is sent to. */
  const MistralModel := "mistral:7b-instruct-v0.3-q4_K_M"

  const KeyNotFoundText := "Mistral API Key not found. Please set it in your profile settings."
  const KeyIncorrectText := "Mistral API Key is incorrect. Please fix it in your profile settings."
  const ContextPrefix := "Retrieved data: "

  /** The body posted to the retrieval endpoint. */
  datatype RetrievalQuery = RetrievalQuery(userInput: string, fileIds: seq<string>, embeddingsProvider: string,
                                           sourceCount: int)

  /** The query for the last message; reading the last message of an empty
      list throws, which is `None` here. */
  function QueryFor(messages: seq<ChatMessage>): Option<RetrievalQuery> {
    if messages == [] then None
    else Some(RetrievalQuery(messages[|messages| - 1].content, [], "openai", 5))
  }

  /** The query is the last message's content, whatever its role, with no
      file ids and five sources. */
  lemma {:induction false} QueryIsLastMessage(messages: seq<ChatMessage>, last: ChatMessage)
    ensures QueryFor(messages + [last]) == Some(RetrievalQuery(last.content, [], "openai", 5))
    ensures QueryFor([]).None?
  {
  }

  /** The system message's text: the prefix, then the retrieved contents
      one per line. */
  function RetrievedContext(contents: seq<string>): string {
    ContextPrefix + Join(contents, "\n")
  }

  /** `augmentedMessages`: the conversation as sent, then one system
      message with the retrieved contents. */
  function AugmentedMessages(messages: seq<ChatMessage>, contents: seq<string>): (r: seq<ChatMessage>)
    ensures |r| == |messages| + 1 && r[..|messages|] == messages
    ensures r[|messages|].role == "system" && StartsWith(r[|messages|].content, ContextPrefix)
  {
    messages + [ChatMessage("system", RetrievedContext(contents), [])]
  }

  /** The retrieved contents can be read back from the system message when
      none of them spans lines. */
  lemma {:induction false} ContextListsContents(messages: seq<ChatMessage>, contents: seq<string>)
    requires |contents| >= 1 && forall i :: 0 <= i < |contents| ==> '\n' !in contents[i]
    ensures var text := AugmentedMessages(messages, contents)[|messages|].content;
            Split(text[|ContextPrefix|..], '\n') == contents
  {
    var text := AugmentedMessages(messages, contents)[|messages|].content;
    assert text[|ContextPrefix|..] == Join(contents, ['\n']);
    SplitJoin(contents, '\n');
  }

  /** With nothing retrieved the system message carries the prefix alone. */
  lemma {:induction false} EmptyRetrieval(messages: seq<ChatMessage>)
    ensures AugmentedMessages(messages, [])[|messages|].content == ContextPrefix
  {
  }

  /** The completion request. */
  datatype CompletionRequest = CompletionRequest(model: string, messages: seq<ChatMessage>, maxTokens: int, stream: bool)

  /** The message sent for a caught error: a missing-key text in any letter
      case wins, then a 401, then the error's own message or the fallback. */
  function ErrorText(e: Thrown): string {
    var m := CaughtMessage(e);
    if Includes(ToLower(m), "api key not found") then KeyNotFoundText
    else if CaughtStatus(e) == 401 then KeyIncorrectText
    else m
  }

  /** The three cases of the mapping, and the precedence between them. */
  lemma {:induction false} ErrorTextCases(e: Thrown)
    ensures Includes(ToLower(CaughtMessage(e)), "api key not found") ==> ErrorText(e) == KeyNotFoundText
    ensures !Includes(ToLower(CaughtMessage(e)), "api key not found") && CaughtStatus(e) == 401
            ==> ErrorText(e) == KeyIncorrectText
    ensures !Includes(ToLower(CaughtMessage(e)), "api key not found") && CaughtStatus(e) != 401
            ==> ErrorText(e) == (if e.message != "" then e.message else UnexpectedError)
  {
  }

  /** A missing-key error is reported as such even with status 401. */
  lemma {:induction false} MissingKeyBeatsUnauthorized(prefix: string, suffix: string)
    ensures ErrorText(Thrown(prefix + "api key not found" + suffix, 401)) == KeyNotFoundText
  {
    var m := prefix + "api key not found" + suffix;
    var lower := ToLower(m);
    assert OccursAt(lower, "api key not found", |prefix|) by {
      assert lower[|prefix|..|prefix| + 17] == "api key not found";
    }
  }

  /** The fallback message has no missing-key text, so an error without a
      message and without a status is reported as unexpected with 500. */
  lemma {:induction false} BareErrorIsUnexpected()
    ensures ErrorText(Thrown("", 0)) == UnexpectedError && CaughtStatus(Thrown("", 0)) == 500
  {
    var lower := ToLower(UnexpectedError);
    assert forall i :: 0 <= i < |lower| ==> lower[i] != 'k' by {
      forall i | 0 <= i < |lower| ensures lower[i] != 'k' {
        assert lower[i] == LowerChar(UnexpectedError[i]);
      }
    }
    Missing(lower, "api key not found", 'k');
  }

  /** A string that lacks a character of `sub` does not contain `sub`. */
  lemma {:induction false} Missing(s: string, sub: string, c: char)
    requires c in sub && c !in s
    ensures !Includes(s, sub)
  {
    var k :| 0 <= k < |sub| && sub[k] == c;
    forall i | 0 <= i <= |s| - |sub| ensures !OccursAt(s, sub, i) {
      assert s[i..i + |sub|][k] == s[i + k];
      assert s[i + k] in s;
    }
  }

  /** What the handler does: stream the completion, or respond with an
      error. */
  datatype Reply = Stream(request: CompletionRequest) | Failure(status: int, body: Body)

  function Fail(e: Thrown): Reply {
    Failure(CaughtStatus(e), Message(ErrorText(e)))
  }

  /** The completion request for the messages, the retrieved contents and
      the output length. */
  function RequestFor(messages: seq<ChatMessage>, contents: seq<string>, limit: int): CompletionRequest {
    CompletionRequest(MistralModel, AugmentedMessages(messages, contents), limit, true)
  }

  /** `POST`, given the messages of the body, its chat model (`None` when
      the body has no `chatSettings`, so that reading its `model` throws),
      whether the profile lookup or key check threw, the retrieval call, the
      output-length table, the runtime's error for a property read of
      `undefined`, and whether the completion call throws. A stream is sent
      exactly when every step succeeds. */
  function Post(messages: seq<ChatMessage>, chatModel: Option<string>, setup: Option<Thrown>,
                retrieve: RetrievalQuery -> Try<seq<string>>, maxTokens: string -> Option<int>,
                typeError: Thrown, complete: CompletionRequest -> Option<Thrown>): (r: Reply)
    ensures r.Stream? ==> r.request.model == MistralModel && r.request.stream
                          && |r.request.messages| == |messages| + 1 && r.request.messages[..|messages|] == messages
    ensures r.Stream? ==> setup.None? && messages != [] && chatModel.Some?
                          && maxTokens(chatModel.value) == Some(r.request.maxTokens)
                          && complete(r.request).None?
    ensures setup.None? && messages != [] && chatModel.Some? && maxTokens(chatModel.value).Some? ==>
              var query := RetrievalQuery(messages[|messages| - 1].content, [], "openai", 5);
              retrieve(query).Returned? ==>
                var request := RequestFor(messages, retrieve(query).value, maxTokens(chatModel.value).value);
                complete(request).None? ==> r == Stream(request)
  {
    if setup.Some? then Fail(setup.value)
    else match QueryFor(messages)
      case None => Fail(typeError)
      case Some(query) =>
        match retrieve(query)
        case Raised(e) => Fail(e)
        case Returned(contents) =>
          var limit := if chatModel.Some? then maxTokens(chatModel.value) else None;
          match limit
          case None => Fail(typeError)
          case Some(limit) =>
            var request := RequestFor(messages, contents, limit);
            match complete(request)
            case Some(e) => Fail(e)
            case None => Stream(request)
  }

  /** The chosen chat model only sets the output length: two requests that
      differ in it name the same upstream model. */
  lemma {:induction false} ModelIsFixed(messages: seq<ChatMessage>, a: Option<string>, b: Option<string>, retrieve: RetrievalQuery -> Try<seq<string>>,
                     maxTokens: string -> Option<int>, typeError: Thrown, complete: CompletionRequest -> Option<Thrown>)
    requires Post(messages, a, None, retrieve, maxTokens, typeError, complete).Stream?
    requires Post(messages, b, None, retrieve, maxTokens, typeError, complete).Stream?
    ensures Post(messages, a, None, retrieve, maxTokens, typeError, complete).request.model
            == Post(messages, b, None, retrieve, maxTokens, typeError, complete).request.model
  {
  }

  /** A streamed request carries the retrieved contents of the last
      message's query as its system message. */
  lemma {:induction false} StreamCarriesContext(messages: seq<ChatMessage>, chatModel: Option<string>, retrieve: RetrievalQuery -> Try<seq<string>>,
                             maxTokens: string -> Option<int>, typeError: Thrown, complete: CompletionRequest -> Option<Thrown>)
    requires Post(messages, chatModel, None, retrieve, maxTokens, typeError, complete).Stream?
    ensures var query := RetrievalQuery(messages[|messages| - 1].content, [], "openai", 5);
            retrieve(query).Returned?
            && Post(messages, chatModel, None, retrieve, maxTokens, typeError, complete).request.messages
               == AugmentedMessages(messages, retrieve(query).value)
  {
  }

  /** Every failure is reported through the same mapping: a failing setup,
      an empty conversation, a failing retrieval, a missing chat setting or
      output length, and a failing completion, each checked in that order. */
  lemma {:induction false} FailuresMapped(messages: seq<ChatMessage>, chatModel: Option<string>, e: Thrown,
                                          retrieve: RetrievalQuery -> Try<seq<string>>, maxTokens: string -> Option<int>,
                                          typeError: Thrown, complete: CompletionRequest -> Option<Thrown>)
    ensures Post(messages, chatModel, Some(e), retrieve, maxTokens, typeError, complete) == Fail(e)
    ensures Post([], chatModel, None, retrieve, maxTokens, typeError, complete) == Fail(typeError)
    ensures messages != [] ==>
              var query := RetrievalQuery(messages[|messages| - 1].content, [], "openai", 5);
              var r := Post(messages, chatModel, None, retrieve, maxTokens, typeError, complete);
              (retrieve(query).Raised? ==> r == Fail(retrieve(query).error))
              && (retrieve(query).Returned? && (chatModel.None? || maxTokens(chatModel.value).None?)
                  ==> r == Fail(typeError))
              && (retrieve(query).Returned? && chatModel.Some? && maxTokens(chatModel.value).Some?
                  && complete(RequestFor(messages, retrieve(query).value, maxTokens(chatModel.value).value)).Some?
                  ==> r == Fail(complete(RequestFor(messages, retrieve(query).value, maxTokens(chatModel.value).value)).value))
  {
  }
}
