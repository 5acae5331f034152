/** The model registry: the configured default Claude model, the list of
    hosted models per provider, and the lookup that maps any stored model id
    onto a known Claude model. */
module ModelRegistry {
  import opened Wrappers
  import opened JsText
  import opened JsObject
  import opened LlmTypes
  import opened AnthropicModels

  const FallbackClaudeModelId := "claude-3-5-sonnet-20240620"

  /** The default Claude model id, given the two environment variables
      (`NEXT_PUBLIC_DEFAULT_CLAUDE_MODEL_ID`, then `DEFAULT_CLAUDE_MODEL_ID`):
      the first of them that is set and non-empty, otherwise the fallback. */
  function DefaultClaudeModelId(publicEnv: Option<string>, serverEnv: Option<string>): (id: string)
    ensures id != ""
    ensures publicEnv.Some? && publicEnv.value != "" ==> id == publicEnv.value
    ensures (publicEnv.None? || publicEnv.value == "") && serverEnv.Some? && serverEnv.value != "" ==> id == serverEnv.value
    ensures (publicEnv.None? || publicEnv.value == "") && (serverEnv.None? || serverEnv.value == "") ==> id == FallbackClaudeModelId
  {
    OrElse(publicEnv, OrElse(serverEnv, FallbackClaudeModelId))
  }

  /** `LLM_LIST`: a copy of the Anthropic list. */
  const LlmList: seq<LLM> := AnthropicLlmList

  /** `LLM_LIST_MAP`: hosted model lists by provider. */
  const LlmListMap: Obj<seq<LLM>> := [("openai", []), ("anthropic", AnthropicLlmList)]

  /** The provider map has an empty OpenAI list, the Anthropic list under
      "anthropic", and nothing for any other provider. */
  lemma {:induction false} LlmListMapEntries(provider: string)
    ensures Get(LlmListMap, "openai") == Some([])
    ensures Get(LlmListMap, "anthropic") == Some(AnthropicLlmList)
    ensures provider != "openai" && provider != "anthropic" ==> Get(LlmListMap, provider) == None
    ensures LlmList == AnthropicLlmList
  {
  }

  /** `models.find(m => m.modelId === id)`: the first model with that id; a
      missing id (`null`/`undefined`) never matches. */
  function Find(models: seq<LLM>, id: Option<string>): (r: Option<nat>)
    ensures r.Some? <==> id.Some? && id.value in ModelIds(models)
    ensures r.Some? ==> r.value < |models| && models[r.value].modelId == id.value
                        && forall j :: 0 <= j < r.value ==> models[j].modelId != id.value
  {
    if models == [] || id.None? then None
    else if models[0].modelId == id.value then Some(0)
    else
      var rest := Find(models[1..], id);
      assert ModelIds(models) == [models[0].modelId] + ModelIds(models[1..]);
      if rest.Some? then Some(rest.value + 1) else None
  }

  /** `resolveClaudeModelId(modelId)` with the configured default. */
  function ResolveClaudeModelId(modelId: Option<string>, defaultId: string): (r: string)
    ensures modelId.Some? && modelId.value in ModelIds(AnthropicLlmList) ==> r == modelId.value
    ensures (modelId.None? || modelId.value !in ModelIds(AnthropicLlmList)) ==> r == defaultId
  {
    var m := Find(AnthropicLlmList, modelId);
    if m.Some? then AnthropicLlmList[m.value].modelId else defaultId
  }

  /** The result is a listed id or the default. */
  lemma {:induction false} ResolveInListOrDefault(modelId: Option<string>, defaultId: string)
    ensures ResolveClaudeModelId(modelId, defaultId) in ModelIds(AnthropicLlmList)
            || ResolveClaudeModelId(modelId, defaultId) == defaultId
  {
  }

  /** Resolving a resolved id again changes nothing when the default is
      listed; when it is not, an unknown id resolves to an unlisted id and
      there is no second fallback. */
  lemma {:induction false} ResolveIdempotent(modelId: Option<string>, defaultId: string)
    ensures defaultId in ModelIds(AnthropicLlmList) ==>
              var r := ResolveClaudeModelId(modelId, defaultId);
              ResolveClaudeModelId(Some(r), defaultId) == r && r in ModelIds(AnthropicLlmList)
    ensures defaultId !in ModelIds(AnthropicLlmList) && (modelId.None? || modelId.value !in ModelIds(AnthropicLlmList)) ==>
              ResolveClaudeModelId(modelId, defaultId) !in ModelIds(AnthropicLlmList)
  {
  }

  /** With neither environment variable set, the default is listed, so
      resolution is idempotent. */
  lemma {:induction false} DefaultListedWithoutOverride()
    ensures DefaultClaudeModelId(None, None) in ModelIds(AnthropicLlmList)
  {
    FallbackListed();
  }

  /** A workspace provisioned with "gpt-4-1106-preview" resolves to the
      default. */
  lemma {:induction false} WorkspaceDefaultResolvesToDefault(defaultId: string)
    ensures ResolveClaudeModelId(Some("gpt-4-1106-preview"), defaultId) == defaultId
  {
    WorkspaceDefaultNotListed();
  }
}
