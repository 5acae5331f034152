/** Which hosted models the picker offers, and the local Ollama models. The
    `/api/keys` and `/api/tags` responses are parameters. */
module FetchModels {
  import opened Wrappers
  import opened JsObject
  import opened LlmTypes
  import opened AnthropicModels
  import opened ModelRegistry

  /** What a `fetch` call gives back: a thrown network error, a response
      whose `ok` is false, or an ok response with its parsed JSON body (a
      body that does not parse is `Failed`, since `response.json()` throws). */
  datatype FetchOutcome = Failed | NotOk | Body(data: Json)

  /** The value `fetchHostedModels` resolves to when it succeeds. */
  datatype HostedModels = HostedModels(envKeyMap: Json, hostedModels: seq<LLM>)

  /** The providers examined, in order. */
  const Providers: seq<string> := ["openai", "anthropic"]

  /** `data.isUsingEnvKeyMap || {}`, where `data` is not null. */
  function EnvKeyMap(data: Json): (m: Json)
    requires !data.JNull?
    ensures JsonTruthy(m)
    ensures Prop(data, "isUsingEnvKeyMap").Found? && JsonTruthy(Prop(data, "isUsingEnvKeyMap").value)
            ==> m == Prop(data, "isUsingEnvKeyMap").value
    ensures !(Prop(data, "isUsingEnvKeyMap").Found? && JsonTruthy(Prop(data, "isUsingEnvKeyMap").value))
            ==> m == JObj([])
  {
    match Prop(data, "isUsingEnvKeyMap")
    case Found(v) => if JsonTruthy(v) then v else JObj([])
    case _ => JObj([])
  }

  /** `isUsingEnvKeyMap[provider]` is truthy. */
  predicate EnvKeyActive(envKeyMap: Json, provider: string) {
    var v := Prop(envKeyMap, provider);
    v.Found? && JsonTruthy(v.value)
  }

  /** `profile?.[`${provider}_api_key`]` is truthy. */
  predicate ProfileHasKey(profile: Option<Obj<Value>>, provider: string) {
    profile.Some? && var v := Get(profile.value, provider + "_api_key"); v.Some? && Truthy(v.value)
  }

  /** The provider is offered: the user stored a key, or the server has one. */
  predicate Enabled(profile: Option<Obj<Value>>, envKeyMap: Json, provider: string) {
    ProfileHasKey(profile, provider) || EnvKeyActive(envKeyMap, provider)
  }

  /** The models contributed by a sequence of providers, in order: an
      enabled provider contributes its list in `lists` when it has one. */
  function ModelsFor(profile: Option<Obj<Value>>, envKeyMap: Json, providers: seq<string>,
                     lists: Obj<seq<LLM>>): seq<LLM>
    decreases |providers|
  {
    if providers == [] then []
    else
      var p := providers[|providers| - 1];
      var models := Get(lists, p);
      ModelsFor(profile, envKeyMap, providers[..|providers| - 1], lists)
        + (if Enabled(profile, envKeyMap, p) && models.Some? then models.value else [])
  }

  /** The hosted models `fetchHostedModels` offers for a key map. */
  function HostedModelsFor(profile: Option<Obj<Value>>, envKeyMap: Json): seq<LLM> {
    ModelsFor(profile, envKeyMap, Providers, LlmListMap)
  }

  /** `fetchHostedModels(profile)`: `None` is `undefined`, which any thrown
      error (including a non-ok response and a `null` body) turns into. */
  method FetchHostedModels(profile: Option<Obj<Value>>, response: FetchOutcome) returns (r: Option<HostedModels>)
    ensures r.None? <==> !response.Body? || response.data.JNull?
    ensures r.Some? ==> (r.value.envKeyMap == EnvKeyMap(response.data)
                         && r.value.hostedModels == HostedModelsFor(profile, r.value.envKeyMap))
  {
    if !response.Body? || response.data.JNull? {
      return None;
    }
    var isUsingEnvKeyMap := EnvKeyMap(response.data);
    var modelsToAdd := CollectModels(profile, isUsingEnvKeyMap, Providers, LlmListMap);
    return Some(HostedModels(isUsingEnvKeyMap, modelsToAdd));
  }

  /** The `for` loop of `fetchHostedModels`: each enabled provider's list,
      when it has one, is pushed in provider order. */
  method CollectModels(profile: Option<Obj<Value>>, isUsingEnvKeyMap: Json, providers: seq<string>,
                       lists: Obj<seq<LLM>>) returns (modelsToAdd: seq<LLM>)
    ensures modelsToAdd == ModelsFor(profile, isUsingEnvKeyMap, providers, lists)
  {
    modelsToAdd := [];
    var i := 0;
    while i < |providers|
      invariant 0 <= i <= |providers|
      invariant modelsToAdd == ModelsFor(profile, isUsingEnvKeyMap, providers[..i], lists)
    {
      var provider := providers[i];
      assert providers[..i + 1] == providers[..i] + [provider];
      ModelsForStep(profile, isUsingEnvKeyMap, providers[..i], provider, lists);
      if ProfileHasKey(profile, provider) || EnvKeyActive(isUsingEnvKeyMap, provider) {
        var models := Get(lists, provider);
        if models.Some? {
          modelsToAdd := modelsToAdd + models.value;
        }
      }
      i := i + 1;
    }
    assert providers[..i] == providers;
  }

  /** One more provider appends its contribution. */
  lemma {:induction false} ModelsForStep(profile: Option<Obj<Value>>, envKeyMap: Json, providers: seq<string>,
                                         p: string, lists: Obj<seq<LLM>>)
    ensures ModelsFor(profile, envKeyMap, providers + [p], lists)
            == ModelsFor(profile, envKeyMap, providers, lists)
               + (if Enabled(profile, envKeyMap, p) && Get(lists, p).Some? then Get(lists, p).value else [])
  {
    assert (providers + [p])[..|providers|] == providers;
  }

  /** Since the OpenAI list is empty, the hosted models are exactly the
      Anthropic list when Anthropic is enabled, and empty otherwise. */
  lemma {:induction false} HostedModelsShape(profile: Option<Obj<Value>>, envKeyMap: Json)
    ensures HostedModelsFor(profile, envKeyMap)
            == if Enabled(profile, envKeyMap, "anthropic") then AnthropicLlmList else []
    ensures HostedModelsFor(profile, envKeyMap) == [] || HostedModelsFor(profile, envKeyMap) == AnthropicLlmList
  {
    LlmListMapEntries("anthropic");
    EmptyThenList(profile, envKeyMap, "openai", "anthropic", LlmListMap, AnthropicLlmList);
  }

  /** Two providers whose first list is empty contribute the second list
      exactly when the second provider is enabled. */
  lemma {:induction false} EmptyThenList(profile: Option<Obj<Value>>, envKeyMap: Json, p0: string, p1: string,
                                         lists: Obj<seq<LLM>>, models: seq<LLM>)
    requires Get(lists, p0) == Some([]) && Get(lists, p1) == Some(models)
    ensures ModelsFor(profile, envKeyMap, [p0, p1], lists)
            == if Enabled(profile, envKeyMap, p1) then models else []
  {
    ModelsForStep(profile, envKeyMap, [], p0, lists);
    ModelsForStep(profile, envKeyMap, [p0], p1, lists);
    assert [] + [p0] == [p0];
    assert [p0] + [p1] == [p0, p1];
  }

  /** A stored Anthropic key or an active server key is enough, and nothing
      else puts the Anthropic models in the picker. */
  lemma {:induction false} AnthropicOfferedIff(profile: Option<Obj<Value>>, envKeyMap: Json)
    ensures AnthropicLlmList[0] in HostedModelsFor(profile, envKeyMap)
            <==> ProfileHasKey(profile, "anthropic") || EnvKeyActive(envKeyMap, "anthropic")
  {
    HostedModelsShape(profile, envKeyMap);
  }

  /** A body without a truthy `isUsingEnvKeyMap` gives `{}`, under which only
      stored keys count. */
  lemma {:induction false} MissingEnvMapDefaults(data: Json, profile: Option<Obj<Value>>)
    requires data.JObj? && "isUsingEnvKeyMap" !in Keys(data.fields)
    ensures EnvKeyMap(data) == JObj([])
    ensures HostedModelsFor(profile, EnvKeyMap(data))
            == if ProfileHasKey(profile, "anthropic") then AnthropicLlmList else []
  {
    HostedModelsShape(profile, EnvKeyMap(data));
    assert !EnvKeyActive(JObj([]), "anthropic");
  }

  /** The record an Ollama tag name becomes. */
  function OllamaModel(name: string): LLM {
    LLM(name, name, "ollama", name, "https://ollama.ai/", false, None)
  }

  /** `data.models.map(...)`: one record per tag, same length and order. */
  function OllamaModels(names: seq<string>): (r: seq<LLM>)
    ensures |r| == |names|
    ensures forall i :: 0 <= i < |names| ==>
              r[i].modelId == names[i] && r[i].modelName == names[i] && r[i].hostedId == names[i]
              && r[i].provider == "ollama" && !r[i].imageInput && r[i].platformLink == "https://ollama.ai/"
  {
    seq(|names|, i requires 0 <= i < |names| => OllamaModel(names[i]))
  }

  /** `model.name` as the mapping reads it from a tag that is not `null`:
      `undefined`, or whatever JSON value the tag holds. */
  datatype TagName = NoName | Name(value: Json)

  /** The object `data.models.map(...)` builds from one tag. The three name
      fields hold `model.name` as it is, so they are `undefined` for a
      nameless tag and need not be strings. */
  datatype OllamaRecord = OllamaRecord(modelId: TagName, modelName: TagName, provider: string,
                                       hostedId: TagName, platformLink: string, imageInput: bool)

  /** `model.name` of a tag that is not `null`. */
  function NameOf(item: Json): (r: TagName)
    requires !item.JNull?
    ensures r.Name? <==> Prop(item, "name").Found?
    ensures r.Name? ==> Prop(item, "name") == Found(r.value)
  {
    match Prop(item, "name")
    case Found(v) => Name(v)
    case _ => NoName
  }

  /** The record of one tag. */
  function OllamaRecordOf(name: TagName): OllamaRecord {
    OllamaRecord(name, name, "ollama", name, "https://ollama.ai/", false)
  }

  /** The record as an `LLM`: it is one exactly when the tag name is a
      string, and then it is the Ollama model of that name. */
  function AsLlm(r: OllamaRecord): (m: Option<LLM>)
    ensures m.Some? <==> r.modelId.Name? && r.modelId.value.JStr?
    ensures m.Some? ==> m.value.modelId == r.modelId.value.s
  {
    match r.modelId
    case Name(JStr(s)) => Some(OllamaModel(s))
    case _ => None
  }

  /** `data.models.map(...)` over a list: reading `name` of a `null` tag
      throws, which makes the whole call `undefined`; every other tag gives
      a record, in order. */
  function OllamaRecords(items: seq<Json>): (r: Option<seq<OllamaRecord>>)
    ensures r.Some? <==> forall i :: 0 <= i < |items| ==> !items[i].JNull?
    ensures r.Some? ==> |r.value| == |items|
    ensures r.Some? ==> forall i :: 0 <= i < |items| ==> r.value[i] == OllamaRecordOf(NameOf(items[i]))
  {
    if exists i :: 0 <= i < |items| && items[i].JNull? then None
    else Some(seq(|items|, i requires 0 <= i < |items| => OllamaRecordOf(NameOf(items[i]))))
  }

  /** `fetchOllamaModels()`: `None` is `undefined`, returned for a failed or
      non-ok response, for a body whose `models` is not a list (`.map`
      throws) and for a list holding a `null` tag. Otherwise each tag gives
      one record, in order, whose id, name and hosted id are the tag's
      `name` (`undefined` when it has none), with provider "ollama", the
      Ollama link and no image input. */
  function FetchOllamaModels(response: FetchOutcome): (r: Option<seq<OllamaRecord>>)
    ensures r.Some? <==> response.Body? && Prop(response.data, "models").Found?
                         && Prop(response.data, "models").value.JArr?
                         && forall i :: 0 <= i < |Prop(response.data, "models").value.items|
                                       ==> !Prop(response.data, "models").value.items[i].JNull?
    ensures r.Some? ==>
              var items := Prop(response.data, "models").value.items;
              |r.value| == |items|
              && forall i :: 0 <= i < |items| ==>
                   var name := if Prop(items[i], "name").Found? then Name(Prop(items[i], "name").value) else NoName;
                   r.value[i].modelId == name && r.value[i].modelName == name && r.value[i].hostedId == name
                   && r.value[i].provider == "ollama" && r.value[i].platformLink == "https://ollama.ai/"
                   && !r.value[i].imageInput
  {
    if !response.Body? then None
    else match Prop(response.data, "models")
      case Found(JArr(items)) => OllamaRecords(items)
      case _ => None
  }

  /** Every tag of a body whose tags carry string names becomes the Ollama
      model of its name. */
  lemma {:induction false} OllamaModelsFromTags(names: seq<string>)
    ensures var body := JObj([("models", JArr(seq(|names|, i requires 0 <= i < |names| => JObj([("name", JStr(names[i]))]))))]);
            var r := FetchOllamaModels(Body(body));
            r.Some? && |r.value| == |names|
            && forall i :: 0 <= i < |names| ==> AsLlm(r.value[i]) == Some(OllamaModels(names)[i])
  {
    var items := seq(|names|, i requires 0 <= i < |names| => JObj([("name", JStr(names[i]))]));
    var body := JObj([("models", JArr(items))]);
    assert Prop(body, "models") == Found(JArr(items));
    var r := FetchOllamaModels(Body(body));
    forall i | 0 <= i < |names| ensures AsLlm(r.value[i]) == Some(OllamaModels(names)[i]) {
      assert Prop(items[i], "name") == Found(JStr(names[i]));
    }
  }

  /** A tag without a name still gives a record, whose name fields are
      `undefined`; only a `null` tag makes the call `undefined`. */
  lemma {:induction false} NamelessTagKept(items: seq<Json>, i: nat)
    requires i < |items| && items[i] == JObj([])
    requires forall j :: 0 <= j < |items| ==> !items[j].JNull?
    ensures var r := FetchOllamaModels(Body(JObj([("models", JArr(items))])));
            r.Some? && r.value[i] == OllamaRecordOf(NoName) && AsLlm(r.value[i]).None?
  {
    var body := JObj([("models", JArr(items))]);
    assert Prop(body, "models") == Found(JArr(items));
    assert Prop(items[i], "name") == Undefined;
  }

  /** A `null` tag makes the call `undefined`. */
  lemma {:induction false} NullTagFails(items: seq<Json>, i: nat)
    requires i < |items| && items[i] == JNull
    ensures FetchOllamaModels(Body(JObj([("models", JArr(items))]))) == None
  {
    var body := JObj([("models", JArr(items))]);
    assert Prop(body, "models") == Found(JArr(items));
  }
}
