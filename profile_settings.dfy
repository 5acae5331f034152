/** Saving the profile settings sheet: the form's fields are spread over the
    loaded profile and written back, then each provider's hosted models are
    added to or removed from the picker according to whether the saved
    profile now holds that provider's key. */
module ProfileSettings {
  import opened Wrappers
  import opened JsObject
  import opened Seqs
  import opened LlmTypes
  import opened AnthropicModels
  import opened ModelRegistry
  import opened FetchModels
  import opened SqlParams
  import opened ProfileDb

  /** The providers examined after a save, in order. */
  const SaveProviders: seq<string> :=
    ["openai", "google", "azure", "anthropic", "mistral", "groq", "perplexity", "openrouter"]

  /** The profile field holding a provider's key. */
  function ProviderKey(provider: string): string {
    if provider == "google" then "google_gemini_api_key"
    else if provider == "azure" then "azure_openai_api_key"
    else provider + "_api_key"
  }

  /** What the form holds when Save is pressed. */
  datatype ProfileForm = ProfileForm(
    displayName: string, username: string, profileInstructions: string,
    openaiApiKey: string, openaiOrgId: string, anthropicApiKey: string,
    googleGeminiApiKey: string, mistralApiKey: string, groqApiKey: string,
    perplexityApiKey: string, useAzureOpenai: bool, azureOpenaiApiKey: string,
    azureOpenaiEndpoint: string, azureOpenai35TurboId: string, azureOpenai45OId: string,
    azureOpenai45TurboId: string, azureOpenai45VisionId: string, azureEmbeddingsId: string,
    openrouterApiKey: string)

  /** What `uploadProfileImage` resolves to. */
  datatype ImageUpload = ImageUpload(path: string, url: Option<string>)

  /** The fields the save writes over the loaded profile, in order. */
  function FormEntries(f: ProfileForm, imageUrl: Value, imagePath: string): Row {
    [("display_name", Str(f.displayName)), ("username", Str(f.username)),
     ("profile_context", Str(f.profileInstructions)), ("image_url", imageUrl),
     ("image_path", Str(imagePath)), ("openai_api_key", Str(f.openaiApiKey)),
     ("openai_organization_id", Str(f.openaiOrgId)), ("anthropic_api_key", Str(f.anthropicApiKey)),
     ("google_gemini_api_key", Str(f.googleGeminiApiKey)), ("mistral_api_key", Str(f.mistralApiKey)),
     ("groq_api_key", Str(f.groqApiKey)), ("perplexity_api_key", Str(f.perplexityApiKey)),
     ("use_azure_openai", Bool(f.useAzureOpenai)), ("azure_openai_api_key", Str(f.azureOpenaiApiKey)),
     ("azure_openai_endpoint", Str(f.azureOpenaiEndpoint)),
     ("azure_openai_35_turbo_id", Str(f.azureOpenai35TurboId)),
     ("azure_openai_45_o_id", Str(f.azureOpenai45OId)),
     ("azure_openai_45_turbo_id", Str(f.azureOpenai45TurboId)),
     ("azure_openai_45_vision_id", Str(f.azureOpenai45VisionId)),
     ("azure_openai_embeddings_id", Str(f.azureEmbeddingsId)),
     ("openrouter_api_key", Str(f.openrouterApiKey))]
  }

  /** The image fields: the stored URL and an empty path when no image was
      chosen; the uploaded path and `url ?? previous URL` when one was. */
  function ImageFields(profile: Row, upload: Option<ImageUpload>): (r: (Value, string))
    ensures upload.None? ==> r == (Get(profile, "image_url").GetOr(Null), "")
    ensures upload.Some? ==> r.1 == upload.value.path
    ensures upload.Some? && upload.value.url.Some? ==> r.0 == Str(upload.value.url.value)
    ensures upload.Some? && upload.value.url.None? ==> r.0 == Get(profile, "image_url").GetOr(Null)
  {
    var previous := Get(profile, "image_url").GetOr(Null);
    match upload
    case None => (previous, "")
    case Some(u) => (if u.url.Some? then Str(u.url.value) else previous, u.path)
  }

  /** `{...profile, display_name: ..., ...}`. */
  function SavePayload(profile: Row, f: ProfileForm, upload: Option<ImageUpload>): Row {
    var (url, path) := ImageFields(profile, upload);
    Assign(profile, FormEntries(f, url, path))
  }

  /** The columns the save writes, in order. */
  const FormColumns: seq<string> := [
    "display_name", "username", "profile_context", "image_url", "image_path", "openai_api_key",
    "openai_organization_id", "anthropic_api_key", "google_gemini_api_key", "mistral_api_key",
    "groq_api_key", "perplexity_api_key", "use_azure_openai", "azure_openai_api_key",
    "azure_openai_endpoint", "azure_openai_35_turbo_id", "azure_openai_45_o_id",
    "azure_openai_45_turbo_id", "azure_openai_45_vision_id", "azure_openai_embeddings_id",
    "openrouter_api_key"]

  lemma {:induction false} FormColumnsDistinct()
    ensures forall i, j :: 0 <= i < j < |FormColumns| ==> FormColumns[i] != FormColumns[j]
  {
  }

  lemma {:induction false} FormEntriesDistinct(f: ProfileForm, imageUrl: Value, imagePath: string)
    ensures DistinctKeys(FormEntries(f, imageUrl, imagePath))
  {
    var e := FormEntries(f, imageUrl, imagePath);
    assert Keys(e) == FormColumns;
    FormColumnsDistinct();
    forall i, j | 0 <= i < j < |e| ensures e[i].0 != e[j].0 {
      assert e[i].0 == FormColumns[i] && e[j].0 == FormColumns[j];
    }
  }

  /** Every form field reads back from the payload as the form holds it, any
      other field as the loaded profile holds it. */
  lemma {:induction false} SavePayloadFields(profile: Row, f: ProfileForm, upload: Option<ImageUpload>, k: string)
    ensures var e := FormEntries(f, ImageFields(profile, upload).0, ImageFields(profile, upload).1);
            Get(SavePayload(profile, f, upload), k) == if k in Keys(e) then Get(e, k) else Get(profile, k)
  {
    var (url, path) := ImageFields(profile, upload);
    FormEntriesDistinct(f, url, path);
    AssignGet(profile, FormEntries(f, url, path), k);
  }

  /** The save always writes columns, so the update never fails for
      having nothing to set, as long as `display_name` is not left out. */
  lemma {:induction false} SaveHasFields(profile: Row, f: ProfileForm, upload: Option<ImageUpload>, excluded: set<string>)
    requires "display_name" !in excluded
    ensures SetClause(UpdateFields(SavePayload(profile, f, upload), excluded)) != ""
  {
    var (url, path) := ImageFields(profile, upload);
    var k := FormEntries(f, url, path)[0].0;
    assert k == "display_name";
    SavedEntry(profile, f, upload, 0);
    KeptFieldWritten(SavePayload(profile, f, upload), excluded, k);
  }

  /** With `updated_at` left out too, the save's statement is one the
      database runs whenever the loaded row has distinct columns. */
  lemma {:induction false} CorrectedSaveAccepted(profile: Row, f: ProfileForm, upload: Option<ImageUpload>)
    requires DistinctKeys(profile)
    ensures UpdateAccepted(SavePayload(profile, f, upload), UpdateExcluded)
  {
    var (url, path) := ImageFields(profile, upload);
    AssignKeepsDistinct(profile, FormEntries(f, url, path));
    ExcludedAssignsEachOnce(SavePayload(profile, f, upload));
    SaveHasFields(profile, f, upload, UpdateExcluded);
  }

  /** The entry at position `n` of the form's fields is what the payload
      holds under its key. */
  lemma {:induction false} SavedEntry(profile: Row, f: ProfileForm, upload: Option<ImageUpload>, n: nat)
    requires n < 21
    ensures var e := FormEntries(f, ImageFields(profile, upload).0, ImageFields(profile, upload).1);
            Get(SavePayload(profile, f, upload), e[n].0) == Some(e[n].1)
  {
    var (url, path) := ImageFields(profile, upload);
    var e := FormEntries(f, url, path);
    FormEntriesDistinct(f, url, path);
    GetAt(e, n);
    assert Keys(e)[n] == e[n].0;
    SavePayloadFields(profile, f, upload, e[n].0);
  }

  /** The key the Anthropic step checks is the key the form just saved. */
  lemma {:induction false} CheckedKeyIsSaved(profile: Row, f: ProfileForm, upload: Option<ImageUpload>)
    ensures Get(SavePayload(profile, f, upload), ProviderKey("anthropic")) == Some(Str(f.anthropicApiKey))
  {
    var (url, path) := ImageFields(profile, upload);
    assert FormEntries(f, url, path)[7] == ("anthropic_api_key", Str(f.anthropicApiKey));
    SavedEntry(profile, f, upload, 7);
    AnthropicKeyColumn();
  }

  lemma {:induction false} AnthropicKeyColumn()
    ensures ProviderKey("anthropic") == "anthropic_api_key"
  {
  }

  /** The saved image path is the uploaded one, or empty without an image. */
  lemma {:induction false} SavedImagePath(profile: Row, f: ProfileForm, upload: Option<ImageUpload>)
    ensures Get(SavePayload(profile, f, upload), "image_path")
            == Some(Str(if upload.Some? then upload.value.path else ""))
  {
    var (url, path) := ImageFields(profile, upload);
    assert FormEntries(f, url, path)[4] == ("image_path", Str(path));
    SavedEntry(profile, f, upload, 4);
  }

  /** The payload keeps every column of the loaded row, `updated_at`
      included, which the statement as written then assigns twice, so the
      database refuses it. */
  lemma {:induction false} SavePayloadCarriesUpdatedAt(profile: Row, f: ProfileForm, upload: Option<ImageUpload>)
    requires "updated_at" in Keys(profile)
    ensures "updated_at" in Keys(SavePayload(profile, f, upload))
    ensures !AssignsEachOnce(AssignedColumns(SavePayload(profile, f, upload), UpdateExcludedAsWritten))
    ensures !UpdateAccepted(SavePayload(profile, f, upload), UpdateExcludedAsWritten)
  {
    var (url, path) := ImageFields(profile, upload);
    AssignKeys(profile, FormEntries(f, url, path));
    AsWrittenRefusesUpdatedAt(SavePayload(profile, f, upload));
  }

  /** The payload the save handler sends, or `None` when it returns before
      the update: without a profile, or when the image upload threw. */
  function PendingPayload(profile: Option<Row>, f: ProfileForm, upload: Option<Result<ImageUpload>>): (r: Option<Row>)
    ensures r.None? <==> profile.None? || (upload.Some? && upload.value.Err?)
    ensures r.Some? ==> r.value == SavePayload(profile.value, f, if upload.Some? then Some(upload.value.value) else None)
  {
    if profile.None? then None
    else if upload.None? then Some(SavePayload(profile.value, f, None))
    else if upload.value.Err? then None
    else Some(SavePayload(profile.value, f, Some(upload.value.value)))
  }

  /** Some model of `prev` has this id. */
  predicate Listed(prev: seq<LLM>, id: string) {
    id in ModelIds(prev)
  }

  /** `[...prev, ...models.filter(m => !prev.some(p => p.modelId === m.modelId))]`. */
  function AddModels(prev: seq<LLM>, models: seq<LLM>): (r: seq<LLM>)
    ensures |r| >= |prev| && r[..|prev|] == prev
    ensures forall m :: m in models ==> Listed(r, m.modelId)
    ensures forall m :: m in r ==> m in prev || m in models
  {
    var r := prev + Filter(models, (m: LLM) => !Listed(prev, m.modelId));
    forall m | m in models ensures Listed(r, m.modelId) {
      if Listed(prev, m.modelId) {
        var i :| 0 <= i < |prev| && ModelIds(prev)[i] == m.modelId;
        assert ModelIds(r)[i] == m.modelId;
      } else {
        var added := Filter(models, (m: LLM) => !Listed(prev, m.modelId));
        assert m in added;
        var j :| 0 <= j < |added| && added[j] == m;
        assert ModelIds(r)[|prev| + j] == m.modelId;
      }
    }
    r
  }

  /** Adding the same models twice is adding them once. */
  lemma {:induction false} AddModelsIdempotent(prev: seq<LLM>, models: seq<LLM>)
    ensures AddModels(AddModels(prev, models), models) == AddModels(prev, models)
  {
    var once := AddModels(prev, models);
    FilterKeepsNone(models, (m: LLM) => !Listed(once, m.modelId));
  }

  /** Adding models with distinct ids to a list with distinct ids keeps the
      ids distinct. */
  lemma {:induction false} AddModelsKeepsDistinct(prev: seq<LLM>, models: seq<LLM>)
    requires DistinctIds(prev) && DistinctIds(models)
    ensures DistinctIds(AddModels(prev, models))
  {
    var added := Filter(models, (m: LLM) => !Listed(prev, m.modelId));
    FilterDistinctIds(models, (m: LLM) => !Listed(prev, m.modelId));
    var r := AddModels(prev, models);
    assert r == prev + added;
    forall i, j | 0 <= i < j < |r| ensures r[i].modelId != r[j].modelId {
      if j >= |prev| {
        assert r[j] == added[j - |prev|];
        assert !Listed(prev, r[j].modelId);
        if i < |prev| {
          assert ModelIds(prev)[i] == r[i].modelId;
        } else {
          assert r[i] == added[i - |prev|];
        }
      }
    }
  }

  /** The models a filter keeps from a list with distinct ids have distinct ids. */
  lemma {:induction false} FilterDistinctIds(models: seq<LLM>, f: LLM -> bool)
    requires DistinctIds(models)
    ensures DistinctIds(Filter(models, f))
  {
    if models != [] {
      var rest := Filter(models[1..], f);
      assert DistinctIds(models[1..]) by {
        forall i, j | 0 <= i < j < |models[1..]| ensures models[1..][i].modelId != models[1..][j].modelId {
          assert models[1..][i] == models[i + 1] && models[1..][j] == models[j + 1];
        }
      }
      FilterDistinctIds(models[1..], f);
      if f(models[0]) {
        assert Filter(models, f) == [models[0]] + rest;
        forall j | 0 <= j < |rest| ensures models[0].modelId != rest[j].modelId {
          var k :| 0 <= k < |models[1..]| && models[1..][k] == rest[j];
          assert models[k + 1] == rest[j];
        }
        DistinctIdsCons(models[0], rest);
      } else {
        assert Filter(models, f) == rest;
      }
    }
  }

  lemma {:induction false} DistinctIdsCons(m: LLM, rest: seq<LLM>)
    requires DistinctIds(rest)
    requires forall j :: 0 <= j < |rest| ==> m.modelId != rest[j].modelId
    ensures DistinctIds([m] + rest)
  {
    var r := [m] + rest;
    forall i, j | 0 <= i < j < |r| ensures r[i].modelId != r[j].modelId {
      assert r[j] == rest[j - 1];
      if i > 0 { assert r[i] == rest[i - 1]; }
    }
  }

  /** `prev.filter(m => !models.includes(m))`. */
  function RemoveModels(prev: seq<LLM>, models: seq<LLM>): (r: seq<LLM>)
    ensures forall m :: m in r <==> m in prev && m !in models
    ensures |r| <= |prev|
  {
    Filter(prev, (m: LLM) => m !in models)
  }

  /** Removing after adding gives what removing alone gives: the models
      added were all in the removed list. */
  lemma {:induction false} RemoveAfterAdd(prev: seq<LLM>, models: seq<LLM>)
    ensures RemoveModels(AddModels(prev, models), models) == RemoveModels(prev, models)
  {
    var added := Filter(models, (m: LLM) => !Listed(prev, m.modelId));
    FilterAppend(prev, added, (m: LLM) => m !in models);
    FilterKeepsNone(added, (m: LLM) => m !in models);
  }

  /** One provider's update of the hosted models after a save: nothing when
      the server holds its key or it has no model list; otherwise its models
      are added when the saved profile holds a truthy key and removed when
      it does not. */
  function ApplyProvider(prev: seq<LLM>, saved: Row, envKeyMap: Json, provider: string, lists: Obj<seq<LLM>>): seq<LLM> {
    var models := Get(lists, provider);
    if EnvKeyActive(envKeyMap, provider) || models.None? then prev
    else
      var key := Get(saved, ProviderKey(provider));
      if key.Some? && Truthy(key.value) then AddModels(prev, models.value)
      else RemoveModels(prev, models.value)
  }

  /** The providers' updates applied in order. */
  function ApplyProviders(prev: seq<LLM>, saved: Row, envKeyMap: Json, providers: seq<string>, lists: Obj<seq<LLM>>): seq<LLM>
    decreases |providers|
  {
    if providers == [] then prev
    else ApplyProvider(ApplyProviders(prev, saved, envKeyMap, providers[..|providers| - 1], lists),
                       saved, envKeyMap, providers[|providers| - 1], lists)
  }

  /** One more provider applies its step to what the others produced. */
  lemma {:induction false} ApplyProvidersStep(prev: seq<LLM>, saved: Row, envKeyMap: Json, providers: seq<string>, p: string, lists: Obj<seq<LLM>>)
    ensures ApplyProviders(prev, saved, envKeyMap, providers + [p], lists)
            == ApplyProvider(ApplyProviders(prev, saved, envKeyMap, providers, lists), saved, envKeyMap, p, lists)
  {
    assert (providers + [p])[..|providers|] == providers;
  }

  /** Providers without a model list change nothing, and the empty OpenAI
      list changes nothing either. */
  lemma {:induction false} OnlyListedProvidersMatter(prev: seq<LLM>, saved: Row, envKeyMap: Json, provider: string)
    ensures provider != "anthropic" ==> ApplyProvider(prev, saved, envKeyMap, provider, LlmListMap) == prev
  {
    LlmListMapEntries(provider);
    if provider == "openai" && !EnvKeyActive(envKeyMap, provider) {
      FilterKeepsAll(prev, (m: LLM) => m !in []);
      assert Filter([], (m: LLM) => !Listed(prev, m.modelId)) == [];
    }
  }

  /** Applying providers in two parts is applying them all. */
  lemma {:induction false} ApplyProvidersAppend(prev: seq<LLM>, saved: Row, envKeyMap: Json, ps: seq<string>, qs: seq<string>, lists: Obj<seq<LLM>>)
    ensures ApplyProviders(prev, saved, envKeyMap, ps + qs, lists)
            == ApplyProviders(ApplyProviders(prev, saved, envKeyMap, ps, lists), saved, envKeyMap, qs, lists)
    decreases |qs|
  {
    if qs != [] {
      var qs' := qs[..|qs| - 1];
      assert (ps + qs)[..|ps + qs| - 1] == ps + qs';
      assert (ps + qs)[|ps + qs| - 1] == qs[|qs| - 1];
      ApplyProvidersAppend(prev, saved, envKeyMap, ps, qs', lists);
    } else {
      assert ps + qs == ps;
    }
  }

  /** Providers other than Anthropic leave the models as they are. */
  lemma {:induction false} ApplyOthersNoop(prev: seq<LLM>, saved: Row, envKeyMap: Json, ps: seq<string>)
    requires "anthropic" !in ps
    ensures ApplyProviders(prev, saved, envKeyMap, ps, LlmListMap) == prev
    decreases |ps|
  {
    if ps != [] {
      assert ps == ps[..|ps| - 1] + [ps[|ps| - 1]];
      ApplyOthersNoop(prev, saved, envKeyMap, ps[..|ps| - 1]);
      OnlyListedProvidersMatter(prev, saved, envKeyMap, ps[|ps| - 1]);
    }
  }

  /** After a save, only the Anthropic step has any effect. */
  lemma {:induction false} SaveUpdatesOnlyAnthropic(prev: seq<LLM>, saved: Row, envKeyMap: Json)
    ensures ApplyProviders(prev, saved, envKeyMap, SaveProviders, LlmListMap) == ApplyProvider(prev, saved, envKeyMap, "anthropic", LlmListMap)
  {
    var before := ["openai", "google", "azure"];
    var after := ["mistral", "groq", "perplexity", "openrouter"];
    assert SaveProviders == before + ["anthropic"] + after;
    OnlyAnthropicApplies(prev, saved, envKeyMap, before, after);
  }

  /** Among providers other than Anthropic, only the Anthropic step has
      any effect. */
  lemma {:induction false} OnlyAnthropicApplies(prev: seq<LLM>, saved: Row, envKeyMap: Json,
                                                before: seq<string>, after: seq<string>)
    requires "anthropic" !in before && "anthropic" !in after
    ensures ApplyProviders(prev, saved, envKeyMap, before + ["anthropic"] + after, LlmListMap)
            == ApplyProvider(prev, saved, envKeyMap, "anthropic", LlmListMap)
  {
    ApplyProvidersAppend(prev, saved, envKeyMap, before + ["anthropic"], after, LlmListMap);
    ApplyProvidersAppend(prev, saved, envKeyMap, before, ["anthropic"], LlmListMap);
    ApplyOthersNoop(prev, saved, envKeyMap, before);
    var a := ApplyProvider(prev, saved, envKeyMap, "anthropic", LlmListMap);
    assert ApplyProviders(prev, saved, envKeyMap, ["anthropic"], LlmListMap) == a by {
      assert ["anthropic"][..0] == [];
    }
    ApplyOthersNoop(a, saved, envKeyMap, after);
  }

  /** Saving a key for Anthropic (with no server key) puts every Anthropic
      model in the picker; saving it empty takes every one of them out. */
  lemma {:induction false} AnthropicKeySaved(prev: seq<LLM>, saved: Row, envKeyMap: Json)
    requires !EnvKeyActive(envKeyMap, "anthropic")
    ensures var key := Get(saved, "anthropic_api_key");
            key.Some? && Truthy(key.value) ==>
              forall m :: m in AnthropicLlmList ==> Listed(ApplyProviders(prev, saved, envKeyMap, SaveProviders, LlmListMap), m.modelId)
    ensures var key := Get(saved, "anthropic_api_key");
            !(key.Some? && Truthy(key.value)) ==>
              forall m :: m in AnthropicLlmList ==> m !in ApplyProviders(prev, saved, envKeyMap, SaveProviders, LlmListMap)
  {
    SaveUpdatesOnlyAnthropic(prev, saved, envKeyMap);
    LlmListMapEntries("anthropic");
    var r := ApplyProviders(prev, saved, envKeyMap, SaveProviders, LlmListMap);
    AnthropicKeyColumn();
    var key := Get(saved, "anthropic_api_key");
    if key.Some? && Truthy(key.value) {
      assert r == AddModels(prev, AnthropicLlmList);
    } else {
      assert r == RemoveModels(prev, AnthropicLlmList);
    }
  }

  /** The part of the settings sheet's state a save touches. */
  class ProfileSettingsState {
    var profile: Option<Row>
    var availableHostedModels: seq<LLM>
    var isOpen: bool
    const envKeyMap: Json
    const store: ProfileStore

    constructor(profile0: Option<Row>, models0: seq<LLM>, envKeyMap0: Json, store0: ProfileStore)
      ensures profile == profile0 && availableHostedModels == models0 && isOpen
      ensures envKeyMap == envKeyMap0 && store == store0
    {
      profile := profile0;
      availableHostedModels := models0;
      isOpen := true;
      envKeyMap := envKeyMap0;
      store := store0;
    }

    /** `providers.forEach(...)`: each provider's step, in order, with the
        model lists `lists`. The callbacks do not await before updating, so
        they run one after the other; each one's update of the list is
        applied to the result of the one before. */
    method UpdateHostedModels(saved: Row, providers: seq<string>, lists: Obj<seq<LLM>>)
      modifies this
      ensures availableHostedModels == ApplyProviders(old(availableHostedModels), saved, envKeyMap, providers, lists)
      ensures profile == old(profile) && isOpen == old(isOpen)
    {
      var prev := availableHostedModels;
      var models := prev;
      var i := 0;
      while i < |providers|
        modifies {}
        invariant 0 <= i <= |providers|
        invariant models == ApplyProviders(prev, saved, envKeyMap, providers[..i], lists)
      {
        ApplyProvidersStep(prev, saved, envKeyMap, providers[..i], providers[i], lists);
        assert providers[..i + 1] == providers[..i] + [providers[i]];
        models := ApplyProvider(models, saved, envKeyMap, providers[i], lists);
        i := i + 1;
      }
      assert providers[..i] == providers;
      availableHostedModels := models;
    }

    /** The save handler as written. `upload` is `None` when no image was
        chosen and `Some(Err)` when the upload threw; `now` is the
        database's timestamp. A missing profile, a failed upload and a
        failed update end the handler before any state changes; a
        successful update replaces the profile, applies every provider's
        step, and closes the sheet. Since the loaded profile carries
        `updated_at`, which `updateProfile` as written assigns twice, the
        save then always fails and nothing changes. */
    method HandleSave(f: ProfileForm, upload: Option<Result<ImageUpload>>, now: Value)
      modifies this, store
      ensures PendingPayload(old(profile), f, upload).None? ==> unchanged(this) && store.rows == old(store.rows)
      ensures PendingPayload(old(profile), f, upload).Some? ==>
                var payload := PendingPayload(old(profile), f, upload).value;
                var id := Get(old(profile).value, "id").GetOr(Null);
                var selected := Where(old(store.rows), "id", id);
                if !UpdateAccepted(payload, UpdateExcludedAsWritten) || selected == [] then
                  unchanged(this) && store.rows == old(store.rows)
                else
                  var saved := UpdatedRow(selected[0], payload, UpdateExcludedAsWritten, now);
                  store.rows == UpdateRows(old(store.rows), "id", id, payload, UpdateExcludedAsWritten, now)
                  && profile == Some(saved)
                  && availableHostedModels == ApplyProviders(old(availableHostedModels), saved, envKeyMap, SaveProviders, LlmListMap)
                  && !isOpen
      ensures old(profile).Some? && "updated_at" in Keys(old(profile).value) ==>
                unchanged(this) && store.rows == old(store.rows)
    {
      var payload := PendingPayload(profile, f, upload);
      if payload.None? {
        return;
      }
      var image := if upload.Some? then Some(upload.value.value) else None;
      if "updated_at" in Keys(profile.value) {
        SavePayloadCarriesUpdatedAt(profile.value, f, image);
      }
      var result := store.UpdateProfile(Get(profile.value, "id").GetOr(Null), payload.value, now);
      FinishSave(result);
    }

    /** The save handler over the corrected update, which leaves
        `updated_at` out of the payload's fields: for a loaded row with
        distinct columns, the save goes through whenever a row has the
        profile's id. */
    method HandleSaveCorrected(f: ProfileForm, upload: Option<Result<ImageUpload>>, now: Value)
      modifies this, store
      ensures PendingPayload(old(profile), f, upload).None? ==> unchanged(this) && store.rows == old(store.rows)
      ensures PendingPayload(old(profile), f, upload).Some? ==>
                var payload := PendingPayload(old(profile), f, upload).value;
                var id := Get(old(profile).value, "id").GetOr(Null);
                var selected := Where(old(store.rows), "id", id);
                if !UpdateAccepted(payload, UpdateExcluded) || selected == [] then
                  unchanged(this) && store.rows == old(store.rows)
                else
                  var saved := UpdatedRow(selected[0], payload, UpdateExcluded, now);
                  store.rows == UpdateRows(old(store.rows), "id", id, payload, UpdateExcluded, now)
                  && profile == Some(saved)
                  && availableHostedModels == ApplyProviders(old(availableHostedModels), saved, envKeyMap, SaveProviders, LlmListMap)
                  && !isOpen
      ensures PendingPayload(old(profile), f, upload).Some? && DistinctKeys(old(profile).value) ==>
                UpdateAccepted(PendingPayload(old(profile), f, upload).value, UpdateExcluded)
    {
      var payload := PendingPayload(profile, f, upload);
      if payload.None? {
        return;
      }
      var image := if upload.Some? then Some(upload.value.value) else None;
      if DistinctKeys(profile.value) {
        CorrectedSaveAccepted(profile.value, f, image);
      }
      var result := store.Update(Get(profile.value, "id").GetOr(Null), payload.value, UpdateExcluded, now);
      FinishSave(result);
    }

    /** The part of the save handler after the update: a failed update
        changes nothing (the error ends the handler); a successful one
        replaces the profile with the returned row, applies every
        provider's step and closes the sheet. */
    method FinishSave(result: Result<Row>)
      modifies this
      ensures result.Err? ==> unchanged(this)
      ensures result.Ok? ==>
                profile == Some(result.value)
                && availableHostedModels
                   == ApplyProviders(old(availableHostedModels), result.value, envKeyMap, SaveProviders, LlmListMap)
                && !isOpen
    {
      if result.Err? {
        return;
      }
      var saved := result.value;
      profile := Some(saved);
      UpdateHostedModels(saved, SaveProviders, LlmListMap);
      isOpen := false;
    }
  }
}
