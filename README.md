# Script Whisperer — a Dafny model of its core rules

Script Whisperer is a Next.js chat application for script writers. Users chat
with Anthropic, Mistral and Pollinations models, attach their documents and
collections, and keep assistants, prompts and profiles in a PostgreSQL or
Supabase database. This project models the deterministic rules at its core
and proves their properties:

- the model registry: the Anthropic and Pollinations model tables, default-model
  resolution, and the choice of hosted models by the keys a user holds;
- the chat-side state handlers: selecting an assistant in the quick settings,
  starting a chat from a system assistant, toggling collection files,
  attaching files, the file and create-file editors, the prompt sharing
  switch, and saving the profile form;
- the data layer: the `profiles` table, the `SET`-clause and parameter
  builders, and the NextAuth adapter and sign-in provisioning over the
  `users`, `accounts`, `sessions`, `verification_tokens`, `profiles` and
  `workspaces` tables;
- the route handlers: the admin assistant update, the admin deletion check,
  the Mistral and Pollinations chat routes, the middleware, and the OAuth
  callback;
- object naming and expiry arithmetic for Google Cloud Storage uploads.

Every database query, fetch, SDK call and clock read is a parameter of the
member that makes it. A query or call is either an outcome value (rows, a
count, an error) or a function from the query's arguments to its outcome.
Component state that React keeps in `useState` is a class whose fields the
handler methods update. JavaScript objects are ordered key/value sequences
(`JsObject.Obj`), so spreads, `Object.keys` and `JSON` bodies keep insertion
order. A thrown error is a `Thrown(message, status)` value, where the empty
message and status 0 stand for a missing property.

Model-id resolution has a single fallback: `ResolveClaudeModelId` keeps a
listed id and otherwise returns the configured default, even when that
default is itself unlisted (lib/models/llm/llm-list.ts:18-21); there is no
further hard-coded fallback (`ModelRegistry.ResolveIdempotent` states both
halves).

Modules, one per source file plus shared ones:

| module | file | models |
|---|---|---|
| Wrappers, Seqs | wrappers.dfy, seqs.dfy | Option/Result; `filter` and its laws |
| JsText | js_text.dfy | `trim`, `toLowerCase`, `includes`, `split`/`join`/`pop`, `parseInt`, `String(n)`, `encodeURIComponent` (ASCII) |
| JsObject | js_object.dfy | ordered objects, property access, spread, JSON values, row values |
| SqlParams | sql_params.dfy | `WHERE column = $1` selection, `field = $(i+2)` clauses, parameter lists, row updates |
| Http | http.dfy | response bodies, trimmed string fields, `error.message \|\| …` and `error.status \|\| 500` |
| LlmTypes, ChatTypes | llm_types.dfy, chat_types.dfy | model, assistant, file and chat records |
| AnthropicModels, PollinationsModels, ModelRegistry, FetchModels | lib/models/… | the model registry |
| QuickSettings, SidebarDisplayItem, CollectionItem, FileItem, CreateFile, PromptItem, ProfileSettings | components/… | the state handlers |
| ProfileDb, AuthConfig, SimpleAuthConfig | db/profile.ts, lib/auth/… | the data layer |
| AssistantUpdateRoute, VerifyDeletionRoute, MistralRoute, PollinationsRoute, Middleware, AuthCallback | app/…, middleware.ts | the request handlers |
| GoogleCloud | lib/storage/google-cloud.ts | object names, expiry and error wrapping |

## Model

| member | source | states |
|---|---|---|
| AnthropicModels.ListOrder | lib/models/llm/anthropic-llm-list.ts:184-199 | the list has 14 entries, Claude 2 first and Claude 4.5 Opus last, in declaration order |
| AnthropicModels.AllAnthropic | lib/models/llm/anthropic-llm-list.ts:9-182 | every entry has provider "anthropic" and a hosted id equal to its model id |
| AnthropicModels.IdsDistinct | lib/models/llm/anthropic-llm-list.ts:9-182 | no two entries share a model id |
| AnthropicModels.FallbackListed | lib/models/llm/anthropic-llm-list.ts:89-102 | the hard-coded fallback "claude-3-5-sonnet-20240620" is the sixth entry |
| AnthropicModels.ImageInputFromThirdEntry | lib/models/llm/anthropic-llm-list.ts:15-31 | exactly Claude 2 and Claude Instant have no image input |
| AnthropicModels.PricingOnFirstSix | lib/models/llm/anthropic-llm-list.ts:16-182 | the first six entries carry pricing and the other eight do not |
| AnthropicModels.WorkspaceDefaultNotListed | lib/models/llm/anthropic-llm-list.ts:184-199 | "gpt-4-1106-preview" is not a listed model id |
| PollinationsModels.ListOrder | lib/models/llm/pollinations-llm-list.ts:66-71 | four entries, in the order openai, openai-large, mistral, llama |
| PollinationsModels.AllFreePollinations | lib/models/llm/pollinations-llm-list.ts:6-64 | every entry has provider "pollinations" and zero input and output cost |
| PollinationsModels.IdsDistinctAndPrefixed | lib/models/llm/pollinations-llm-list.ts:7-52 | model ids are distinct and all start with "pollinations-" |
| PollinationsModels.ImageInputExceptLlama | lib/models/llm/pollinations-llm-list.ts:57 | exactly the Llama entry has no image input |
| LlmTypes.ModelIds | lib/models/llm/anthropic-llm-list.ts:184-199 | the ids of a model list, one per model, in list order |
| ModelRegistry.DefaultClaudeModelId | lib/models/llm/llm-list.ts:4-9 | the default is the first non-empty of the two environment variables, then the fallback literal |
| ModelRegistry.LlmListMapEntries | lib/models/llm/llm-list.ts:11-16 | `LLM_LIST` is the Anthropic list; the map gives [] for "openai", the Anthropic list for "anthropic", and nothing for any other provider |
| ModelRegistry.Find | lib/models/llm/llm-list.ts:19 | the result is the first model with that id, and none exists when it is absent; a missing id finds nothing |
| ModelRegistry.ResolveClaudeModelId | lib/models/llm/llm-list.ts:18-21 | a listed id comes back unchanged; any other id, missing ones included, gives the default |
| ModelRegistry.ResolveInListOrDefault | lib/models/llm/llm-list.ts:18-21 | the result is always a listed id or the default |
| ModelRegistry.ResolveIdempotent | lib/models/llm/llm-list.ts:6-21 | resolving twice equals resolving once when the default is listed; when it is not, an unknown id resolves to an unlisted id |
| ModelRegistry.DefaultListedWithoutOverride | lib/models/llm/llm-list.ts:4-9 | with neither environment variable set the default is listed, so resolution is idempotent |
| ModelRegistry.WorkspaceDefaultResolvesToDefault | lib/models/llm/llm-list.ts:18-21 | a workspace model "gpt-4-1106-preview" resolves to the default |
| FetchModels.EnvKeyMap | lib/models/fetch-models.ts:17 | a truthy `isUsingEnvKeyMap` is kept; anything else gives {} |
| FetchModels.FetchHostedModels | lib/models/fetch-models.ts:5-39 | the result is undefined exactly when the response fails, is not ok, or has a null body; otherwise it carries the key map and the models of the enabled providers, "openai" then "anthropic" |
| FetchModels.CollectModels | lib/models/fetch-models.ts:20-30 | the loop pushes, in provider order, the list of every provider that has a stored key or an active server key and a list in the map |
| FetchModels.ModelsFor | lib/models/fetch-models.ts:20-30 | the hosted models as a function of the providers; computed only, with `CollectModels`, `ModelsForStep` and `AnthropicOfferedIff` stating it |
| FetchModels.ModelsForStep | lib/models/fetch-models.ts:20-30 | one more provider appends its list exactly when it is enabled and has a list |
| FetchModels.EmptyThenList | lib/models/fetch-models.ts:7-30 | with an empty first list, two providers contribute the second list exactly when the second provider is enabled |
| FetchModels.HostedModelsShape | lib/models/fetch-models.ts:20-30 | because the OpenAI list is empty, the hosted models are either [] or exactly the Anthropic list |
| FetchModels.AnthropicOfferedIff | lib/models/fetch-models.ts:21-28 | the Anthropic models are offered if and only if the profile's `anthropic_api_key` or the server key map's "anthropic" entry is truthy |
| FetchModels.MissingEnvMapDefaults | lib/models/fetch-models.ts:17-23 | without a truthy `isUsingEnvKeyMap` only stored keys enable a provider |
| FetchModels.OllamaModels | lib/models/fetch-models.ts:53-60 | one Ollama record per tag, same length and order, with model id, name and hosted id all equal to the tag |
| FetchModels.OllamaRecords | lib/models/fetch-models.ts:53-65 | the mapping is `undefined` exactly when some tag is `null` (reading its `name` throws); otherwise one record per tag, same length and order |
| FetchModels.AsLlm | lib/models/fetch-models.ts:53-60 | a record is an `LLM` exactly when its tag name is a string, with that string as model id |
| FetchModels.FetchOllamaModels | lib/models/fetch-models.ts:41-66 | undefined exactly for a failed or non-ok response, a `models` that is not a list, or a `null` tag; otherwise one record per tag, in order, whose id, name and hosted id are the tag's `name` (undefined when absent), provider "ollama", the Ollama link and no image input |
| FetchModels.OllamaModelsFromTags | lib/models/fetch-models.ts:53-60 | every tag of a body whose tags have string names becomes the Ollama model of its name |
| FetchModels.NamelessTagKept | lib/models/fetch-models.ts:53-60 | a tag without a `name` still gives a record, with undefined name fields, and does not make the list undefined |
| FetchModels.NullTagFails | lib/models/fetch-models.ts:53-65 | a `null` tag makes the whole call undefined |
| QuickSettings.CollectionFilesOf | components/chat/quick-settings.tsx:71-76 | the files of each collection, collection after collection, with nothing dropped or reordered |
| QuickSettings.CollectionFilesAppend | components/chat/quick-settings.tsx:71-76 | the files of two runs of collections are the files of the first run followed by those of the second |
| QuickSettings.CollectionFilesOne | components/chat/quick-settings.tsx:71-76 | one collection contributes exactly the files the lookup gives for its id |
| QuickSettings.AttachedFiles | components/chat/quick-settings.tsx:64-76 | the assistant's own files followed by its collections' files |
| QuickSettings.GatherFiles | components/chat/quick-settings.tsx:64-76 | the loop builds exactly the assistant's own files followed by each collection's files in order |
| QuickSettings.ToChatFiles | components/chat/quick-settings.tsx:80-87 | one chat file {id, name, type, no file} per file, same length and order |
| QuickSettings.CheckIfModified | components/chat/quick-settings.tsx:120-137 | false without settings or an assistant; otherwise true if and only if one of the six fields differs |
| QuickSettings.ModifiedIffFieldDiffers | components/chat/quick-settings.tsx:120-137 | settings equal to the assistant's are not modified, and changing any one of the six fields makes them so |
| QuickSettings.ModifiedRightAfterSelection | components/chat/quick-settings.tsx:109-137 | right after selection the flag is set exactly when resolution changes the assistant's model |
| QuickSettings.ListedModelNotModified | components/chat/quick-settings.tsx:109-137 | an assistant with a listed model is not shown as modified after selection |
| QuickSettings.FilterAssistants | components/chat/quick-settings.tsx:221-226 | computed only; `FilterAssistantsSpec` and `EmptySearchListsAll` state which assistants it lists |
| QuickSettings.FilterAssistantsSpec | components/chat/quick-settings.tsx:221-226 | an assistant is listed exactly when its lowercased name contains the lowercased search and it is not the selected one |
| QuickSettings.EmptySearchListsAll | components/chat/quick-settings.tsx:221-226 | an empty search with nothing selected lists every assistant in order |
| QuickSettings.AttachedFilesKeepDuplicates | components/chat/quick-settings.tsx:64-76 | a file that both the assistant and one of its collections hold is attached twice |
| QuickSettings.QuickSettingsState.HandleSelectQuickSetting | components/chat/quick-settings.tsx:56-118 | on select: the assistant, tools replaced by its own tools, chat files, show-files only when files exist, and settings with the resolved model and "openai" embeddings; a throwing lookup leaves the assistant selected and loading; "remove" clears and resets to the workspace defaults only when a workspace is selected |
| SidebarDisplayItem.BuildChatRecord | components/sidebar/items/all/sidebar-display-item.tsx:50-63 | the owner is the profile's user or else the assistant's; ids, context length, include flags, prompt and temperature come from the assistant; the model is resolved; the name is "Chat with " + name; embeddings are "openai" |
| SidebarDisplayItem.ChatRecordModel | components/sidebar/items/all/sidebar-display-item.tsx:59 | the new chat's model is the assistant's when listed, otherwise the default |
| SidebarDisplayItem.ChatUrl | components/sidebar/items/all/sidebar-display-item.tsx:70 | the route is "/" + workspace id + "/chat/" + chat id |
| SidebarDisplayItem.IsSystemAssistant | components/sidebar/items/all/sidebar-display-item.tsx:96 | computed only; `IsSystemOnlyTrue` states the values it accepts |
| SidebarDisplayItem.IsSystemOnlyTrue | components/sidebar/items/all/sidebar-display-item.tsx:96 | only the boolean true marks a system assistant; missing, null, false, "true" and 1 do not |
| SidebarDisplayItem.SidebarItemState.AssistantAction | components/sidebar/items/all/sidebar-display-item.tsx:45-74 | without a workspace nothing changes; a created chat is prepended to the chats, the assistant is selected and the chat route is pushed; a failed create changes nothing |
| SidebarDisplayItem.SidebarItemState.Action | components/sidebar/items/all/sidebar-display-item.tsx:39-76 | every content type other than assistants is a no-op; for assistants it is the assistant action: nothing without a workspace or when creating the chat throws, and otherwise the new chat is prepended, the assistant selected and the chat route pushed |
| SidebarDisplayItem.SidebarItemState.HandleClick | components/sidebar/items/all/sidebar-display-item.tsx:96-109 | only a system assistant under assistants runs the action, and a thrown error leaves the state as it was |
| CollectionItem.ToggleFile | components/sidebar/items/collections/collection-item.tsx:43-53 | computed only; `ToggleFlipsMembership`, `ToggleKeepsOthers` and `ToggleTwiceRestores` state its effect |
| CollectionItem.ToggleFlipsMembership | components/sidebar/items/collections/collection-item.tsx:43-53 | after a toggle the file's id is selected exactly when it was not before |
| CollectionItem.ToggleKeepsOthers | components/sidebar/items/collections/collection-item.tsx:43-53 | entries with other ids are kept in order; a new file is appended at the end |
| CollectionItem.ToggleTwiceRestores | components/sidebar/items/collections/collection-item.tsx:43-53 | toggling an unselected file twice restores the original selection |
| CollectionItem.DisplayedSelection | components/sidebar/items/collections/collection-item.tsx:156-174 | computed only; `DisplayedIsSymmetricDifference` and `DisplayedWhenNothingSelected` state what is shown |
| CollectionItem.DisplayedIsSymmetricDifference | components/sidebar/items/collections/collection-item.tsx:156-174 | with a non-empty selection, an id is shown exactly when it is in one of the two lists and not both |
| CollectionItem.DisplayedWhenNothingSelected | components/sidebar/items/collections/collection-item.tsx:156-174 | with nothing selected the starting files are shown unchanged |
| CollectionItem.CollectionChats | components/sidebar/items/collections/collection-item.tsx:56-58 | computed only; `CollectionChatsSpec` states which chats it lists |
| CollectionItem.CollectionChatsSpec | components/sidebar/items/collections/collection-item.tsx:56-58 | exactly the chats of this collection are listed, in their original order |
| CollectionItem.LoadedFiles | components/sidebar/items/collections/collection-item.tsx:72-76 | the loaded files, [] when the field is missing, and [] on a failed load |
| CollectionItem.CollectionItemState.ToggleExpanded | components/sidebar/items/collections/collection-item.tsx:111 | the expanded flag flips and nothing else changes |
| CollectionItem.CollectionItemState.LoadFiles | components/sidebar/items/collections/collection-item.tsx:61-88 | nothing loads while collapsed; a load that returns while mounted clears the loading flag and stores the files; one that returns after unmount is dropped |
| FileItem.NormalizePageCount | components/sidebar/items/files/file-item.tsx:49-53 | the count is present exactly when the text is not blank and parses to a positive integer, and it is that integer |
| FileItem.PageCountRoundTrip | components/sidebar/items/files/file-item.tsx:45-53 | an unedited positive count is stored back as itself; any other stored value becomes null |
| FileItem.TrimmedOrNull | components/sidebar/items/files/file-item.tsx:110-111 | null exactly when the trimmed text is empty, otherwise the trimmed text |
| FileItem.UpdateState | components/sidebar/items/files/file-item.tsx:106-113 | an empty document type becomes null; logline and genre are trimmed or null; the page count is normalised |
| FileItem.SaveUneditedKeepsMetadata | components/sidebar/items/files/file-item.tsx:42-113 | saving without editing writes back the normalised metadata unchanged |
| FileItem.FormatFileSize | components/sidebar/items/files/file-item.tsx:231-251 | "bytes" below 1024, "KB" below 1024², "MB" below 1024³, "GB" otherwise, with the size divided by the unit accordingly |
| FileItem.IsAttachedToChat | components/sidebar/items/files/file-item.tsx:55-57 | computed only; the attach handler `AttachToChat` states its use |
| FileItem.AttachState.AttachToChat | components/sidebar/items/files/file-item.tsx:64-84 | show-files and retrieval are set; an attached file leaves the list unchanged, and otherwise one entry is appended; distinct ids stay distinct |
| CreateFile.NameWithoutExtension | components/sidebar/items/files/create-file.tsx:51-52 | computed only; `NameWithoutExtensionSpec`, `TwoDots` and `NameWithoutExtensionExample` state the name it derives |
| CreateFile.NameWithoutExtensionSpec | components/sidebar/items/files/create-file.tsx:51-52 | with a dot, the name is the derived name, a dot and a dot-free last segment; without a dot the derived name is "" |
| CreateFile.NameWithoutExtensionExample | components/sidebar/items/files/create-file.tsx:51-52 | "a.b.c" gives "a.b" |
| CreateFile.ParsePageCount | components/sidebar/items/files/create-file.tsx:58-60 | null exactly for a blank text, NaN exactly for a non-blank text `parseInt` rejects, and otherwise the parsed integer |
| CreateFile.IsCreateDisabled | components/sidebar/items/files/create-file.tsx:58-62 | computed only; `CreateDisabledIff` and `EnabledCreateHasPositiveCount` state when it holds |
| CreateFile.CreateDisabledIff | components/sidebar/items/files/create-file.tsx:58-62 | create is enabled exactly when a file is selected and the count parses to a positive integer |
| CreateFile.CreateState | components/sidebar/items/files/create-file.tsx:55-82 | the record exists exactly with a profile and a workspace; empty collection and document type become null, logline and genre are trimmed or null, the path is "" and tokens 0, and the size is the file's or 0 |
| CreateFile.EnabledCreateHasPositiveCount | components/sidebar/items/files/create-file.tsx:58-82 | when create is enabled the record's page count is the positive count the file editor would store |
| CreateFile.CreateFileState.HandleSelectedFile | components/sidebar/items/files/create-file.tsx:43-53 | no file list or no first file changes nothing; otherwise the file is selected and the name derived from it |
| PromptItem.OnCheckedChange | components/sidebar/items/prompts/prompt-item.tsx:66-68 | checked writes "public" and unchecked writes "private" |
| PromptItem.SwitchRoundTrip | components/sidebar/items/prompts/prompt-item.tsx:65-68 | the switch is on exactly for "public"; reading and writing back keeps "public" and "private" |
| PromptItem.RenderPrompt | components/sidebar/items/prompts/prompt-item.tsx:23-55 | a read-only prompt (a profile that is not the owner) gets the static "Standard" row; otherwise the editor with payload {name, content, sharing} and a switch only for admins |
| PromptItem.ReadOnlyCases | components/sidebar/items/prompts/prompt-item.tsx:23-44 | without a profile every prompt is editable; an admin viewing another user's prompt gets the read-only row |
| ProfileSettings.ImageFields | components/utility/profile-settings.tsx:111-126 | without an image the URL is kept and the path is ""; with one the path is uploaded and the URL is the uploaded one or the old one |
| ProfileSettings.SavePayload | components/utility/profile-settings.tsx:120-143 | computed only; `SavePayloadFields`, `SavedEntry` and `SavedImagePath` state its fields |
| ProfileSettings.SavePayloadFields | components/utility/profile-settings.tsx:120-143 | each form field reads back as the form holds it, and every other field as the loaded profile holds it |
| ProfileSettings.SavedEntry | components/utility/profile-settings.tsx:120-143 | the payload holds each form entry under its key |
| ProfileSettings.CheckedKeyIsSaved | components/utility/profile-settings.tsx:129-175 | the key the Anthropic step checks is the one the form saved |
| ProfileSettings.SavedImagePath | components/utility/profile-settings.tsx:112-126 | the saved path is the uploaded one, or "" without an image |
| ProfileSettings.SavePayloadCarriesUpdatedAt | components/utility/profile-settings.tsx:120-121 | the payload keeps every column of the loaded row, `updated_at` included, so `updateProfile` as written assigns that column twice and the statement is refused |
| ProfileSettings.AddModels | components/utility/profile-settings.tsx:178-184 | the previous models, then the new models whose ids are not already present, in list order |
| ProfileSettings.AddModelsIdempotent | components/utility/profile-settings.tsx:178-184 | adding the same models twice equals adding them once |
| ProfileSettings.AddModelsKeepsDistinct | components/utility/profile-settings.tsx:178-184 | adding distinct-id models to a distinct-id list keeps the ids distinct |
| ProfileSettings.RemoveModels | components/utility/profile-settings.tsx:186-188 | exactly the previous models that are not in the provider's list, in order |
| ProfileSettings.RemoveAfterAdd | components/utility/profile-settings.tsx:178-188 | removing after adding equals removing alone |
| ProfileSettings.OnlyListedProvidersMatter | components/utility/profile-settings.tsx:171-185 | providers without a model list, and the empty OpenAI list, change nothing |
| ProfileSettings.ApplyProvidersAppend | components/utility/profile-settings.tsx:160-191 | applying the providers in two parts equals applying them all in order |
| ProfileSettings.ApplyProvider | components/utility/profile-settings.tsx:160-191 | one provider's step; computed only, with `OnlyListedProvidersMatter`, `AddModels`, `RemoveModels` and `AnthropicKeySaved` stating it |
| ProfileSettings.ApplyProviders | components/utility/profile-settings.tsx:160-191 | the provider loop; computed only, with `ApplyProvidersStep`, `ApplyProvidersAppend` and `SaveUpdatesOnlyAnthropic` stating it |
| ProfileSettings.ApplyProvidersStep | components/utility/profile-settings.tsx:160-191 | one more provider applies its step to what the providers before it produced |
| ProfileSettings.OnlyAnthropicApplies | components/utility/profile-settings.tsx:160-191 | with the model lists as defined (an empty OpenAI list and the Anthropic list), any provider order in which "anthropic" appears once gives the Anthropic step alone |
| ProfileSettings.ApplyOthersNoop | components/utility/profile-settings.tsx:160-191 | providers other than Anthropic leave the models unchanged |
| ProfileSettings.SaveUpdatesOnlyAnthropic | components/utility/profile-settings.tsx:149-191 | after a save the whole provider loop equals the Anthropic step alone |
| ProfileSettings.AnthropicKeySaved | components/utility/profile-settings.tsx:174-188 | with no server key, a saved Anthropic key puts every Anthropic model in the picker and an empty one removes every one |
| ProfileSettings.ProfileSettingsState.UpdateHostedModels | components/utility/profile-settings.tsx:160-191 | the models become each provider's step applied in order; profile and dialog are unchanged |
| ProfileSettings.SaveHasFields | components/utility/profile-settings.tsx:120-143 | unless `display_name` is left out, the payload always holds columns to set, so the update never fails for having none |
| ProfileSettings.CorrectedSaveAccepted | components/utility/profile-settings.tsx:120-143 | with `updated_at` left out as well, the save's statement has a column to set and assigns each column once, for any loaded row with distinct columns |
| ProfileSettings.PendingPayload | components/utility/profile-settings.tsx:109-143 | none exactly without a profile or after a failed upload; otherwise the spread of the profile and the form, with the uploaded path and URL when an image was chosen |
| ProfileSettings.ProfileSettingsState.FinishSave | components/utility/profile-settings.tsx:143-193 | a failed update changes nothing; a successful one replaces the profile with the returned row, applies every provider's step and closes the dialog |
| ProfileSettings.ProfileSettingsState.HandleSave | components/utility/profile-settings.tsx:109-194 | nothing changes without a profile or after a failed upload; otherwise `updateProfile` as written runs the payload, and a refused statement or an unknown id changes nothing while a run one updates the row, replaces the profile, applies every provider's step and closes the dialog; a loaded profile with `updated_at` therefore never saves |
| ProfileSettings.ProfileSettingsState.HandleSaveCorrected | components/utility/profile-settings.tsx:109-194 | the same handler over the update that leaves `updated_at` out of the fields: the same outcomes, and for a loaded row with distinct columns the statement is always accepted |
| SqlParams.Where | db/profile.ts:37-38 | exactly the rows whose column equals the key, in table order |
| SqlParams.Assignments | db/profile.ts:105 | assignment i is "field = $(i+2)", one per field |
| SqlParams.Params | db/profile.ts:113-115 | the key, then the values |
| SqlParams.UpdateValues | db/profile.ts:106 | one value per field |
| SqlParams.SetClauseEmptyIff | db/profile.ts:105-110 | the clause is empty exactly when there is no field |
| SqlParams.PlaceholderBinds | db/profile.ts:105-115 | assignment i names parameter i + 2, which is the value of field i; parameter 1 is the key |
| SqlParams.OmitKeepsDistinct | db/profile.ts:104 | leaving out keys keeps keys distinct |
| SqlParams.ValuesAligned | db/profile.ts:104-106 | the value at position i is the payload's value under field i, and no excluded key is written |
| SqlParams.ApplyUpdateColumns | db/profile.ts:112-115 | each bound value lands in its field, `updated_at` is the timestamp, and every other column is unchanged |
| SqlParams.UpdateRows | db/profile.ts:112-122 | selected rows are updated and every other row is unchanged, in place |
| ProfileDb.InsertedRow | db/profile.ts:53-98 | the returned row has `id`, `created_at` and `updated_at`, then exactly the 22 named columns in statement order |
| ProfileDb.InsertColumnsDistinct | db/profile.ts:79-95 | the inserted columns are distinct |
| ProfileDb.InsertColumnsOmitGenerated | db/profile.ts:79-95 | none of `id`, `created_at` and `updated_at` is an inserted column, so the returned row names each column once |
| ProfileDb.InsertedRowColumns | db/profile.ts:53-98 | the id is the generated one and the timestamps the table's defaults, whatever the input holds; each inserted column holds the given value or its default ("" for strings, false for the two flags, NULL for the three identity columns); other input fields are not stored |
| ProfileDb.AssignedColumns | db/profile.ts:104-113 | the statement assigns the payload's fields and then `updated_at` |
| ProfileDb.AsWrittenAssignsUpdatedAtTwice | db/profile.ts:104-113 | as written, a payload carrying `updated_at` assigns that column twice |
| ProfileDb.AsWrittenRefusesUpdatedAt | db/profile.ts:104-113 | as written, a payload carrying `updated_at` has fields to set and is still refused |
| ProfileDb.ExcludedAssignsEachOnce | db/profile.ts:104-113 | with `updated_at` excluded too, every column is assigned once |
| ProfileDb.UpdatedRowColumns | db/profile.ts:104-115 | in a statement that assigns each column once, each bound value lands in its field, `updated_at` is the statement's timestamp, and other columns are unchanged |
| ProfileDb.ProfileStore.GetProfileByUserId | db/profile.ts:31-42 | a row exactly when one matches the user id, and it is that user's row; otherwise "Profile not found" |
| ProfileDb.ProfileStore.GetProfilesByUserId | db/profile.ts:44-51 | exactly the user's rows |
| ProfileDb.ProfileStore.CreateProfile | db/profile.ts:53-98 | exactly one row, the inserted row with the generated id and the timestamp defaults, is appended and returned |
| ProfileDb.ProfileStore.UpdateProfile | db/profile.ts:100-123 | as written (only `id` and `created_at` left out): no fields gives "No fields to update", a doubly assigned column the database's refusal, an unknown id "Profile not found", each with the table unchanged; otherwise the selected rows are updated and the first returned; a payload carrying `updated_at` is always refused |
| ProfileDb.ProfileStore.Update | db/profile.ts:100-123 | the same statement for any set of left-out fields: the same three refusals, each with the table unchanged, and otherwise the selected rows updated and the first returned |
| ProfileDb.ProfileStore.DeleteProfile | db/profile.ts:125-136 | an unknown id gives "Profile not found" with the table unchanged; otherwise the selected rows are removed and true is returned |
| ProfileDb.NoFieldsIff | db/profile.ts:104-110 | the update is empty exactly when every payload key is left out |
| ProfileDb.DeleteRemovesOnlySelected | db/profile.ts:126-135 | no row of that id is left, and every other row is kept |
| AuthConfig.First | lib/auth/config.ts:111-124 | the first row, or null for no rows |
| AuthConfig.Username | lib/auth/config.ts:32 | "user" followed by the id's first eight characters |
| AuthConfig.UsernameKeepsOnlyPrefix | lib/auth/config.ts:32 | two ids that agree on their first eight characters get the same username |
| AuthConfig.DisplayName | lib/auth/config.ts:40 | the user's name, or "User" when it is empty or missing |
| AuthConfig.ProvisionedDisplayName | lib/auth/config.ts:35-47 | the new profile's display name is the name or "User" |
| AuthConfig.ProvisionedUsername | lib/auth/config.ts:32-47 | the new profile's username is "user" + the id's first eight characters |
| AuthConfig.ProvisionedOwner | lib/auth/config.ts:35-67 | the profile and the workspace both belong to the new user |
| AuthConfig.ProvisionedNotOnboarded | lib/auth/config.ts:35-47 | the new profile is not onboarded, with empty bio and context |
| AuthConfig.ProvisionedHome | lib/auth/config.ts:50-67 | the workspace is the home "Home", with context length 4096, model "gpt-4-1106-preview", temperature 0.5, "openai" embeddings and both include flags on |
| AuthConfig.HomeWorkspaceModelResolves | lib/auth/config.ts:58 | the home workspace's model is not a listed Claude model, so it resolves to the default |
| AuthConfig.AccountRow | lib/auth/config.ts:143-160 | the account row holds the eleven columns |
| AuthConfig.UserByAccount | lib/auth/config.ts:119-125 | the first user owning an account with that provider key, or none exactly when no such user exists |
| AuthConfig.FirstSessionJoin | lib/auth/config.ts:177-183 | the first session with the token joined with its user; none exactly when no such session has a user |
| AuthConfig.SplitJoined | lib/auth/config.ts:185-189 | the session half is the three session columns, and the user half is everything else of the merged row |
| AuthConfig.SplitJoinedColumns | lib/auth/config.ts:179-189 | the session half reads the session's own columns when the user has none of those names, and every other user column reaches the user half |
| AuthConfig.AttachUserIdSpec | lib/auth/config.ts:79-90 | only `id` can change, and it changes exactly when a user row has the session's email |
| AuthConfig.Jwt | lib/auth/config.ts:92-97 | a signing-in user's id is copied onto the token; otherwise the token is unchanged |
| AuthConfig.AuthStore.Provision | lib/auth/config.ts:19-74 | an existing email inserts nothing; a new one inserts one user, then one profile, then one workspace, stopping at the first failure with no rollback, and succeeds only when all three are inserted |
| AuthConfig.AuthStore.SignIn | lib/auth/config.ts:15-77 | only a Google sign-in provisions; any other returns true and writes nothing |
| AuthConfig.AuthStore.CreateUser | lib/auth/config.ts:101-107 | one user row is appended and returned |
| AuthConfig.AuthStore.GetUser | lib/auth/config.ts:109-112 | the first user with that id, or null exactly when there is none |
| AuthConfig.AuthStore.GetUserByEmail | lib/auth/config.ts:114-117 | the first user with that email, or null exactly when there is none |
| AuthConfig.AuthStore.GetUserByAccount | lib/auth/config.ts:119-125 | a user owning an account with that provider key, or null |
| AuthConfig.AuthStore.UpdateUser | lib/auth/config.ts:127-137 | no field besides `id` is refused with the table unchanged; otherwise the matching users take the fields and the timestamp |
| AuthConfig.AuthStore.DeleteUser | lib/auth/config.ts:139-141 | exactly the users with that id are removed |
| AuthConfig.AuthStore.LinkAccount | lib/auth/config.ts:143-160 | one account row is appended |
| AuthConfig.AuthStore.UnlinkAccount | lib/auth/config.ts:162-167 | exactly the accounts with that provider key are removed |
| AuthConfig.AuthStore.CreateSession | lib/auth/config.ts:169-175 | one session row is appended and returned |
| AuthConfig.AuthStore.GetSessionAndUser | lib/auth/config.ts:177-190 | the split first joined row, or null exactly when no session with the token has a user |
| AuthConfig.AuthStore.UpdateSession | lib/auth/config.ts:192-202 | as for users, keyed by the session token |
| AuthConfig.AuthStore.DeleteSession | lib/auth/config.ts:204-206 | exactly the sessions with that token are removed |
| AuthConfig.AuthStore.CreateVerificationToken | lib/auth/config.ts:208-214 | the token is appended and returned as given |
| AuthConfig.AuthStore.UseVerificationToken | lib/auth/config.ts:216-222 | every matching token is deleted and the first returned, or null |
| AuthConfig.TokenIsSingleUse | lib/auth/config.ts:216-222 | after a use nothing matches the token, so a second use returns null |
| AuthConfig.CreatedTokenIsUsable | lib/auth/config.ts:208-222 | a token just created is returned by its first use |
| AuthConfig.UpdateParamsBind | lib/auth/config.ts:128-199 | parameter 1 is the key and field i is bound to parameter i + 2 with its value |
| SimpleAuthConfig.SignIn | lib/auth/simple-config.ts:14-61 | only Google with an email provisions; an existing email inserts nothing; a new one inserts user, profile and workspace in order, and any failure returns false |
| SimpleAuthConfig.SessionCallback | lib/auth/simple-config.ts:63-75 | the session's user takes the id of the user row with its email, and is otherwise unchanged |
| Http.GivenIff | app/api/admin/assistants/update/route.ts:75-78 | a trimmed string field counts as given exactly when it holds a character that is not whitespace |
| Http.CaughtMessage | app/api/chat/mistral/route.ts:63 | the error's message when it is non-empty, and "An unexpected error occurred" when it is missing |
| Http.CaughtStatus | app/api/chat/mistral/route.ts:64 | the error's status when it is non-zero, and 500 when it is missing |
| AssistantUpdateRoute.PickFromKeys | app/api/admin/assistants/update/route.ts:21-31 | a key is picked exactly when it is allowed and present in the updates |
| AssistantUpdateRoute.PickFromValues | app/api/admin/assistants/update/route.ts:21-31 | picked keys are distinct, and each holds the value the updates hold |
| AssistantUpdateRoute.PickedSpec | app/api/admin/assistants/update/route.ts:6-31 | the picked fields are exactly the allowed keys present, with their values unchanged and no key repeated |
| AssistantUpdateRoute.PickFromIdempotent | app/api/admin/assistants/update/route.ts:21-31 | picking from a picked object changes nothing |
| AssistantUpdateRoute.PickedIdempotent | app/api/admin/assistants/update/route.ts:21-31 | `pickUpdateFields` is idempotent |
| AssistantUpdateRoute.AllowedFieldsDistinct | app/api/admin/assistants/update/route.ts:6-19 | the twelve allowed fields are distinct |
| AssistantUpdateRoute.PickUpdateFields | app/api/admin/assistants/update/route.ts:21-31 | the loop builds exactly the picked fields of the updates |
| AssistantUpdateRoute.ChecksInOrder | app/api/admin/assistants/update/route.ts:42-97 | 401 without a user, 404 for a non-admin, 500 without the Supabase settings, each whatever the later inputs are; once they pass, a body that is not JSON is 400 "Invalid JSON payload." and any other body is decided by the payload checks |
| AssistantUpdateRoute.PayloadChecksInOrder | app/api/admin/assistants/update/route.ts:75-97 | a missing or blank id is 400 "assistantId is required."; with an id, non-object updates are 400 "updates must be an object." and updates with no allowed field 400 "No valid fields provided."; a payload failing these is answered without calling the update |
| AssistantUpdateRoute.Post | app/api/admin/assistants/update/route.ts:33-118 | the handler; computed only, with its outcomes stated by `ChecksInOrder`, `SuccessIff` and `UpdateDecides` |
| AssistantUpdateRoute.PostPayload | app/api/admin/assistants/update/route.ts:74-118 | the handler after the body is parsed; computed only, with its outcomes stated by `PayloadChecksInOrder` and `PostPayloadOutcome` |
| AssistantUpdateRoute.SuccessIff | app/api/admin/assistants/update/route.ts:33-118 | a 200 is given exactly when every check passes (signed in, admin, both configuration values set, JSON body, non-blank id, object updates, at least one allowed field) and the update succeeds |
| AssistantUpdateRoute.UpdateDecides | app/api/admin/assistants/update/route.ts:99-118 | once every check passes, the update runs with the trimmed id and the picked fields: its assistant is a 200 carrying `{ assistant }`, its error a 500 with the error's message |
| AssistantUpdateRoute.PostPayloadOutcome | app/api/admin/assistants/update/route.ts:74-118 | after the body is parsed, an accepted body is answered by the update's result, and any other body is a 400 or a throw (a null body) |
| AssistantUpdateRoute.BlankIdIsMissing | app/api/admin/assistants/update/route.ts:75-82 | a whitespace-only id is refused as missing |
| AssistantUpdateRoute.MissingUpdatesHaveNoFields | app/api/admin/assistants/update/route.ts:76-97 | absent or null updates are {} and give "No valid fields provided." |
| AssistantUpdateRoute.ArrayUpdatesRefused | app/api/admin/assistants/update/route.ts:84-88 | an array of updates is refused even when non-empty |
| VerifyDeletionRoute.GetToken | app/api/admin/verify-deletion/route.ts:4-12 | a non-empty admin header wins; otherwise the Authorization value loses a "Bearer"+whitespace prefix in any case and is trimmed; none without headers |
| VerifyDeletionRoute.StripBearer | app/api/admin/verify-deletion/route.ts:8-11 | computed only; `BearerTokenExtracted` states the token it yields |
| VerifyDeletionRoute.BearerTokenExtracted | app/api/admin/verify-deletion/route.ts:8-11 | a Bearer credential in any letter case and with any whitespace yields the token itself |
| VerifyDeletionRoute.OtherCredentialTrimmed | app/api/admin/verify-deletion/route.ts:8-11 | a value without the scheme is only trimmed |
| VerifyDeletionRoute.GateClosedWithoutToken | app/api/admin/verify-deletion/route.ts:15-20 | no request passes without a configured token, nor without a credential |
| VerifyDeletionRoute.CountAll | app/api/admin/verify-deletion/route.ts:61-158 | counts exist exactly when every count succeeds, with null as 0; otherwise the first failure's message is "table: message" |
| VerifyDeletionRoute.Report | app/api/admin/verify-deletion/route.ts:98-158 | the report's keys are "id" and then the table names, in order |
| VerifyDeletionRoute.StorageOutcome | app/api/admin/verify-deletion/route.ts:74-96 | an empty last segment is "invalid_path" and lists nothing; otherwise the folder is listed and the status is "present" exactly when an entry's name equals the file name, and a listing error is returned |
| VerifyDeletionRoute.StorageStatus | app/api/admin/verify-deletion/route.ts:74-96 | the split, pop and join steps compute the storage outcome |
| VerifyDeletionRoute.InvalidPathIff | app/api/admin/verify-deletion/route.ts:75-81 | the file name is empty exactly when the path is empty or ends with "/" |
| VerifyDeletionRoute.PathSplits | app/api/admin/verify-deletion/route.ts:75-78 | a path with a folder is the folder, "/", and a name with no "/" |
| VerifyDeletionRoute.StoragePresentIff | app/api/admin/verify-deletion/route.ts:91-95 | a listing naming the file exactly makes it present; one that does not makes it missing |
| VerifyDeletionRoute.BuildResult | app/api/admin/verify-deletion/route.ts:98-158 | the result is built stepwise as the verification specifies, or the first failure |
| VerifyDeletionRoute.AddSection | app/api/admin/verify-deletion/route.ts:98-158 | a given id adds its section, and a missing one leaves the result unchanged |
| VerifyDeletionRoute.VerificationKeys | app/api/admin/verify-deletion/route.ts:71-158 | the timestamp comes first, then a section for exactly the given ids, in the order collection, file, storage |
| VerifyDeletionRoute.CountErrorNamed | app/api/admin/verify-deletion/route.ts:67-69 | a failed count's message starts with its table |
| VerifyDeletionRoute.Verification | app/api/admin/verify-deletion/route.ts:61-166 | the report; computed only, with its shape and failures stated by `VerificationKeys`, `VerificationFailsIff` and `VerificationFailsWithMessage` |
| VerifyDeletionRoute.VerificationFailsIff | app/api/admin/verify-deletion/route.ts:98-166 | the verification fails exactly when a query that runs fails |
| VerifyDeletionRoute.VerificationFailsWithMessage | app/api/admin/verify-deletion/route.ts:67-89 | a failure's message is never empty |
| VerifyDeletionRoute.Post | app/api/admin/verify-deletion/route.ts:14-167 | the handler; computed only, with its outcomes stated by `GateFirst`, `BadRequests` and `ReportOrError` |
| VerifyDeletionRoute.GateFirst | app/api/admin/verify-deletion/route.ts:15-20 | without the token the answer is 404 whatever the configuration and body |
| VerifyDeletionRoute.BadRequests | app/api/admin/verify-deletion/route.ts:37-54 | past the gate and the configuration, invalid JSON, or no id after trimming, is a 400 |
| VerifyDeletionRoute.ReportOrError | app/api/admin/verify-deletion/route.ts:98-166 | past the checks the answer is 200 with the report or 500 with the failing query's message |
| MistralRoute.QueryFor | app/api/chat/mistral/route.ts:28-36 | computed only; `QueryIsLastMessage` states the query it builds |
| MistralRoute.QueryIsLastMessage | app/api/chat/mistral/route.ts:28-36 | the retrieval query is the last message's content whatever its role, with no file ids and five sources |
| MistralRoute.AugmentedMessages | app/api/chat/mistral/route.ts:41-47 | the messages as sent, followed by exactly one system message "Retrieved data: " + the contents joined by newlines |
| MistralRoute.ContextListsContents | app/api/chat/mistral/route.ts:45 | single-line contents can be read back from the system message |
| MistralRoute.EmptyRetrieval | app/api/chat/mistral/route.ts:45 | with nothing retrieved the system message is the prefix alone |
| MistralRoute.ErrorText | app/api/chat/mistral/route.ts:62-73 | computed only; `ErrorTextCases`, `MissingKeyBeatsUnauthorized` and `BareErrorIsUnexpected` state its cases |
| MistralRoute.ErrorTextCases | app/api/chat/mistral/route.ts:62-73 | a lowercased "api key not found" gives the not-found text; else status 401 gives the incorrect-key text; else the message passes through |
| MistralRoute.MissingKeyBeatsUnauthorized | app/api/chat/mistral/route.ts:66-71 | a missing-key error is reported as such even with status 401 |
| MistralRoute.BareErrorIsUnexpected | app/api/chat/mistral/route.ts:63-76 | an error without message or status is "An unexpected error occurred" with 500 |
| MistralRoute.Post | app/api/chat/mistral/route.ts:9-78 | a stream is sent exactly when setup succeeded, there is a last message, its retrieval returned, the body has a chat model with an output length and the completion call succeeded; it then streams from the fixed Mistral model with the messages as sent plus the retrieval context |
| MistralRoute.ModelIsFixed | app/api/chat/mistral/route.ts:49-55 | the chosen chat model changes only the output length, never the upstream model |
| MistralRoute.StreamCarriesContext | app/api/chat/mistral/route.ts:28-55 | a streamed request carries the augmented messages of the last message's retrieval |
| MistralRoute.FailuresMapped | app/api/chat/mistral/route.ts:9-77 | in order: a failing setup, an empty conversation, a failing retrieval, a missing chat model or output length, and a failing completion each end in the error response for that error (the runtime's error for the two property reads) |
| PollinationsRoute.ModelFor | app/api/chat/pollinations/route.ts:19-27 | the result is always one of the four upstream names |
| PollinationsRoute.ModelForMatchesList | lib/models/llm/pollinations-llm-list.ts:10-55 | each listed model is sent as its hosted id |
| PollinationsRoute.UnknownModelFallsBack | app/api/chat/pollinations/route.ts:27 | any unlisted id is sent as "openai" |
| PollinationsRoute.FormatMessages | app/api/chat/pollinations/route.ts:30-33 | same length and order, keeping each message's role and content |
| PollinationsRoute.FormatDropsExtraFields | app/api/chat/pollinations/route.ts:30-33 | other fields never reach the upstream |
| PollinationsRoute.LastUserMessage | app/api/chat/pollinations/route.ts:36-38 | none exactly when no message has role "user"; otherwise the last such one |
| PollinationsRoute.LastUserIsFilterPop | app/api/chat/pollinations/route.ts:36-38 | `filter(...).pop()` is the last user message |
| PollinationsRoute.NonUserSuffixIgnored | app/api/chat/pollinations/route.ts:36-38 | messages of other roles after the last user message do not change it |
| PollinationsRoute.LaterRepliesIgnored | app/api/chat/pollinations/route.ts:36-38 | the prompt is the last user message, not the last message |
| PollinationsRoute.ApiUrl | app/api/chat/pollinations/route.ts:45-48 | computed only; `ApiUrlShape` and `PlainPromptKept` state its shape |
| PollinationsRoute.ApiUrlShape | app/api/chat/pollinations/route.ts:45-48 | the URL is the base, the encoded prompt, "?model=", the model and "&stream=true", and the encoded prompt holds no "/", "?", "&" or "#" |
| PollinationsRoute.PlainPromptKept | app/api/chat/pollinations/route.ts:45-48 | a prompt of unreserved characters appears as written |
| PollinationsRoute.Post | app/api/chat/pollinations/route.ts:7-67 | a body without chat settings is the error response for the runtime's error; a stream is proxied only with a chat model and some message of role "user" |
| PollinationsRoute.NoUserMessageFails | app/api/chat/pollinations/route.ts:40-66 | no user message is a 500 "No user message found" before any request |
| PollinationsRoute.UpstreamOutcome | app/api/chat/pollinations/route.ts:45-61 | the request goes to the prompt's URL; a non-ok upstream is a 500 quoting its status and body |
| Middleware.NormalizePath | middleware.ts:8 | the path without its trailing run of "/": a prefix of it, followed only by "/" |
| Middleware.NormalizeIdempotent | middleware.ts:8 | normalising twice equals normalising once |
| Middleware.TrailingSlashesIgnored | middleware.ts:8 | extra trailing slashes do not change the normalised path |
| Middleware.IsDebugPath | middleware.ts:8-10 | computed only; `DebugPathIff` and `DebugPathExamples` state which paths it accepts |
| Middleware.DebugPathIff | middleware.ts:8-10 | a debug path is one whose normalised form is "/debug" or ends with "/debug" |
| Middleware.DebugPathExamples | middleware.ts:8-10 | "/x/debug/" and "/debug" are debug paths; "/mydebug" and "/" are not |
| Middleware.Handle | middleware.ts:6-59 | a debug path while debug is not "true" is 404 before anything else, and only "/" is ever redirected |
| Middleware.DebugEnabledPassesDebugPaths | middleware.ts:7-14 | with debug enabled a debug path is handled like any other |
| Middleware.HomeRedirect | middleware.ts:24-47 | a signed-in "/" goes to "/{id}/chat" of the home workspace, or to "/setup" when it is missing, the query fails or throws |
| Middleware.NoRedirectOtherwise | middleware.ts:50-58 | without a session, or on another path, the session response is returned; a failing session client passes the request on |
| AuthCallback.GivenNext | app/auth/callback/route.ts:34-52 | as written, any non-empty `next` is honoured |
| AuthCallback.LocalNext | app/auth/callback/route.ts:34-52 | only a `next` starting with "/" is honoured |
| AuthCallback.NextCanLeaveOrigin | app/auth/callback/route.ts:50-55 | as written, `next` "@" + h sends the visitor to host h without a code |
| AuthCallback.ExampleLeavesOrigin | app/auth/callback/route.ts:50-55 | "https://app.example" with `next` "@evil.example" redirects to "evil.example" |
| AuthCallback.RedirectStaysOnOrigin | app/auth/callback/route.ts:5-56 | with `next` restricted to paths, every redirect stays on the origin's host |
| AuthCallback.RedirectPath | app/auth/callback/route.ts:5-52 | the path part of the redirect; computed only, with its values stated by `PathIsLocal` and `RedirectStaysOnOrigin` |
| AuthCallback.CallbackAsWritten | app/auth/callback/route.ts:5-56 | the callback as written; computed only, with its open redirect stated by `NextCanLeaveOrigin` and `ExampleLeavesOrigin` |
| AuthCallback.Callback | app/auth/callback/route.ts:5-56 | the callback with `next` restricted to paths; computed only, with its outcomes stated by `NoCodeFallsBack`, `ExchangeFailures`, `SessionOutcomes` and `RedirectStaysOnOrigin` |
| AuthCallback.PathIsLocal | app/auth/callback/route.ts:5-56 | every redirect path is empty or starts with "/" when the honoured `next` does |
| AuthCallback.NoCodeFallsBack | app/auth/callback/route.ts:50-55 | without a code, origin + next, or the origin |
| AuthCallback.ExchangeFailures | app/auth/callback/route.ts:16-47 | an exchange error goes to "/login?message=" + the encoded message; a throw goes there with the fixed message |
| AuthCallback.SessionOutcomes | app/auth/callback/route.ts:23-47 | the home workspace's chat unless `next` is given; "/setup" without a home workspace whatever `next` is; login when the query throws |
| AuthCallback.NoSessionFallsBack | app/auth/callback/route.ts:23-55 | a code with no error and no session gives the no-code redirect |
| AuthCallback.CorrectionOnlyRestrictsNext | app/auth/callback/route.ts:34-52 | the corrected callback differs from the one as written only when `next` does not start with "/" |
| GoogleCloud.ObjectName | lib/storage/google-cloud.ts:25 | computed only; `ObjectNameSplits` states how it splits back |
| GoogleCloud.ObjectNameSplits | lib/storage/google-cloud.ts:25 | an object under a folder splits back into folder and name at the last "/" |
| GoogleCloud.LastPieceOf | lib/storage/google-cloud.ts:83-95 | the text after the last separator is the extension, and what precedes it is the rest |
| GoogleCloud.UploadUrlExpiry | lib/storage/google-cloud.ts:37 | now + 604 800 000 ms |
| GoogleCloud.SignedUrlExpiry | lib/storage/google-cloud.ts:63-68 | now + hours × 3 600 000 ms, with 24 hours by default |
| GoogleCloud.UploadFile | lib/storage/google-cloud.ts:18-50 | on success the file name is the object name, the size the buffer length, the content type echoed and the URL signed for seven days; any SDK failure is "Failed to upload file" |
| GoogleCloud.DeleteFile | lib/storage/google-cloud.ts:52-59 | a failed delete is "Failed to delete file" |
| GoogleCloud.GetSignedUrl | lib/storage/google-cloud.ts:61-76 | the URL for the expiry, or "Failed to generate signed URL" |
| GoogleCloud.Extension | lib/storage/google-cloud.ts:83-95 | computed only; `ExtensionIsLastPart` states the extension it takes |
| GoogleCloud.ExtensionIsLastPart | lib/storage/google-cloud.ts:83-95 | the extension is the text after the last "."; with no "." it is the whole name |
| GoogleCloud.ProfileImageStored | lib/storage/google-cloud.ts:78-87 | a profile image is stored as "profile-images/{userId}-{now}.{ext}" with type "image/jpeg" |
| GoogleCloud.MessageImageStored | lib/storage/google-cloud.ts:89-99 | a message image is stored as "message-images/{userId}/{messageId}-{now}.{ext}" |
| GoogleCloud.DocumentStored | lib/storage/google-cloud.ts:101-111 | a document is stored as "documents/{userId}/{now}-{originalName}" with the caller's type |

## Left out

- I/O: every database query, fetch, Supabase, Google Cloud, OpenAI, Anthropic and Mistral call, and the Next router and response objects, become parameters. Their outcomes (rows, counts, listings, upstream status, thrown errors) are given to the member. `createChat`, `getCollectionFilesByCollectionId`, `CHAT_SETTING_LIMITS`, `i18nRouter` and `checkApiKey` live in modules that are not part of this model, so they are parameters too.
- SQL text: statements are modelled by what they select and write. A join returns rows in table order.
- The adapter methods in lib/auth/config.ts do not model a failing query.
- Concurrency: the `Promise.all` lookups, the `forEach(async …)` loop in the profile form, the mounted-component guard and concurrent first logins are modelled as sequential steps. Among parallel lookups, the first failure in source order wins.
- Floating point: temperatures and costs are `real` values that are only compared. `formatFileSize` is modelled on reals, and its two-decimal rendering is not modelled.
- JavaScript built-ins: `trim`, `toLowerCase`, whitespace and `parseInt` are ASCII models. `encodeURIComponent` percent-encodes the UTF-8 bytes of each character; since a Dafny character is a Unicode scalar value, the `URIError` for a lone surrogate is not modelled. `models.includes(model)` compares by value, not by reference.
- JSON objects with duplicate keys: property access reads the first occurrence.
- PollinationsRoute.ModelFor: keys inherited from `Object.prototype` (such as "constructor") are not modelled. The map is treated as its four own entries.
- MistralRoute.Post: the retrieval fetch of a relative URL is left to the retrieval parameter, and the stream body is not modelled.
- ProfileDb.ProfileStore.Update: PostgreSQL's refusal of a column assigned twice is the fixed text "multiple assignments to same column"; the column name in the database's message is not modelled.
- ProfileDb.InsertedRow: `RETURNING *` is modelled as `id`, `created_at` and `updated_at` followed by the inserted columns. The table's other columns and its column order are not part of this model; the generated id and the two timestamp defaults are parameters.
- ProfileSettings.ProfileSettingsState.HandleSave: the database's timestamp is a parameter, and the `toast`, the `router` and the unawaited `forEach(async …)` are modelled as the sequential steps that follow a successful update.
- MistralRoute.Post: a body without `chatSettings` and one whose `chatSettings` has no `model` are both the `None` chat model; the runtime's error for that property read is the `typeError` parameter, as it is for the missing last message. A body without `messages` and a `request.json()` that fails before the `try` are not modelled.
- PollinationsRoute.Post: the runtime's error for reading `model` of a missing `chatSettings` is the `typeError` parameter. A body without `messages` is not modelled.
- GoogleCloud: the upload reads the clock twice, for the name and for the expiry. These are two separate parameters. `testStorageConnection` only calls the SDK and is not modelled.
- The middleware matcher (middleware.ts:61-63) is routing configuration.
- app/api/command/route.ts and app/api/profile/route.ts are a thin SDK proxy and a single lookup. The connection scripts, lib/database/client.ts, next.config.js and the presentational components have no rules to model.
- JSX rendering, toasts, hotkeys and focus timers are left out. The prompt row is modelled only as which row and which controls are shown.

## Findings

| source | as written | input that shows it | evidently intended | confidence | as-written member | corrected member |
|---|---|---|---|---|---|---|
| db/profile.ts:104-113 with components/utility/profile-settings.tsx:120-121 | `updateProfile` leaves only `id` and `created_at` out of the `SET` clause and always appends `updated_at = CURRENT_TIMESTAMP`, while the profile form spreads the loaded row, `updated_at` included, into the payload | any save from the profile form: the payload holds `updated_at`, so the statement assigns that column twice, which PostgreSQL rejects, and the save never goes through | `updated_at` is left out of the payload fields as well, so each column is assigned once | medium, not executed | ProfileSettings.SavePayloadCarriesUpdatedAt | ProfileSettings.CorrectedSaveAccepted |
| app/auth/callback/route.ts:34-35,51-52 | the redirect is `origin + next` for any non-empty `next` | origin "https://app.example" and `next` "@evil.example" give "https://app.example@evil.example", whose host is evil.example | `next` is honoured only as a path starting with "/", so the redirect stays on the origin | medium, not executed | AuthCallback.NextCanLeaveOrigin | AuthCallback.RedirectStaysOnOrigin |
