/** A sidebar entry. Clicking a system assistant starts a new chat with it:
    the chat record is built from the assistant and the workspace, created,
    put first in the chat list, and the app navigates to it. Every other
    content type's action does nothing. */
module SidebarDisplayItem {
  import opened Wrappers
  import opened JsText
  import opened JsObject
  import opened ChatTypes
  import opened ModelRegistry

  datatype ContentType = Chats | Presets | Prompts | Files | Collections | Assistants | Tools | Models

  /** The record passed to `createChat`. */
  datatype ChatInsert = ChatInsert(
    userId: string, workspaceId: string, assistantId: string, contextLength: int,
    includeProfileContext: bool, includeWorkspaceInstructions: bool, model: string,
    name: string, prompt: string, temperature: real, embeddingsProvider: string)

  /** The chat record for an assistant in a workspace; `profileUserId` is
      `profile?.user_id`. */
  function BuildChatRecord(profileUserId: Option<string>, a: Assistant, ws: Workspace, defaultModelId: string): (r: ChatInsert)
    ensures r.userId == (if profileUserId.Some? && profileUserId.value != "" then profileUserId.value else a.userId)
    ensures r.workspaceId == ws.id && r.assistantId == a.id
    ensures r.contextLength == a.contextLength && r.prompt == a.prompt && r.temperature == a.temperature
    ensures r.includeProfileContext == a.includeProfileContext
    ensures r.includeWorkspaceInstructions == a.includeWorkspaceInstructions
    ensures r.name == "Chat with " + a.name && r.embeddingsProvider == "openai"
    ensures r.model == ResolveClaudeModelId(Some(a.model), defaultModelId)
  {
    ChatInsert(OrElse(profileUserId, a.userId), ws.id, a.id, a.contextLength,
               a.includeProfileContext, a.includeWorkspaceInstructions,
               ResolveClaudeModelId(Some(a.model), defaultModelId),
               "Chat with " + a.name, a.prompt, a.temperature, "openai")
  }

  /** The new chat's model is the assistant's own when listed, otherwise the
      default. */
  lemma {:induction false} ChatRecordModel(profileUserId: Option<string>, a: Assistant, ws: Workspace, defaultModelId: string)
    ensures var r := BuildChatRecord(profileUserId, a, ws, defaultModelId);
            (a.model in LlmTypes.ModelIds(AnthropicModels.AnthropicLlmList) ==> r.model == a.model)
            && (a.model !in LlmTypes.ModelIds(AnthropicModels.AnthropicLlmList) ==> r.model == defaultModelId)
  {
  }

  /** The route of a chat in a workspace. */
  function ChatUrl(workspaceId: string, chatId: string): (url: string)
    ensures StartsWith(url, "/" + workspaceId + "/chat/") && EndsWith(url, chatId)
  {
    "/" + workspaceId + "/chat/" + chatId
  }

  /** `'is_system' in item && item.is_system === true`. */
  predicate IsSystemAssistant(isSystem: Option<Value>) {
    isSystem == Some(Bool(true))
  }

  /** Only the boolean `true` marks a system assistant: a missing column,
      `null`, `false` or any other truthy value does not. */
  lemma {:induction false} IsSystemOnlyTrue()
    ensures IsSystemAssistant(Some(Bool(true)))
    ensures !IsSystemAssistant(None) && !IsSystemAssistant(Some(Null)) && !IsSystemAssistant(Some(Bool(false)))
    ensures !IsSystemAssistant(Some(Str("true"))) && !IsSystemAssistant(Some(Int(1)))
  {
  }

  /** How an action ended: nothing done, done, or `createChat` threw. */
  datatype ActionOutcome = Skipped | Navigated(url: string) | Threw(message: string)

  /** The sidebar's view of the app state. `history` holds the routes pushed
      to the router. */
  class SidebarItemState {
    var chats: seq<Chat>
    var selectedAssistant: Option<Assistant>
    var history: seq<string>
    const selectedWorkspace: Option<Workspace>
    const profileUserId: Option<string>
    const defaultModelId: string

    constructor(chats: seq<Chat>, workspace: Option<Workspace>, profileUserId: Option<string>, defaultModelId: string)
      ensures this.chats == chats && selectedAssistant.None? && history == []
      ensures selectedWorkspace == workspace && this.profileUserId == profileUserId
      ensures this.defaultModelId == defaultModelId
    {
      this.chats := chats;
      selectedAssistant := None;
      history := [];
      selectedWorkspace := workspace;
      this.profileUserId := profileUserId;
      this.defaultModelId := defaultModelId;
    }

    /** `actionMap.assistants(a)`. `createChat` stands for the database call:
        the created row, or the error it throws. */
    method AssistantAction(a: Assistant, createChat: ChatInsert -> Result<Chat>) returns (outcome: ActionOutcome)
      modifies this
      ensures selectedWorkspace.None? ==> outcome == Skipped && unchanged(this)
      ensures selectedWorkspace.Some? ==>
                var ws := selectedWorkspace.value;
                var created := createChat(BuildChatRecord(profileUserId, a, ws, defaultModelId));
                (created.Err? ==> outcome == Threw(created.message) && unchanged(this))
                && (created.Ok? ==>
                      chats == [created.value] + old(chats)
                      && selectedAssistant == Some(a)
                      && outcome == Navigated(ChatUrl(ws.id, created.value.id))
                      && history == old(history) + [outcome.url])
    {
      if selectedWorkspace.None? {
        return Skipped;
      }
      var ws := selectedWorkspace.value;
      var created := createChat(BuildChatRecord(profileUserId, a, ws, defaultModelId));
      if created.Err? {
        return Threw(created.message);
      }
      var chat := created.value;
      chats := [chat] + chats;
      selectedAssistant := Some(a);
      var url := ChatUrl(ws.id, chat.id);
      history := history + [url];
      return Navigated(url);
    }

    /** `actionMap[contentType](item)`: only assistants have an action. */
    method Action(contentType: ContentType, a: Assistant, createChat: ChatInsert -> Result<Chat>) returns (outcome: ActionOutcome)
      modifies this
      ensures contentType != Assistants ==> outcome == Skipped && unchanged(this)
      ensures contentType == Assistants && selectedWorkspace.None? ==> outcome == Skipped && unchanged(this)
      ensures contentType == Assistants && selectedWorkspace.Some? ==>
                var ws := selectedWorkspace.value;
                var created := createChat(BuildChatRecord(profileUserId, a, ws, defaultModelId));
                (created.Err? ==> outcome == Threw(created.message) && unchanged(this))
                && (created.Ok? ==>
                      chats == [created.value] + old(chats)
                      && selectedAssistant == Some(a)
                      && outcome == Navigated(ChatUrl(ws.id, created.value.id))
                      && history == old(history) + [outcome.url])
    {
      if contentType == Assistants {
        outcome := AssistantAction(a, createChat);
      } else {
        outcome := Skipped;
      }
    }

    /** `handleClick()`: runs the action for a system assistant listed under
        assistants, and swallows what it throws (the state is then as
        before). */
    method HandleClick(contentType: ContentType, a: Assistant, createChat: ChatInsert -> Result<Chat>)
      modifies this
      ensures !(IsSystemAssistant(a.isSystem) && contentType == Assistants) ==> unchanged(this)
      ensures IsSystemAssistant(a.isSystem) && contentType == Assistants && selectedWorkspace.Some?
              && createChat(BuildChatRecord(profileUserId, a, selectedWorkspace.value, defaultModelId)).Ok? ==>
                var chat := createChat(BuildChatRecord(profileUserId, a, selectedWorkspace.value, defaultModelId)).value;
                chats == [chat] + old(chats) && selectedAssistant == Some(a)
                && history == old(history) + [ChatUrl(selectedWorkspace.value.id, chat.id)]
      ensures selectedWorkspace.None? ==> unchanged(this)
      ensures (selectedWorkspace.Some?
               && createChat(BuildChatRecord(profileUserId, a, selectedWorkspace.value, defaultModelId)).Err?)
              ==> unchanged(this)
    {
      if IsSystemAssistant(a.isSystem) && contentType == Assistants {
        var outcome := AssistantAction(a, createChat);
      }
    }
  }
}
