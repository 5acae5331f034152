/** The quick-settings menu of the chat screen: selecting an assistant
    attaches its files (its own files, then each linked collection's files),
    replaces the selected tools and takes its chat settings; removing the
    selection falls back to the workspace defaults. */
module QuickSettings {
  import opened Wrappers
  import opened JsText
  import opened Seqs
  import opened ChatTypes
  import opened ModelRegistry

  /** The option picked in the menu. */
  datatype QuickContentType = Assistants | Remove

  /** What the four lookups made on selection return: the assistant's files,
      its collections, the files of a collection (by collection id), and its
      tools. */
  datatype AssistantLookups = AssistantLookups(
    files: seq<FileRow>, collections: seq<Collection>,
    collectionFiles: string -> seq<FileRow>, tools: seq<Tool>)

  /** The files of the given collections, collection after collection. */
  function CollectionFilesOf(collections: seq<Collection>, collectionFiles: string -> seq<FileRow>): (r: seq<FileRow>)
    ensures forall x :: x in r <==> exists i :: 0 <= i < |collections| && x in collectionFiles(collections[i].id)
    decreases |collections|
  {
    if collections == [] then []
    else
      var init := collections[..|collections| - 1];
      var r := CollectionFilesOf(init, collectionFiles) + collectionFiles(collections[|collections| - 1].id);
      assert forall i :: 0 <= i < |init| ==> init[i] == collections[i];
      r
  }

  /** The files of two runs of collections are the files of the first run
      followed by those of the second: nothing is dropped, repeated or
      reordered. */
  lemma {:induction false} CollectionFilesAppend(a: seq<Collection>, b: seq<Collection>,
                                                 collectionFiles: string -> seq<FileRow>)
    ensures CollectionFilesOf(a + b, collectionFiles)
            == CollectionFilesOf(a, collectionFiles) + CollectionFilesOf(b, collectionFiles)
    decreases |b|
  {
    if b == [] {
      assert a + b == a;
    } else {
      var init := b[..|b| - 1];
      assert (a + b)[..|a + b| - 1] == a + init;
      assert (a + b)[|a + b| - 1] == b[|b| - 1];
      CollectionFilesAppend(a, init, collectionFiles);
    }
  }

  /** One collection contributes exactly its own files. */
  lemma {:induction false} CollectionFilesOne(c: Collection, collectionFiles: string -> seq<FileRow>)
    ensures CollectionFilesOf([c], collectionFiles) == collectionFiles(c.id)
  {
    assert [c][..0] == [];
  }

  /** All files attached on selection: the assistant's own files followed by
      the collections' files, duplicates kept. */
  function AttachedFiles(l: AssistantLookups): (r: seq<FileRow>)
    ensures |r| >= |l.files| && r[..|l.files|] == l.files
    ensures forall x :: x in r <==> x in l.files || exists i :: 0 <= i < |l.collections| && x in l.collectionFiles(l.collections[i].id)
  {
    l.files + CollectionFilesOf(l.collections, l.collectionFiles)
  }

  /** The `for` loop over the assistant's collections: their files are
      appended to the assistant's own, collection after collection. */
  method GatherFiles(l: AssistantLookups) returns (allFiles: seq<FileRow>)
    ensures allFiles == AttachedFiles(l)
  {
    allFiles := l.files;
    var i := 0;
    while i < |l.collections|
      invariant 0 <= i <= |l.collections|
      invariant allFiles == l.files + CollectionFilesOf(l.collections[..i], l.collectionFiles)
    {
      allFiles := allFiles + l.collectionFiles(l.collections[i].id);
      assert l.collections[..i + 1][..i] == l.collections[..i];
      i := i + 1;
    }
    assert l.collections[..i] == l.collections;
  }

  /** `files.map(file => ({ id, name, type, file: null }))`. */
  function ToChatFiles(files: seq<FileRow>): (r: seq<ChatFile>)
    ensures |r| == |files|
    ensures forall i :: 0 <= i < |files| ==>
              r[i].id == files[i].id && r[i].name == files[i].name
              && r[i].fileType == files[i].fileType && r[i].file.None?
  {
    seq(|files|, i requires 0 <= i < |files| => ChatFile(files[i].id, files[i].name, files[i].fileType, None))
  }

  /** The settings an assistant brings: its model resolved to a known Claude
      model, five fields copied, and OpenAI embeddings. */
  function SettingsFromAssistant(a: Assistant, defaultModelId: string): ChatSettings {
    ChatSettings(ResolveClaudeModelId(Some(a.model), defaultModelId), a.prompt, a.temperature,
                 a.contextLength, a.includeProfileContext, a.includeWorkspaceInstructions, "openai")
  }

  /** The settings a workspace's defaults give, model resolved likewise. */
  function SettingsFromWorkspace(w: Workspace, defaultModelId: string): ChatSettings {
    ChatSettings(ResolveClaudeModelId(Some(w.defaultModel), defaultModelId), w.defaultPrompt,
                 w.defaultTemperature, w.defaultContextLength, w.includeProfileContext,
                 w.includeWorkspaceInstructions, "openai")
  }

  /** `checkIfModified()`: the chat settings depart from the selected
      assistant in one of the six fields it provides. */
  function CheckIfModified(settings: Option<ChatSettings>, selected: Option<Assistant>): (r: bool)
    ensures settings.None? || selected.None? ==> !r
  {
    if settings.None? then false
    else if selected.Some? then
      var a, s := selected.value, settings.value;
      a.includeProfileContext != s.includeProfileContext
      || a.includeWorkspaceInstructions != s.includeWorkspaceInstructions
      || a.contextLength != s.contextLength
      || a.model != s.model
      || a.prompt != s.prompt
      || a.temperature != s.temperature
    else false
  }

  /** Settings equal to the assistant's own in every field it provides are
      not a modification, and a change to any one of them is. */
  lemma {:induction false} ModifiedIffFieldDiffers(a: Assistant, s: ChatSettings)
    ensures !CheckIfModified(Some(s), Some(a)) <==>
              s == ChatSettings(a.model, a.prompt, a.temperature, a.contextLength,
                                a.includeProfileContext, a.includeWorkspaceInstructions, s.embeddingsProvider)
  {
  }

  /** Right after selecting an assistant, the menu shows "modified" exactly
      when the assistant's stored model is not a known Claude model id that
      resolution keeps. */
  lemma {:induction false} ModifiedRightAfterSelection(a: Assistant, defaultModelId: string)
    ensures CheckIfModified(Some(SettingsFromAssistant(a, defaultModelId)), Some(a))
            <==> ResolveClaudeModelId(Some(a.model), defaultModelId) != a.model
  {
  }

  /** An assistant with a listed model is not shown as modified. */
  lemma {:induction false} ListedModelNotModified(a: Assistant, defaultModelId: string)
    requires a.model in LlmTypes.ModelIds(AnthropicModels.AnthropicLlmList)
    ensures !CheckIfModified(Some(SettingsFromAssistant(a, defaultModelId)), Some(a))
  {
  }

  /** The menu entry filter: the name contains the search text, ignoring
      case, and the entry is not the selected assistant. */
  predicate MatchesSearch(a: Assistant, search: string, selected: Option<Assistant>) {
    Includes(ToLower(a.name), ToLower(search)) && (selected.None? || a.id != selected.value.id)
  }

  function FilterAssistants(items: seq<Assistant>, search: string, selected: Option<Assistant>): seq<Assistant> {
    Filter(items, a => MatchesSearch(a, search, selected))
  }

  /** The listed entries are the matching ones, and the selected assistant is
      never listed. */
  lemma {:induction false} FilterAssistantsSpec(items: seq<Assistant>, search: string, selected: Option<Assistant>)
    ensures forall a :: a in FilterAssistants(items, search, selected) <==> a in items && MatchesSearch(a, search, selected)
    ensures selected.Some? ==> forall a :: a in FilterAssistants(items, search, selected) ==> a.id != selected.value.id
  {
  }

  /** With an empty search and nothing selected, every assistant is listed in
      its original order. */
  lemma {:induction false} EmptySearchListsAll(items: seq<Assistant>)
    ensures FilterAssistants(items, "", None) == items
  {
    forall i | 0 <= i < |items| ensures MatchesSearch(items[i], "", None) {
      assert OccursAt(ToLower(items[i].name), ToLower(""), 0);
    }
    FilterKeepsAll(items, a => MatchesSearch(a, "", None));
  }

  /** Files are not de-duplicated: a file both owned by the assistant and in
      one of its collections is attached twice. */
  lemma {:induction false} AttachedFilesKeepDuplicates()
    ensures var fa := FileRow("a", "A", "pdf");
            var fb := FileRow("b", "B", "pdf");
            var fc := FileRow("c", "C", "txt");
            var l := AssistantLookups([fa, fb], [Collection("k", "K")],
                                      id => if id == "k" then [fb, fc] else [], []);
            AttachedFiles(l) == [fa, fb, fb, fc]
  {
    var fa := FileRow("a", "A", "pdf");
    var fb := FileRow("b", "B", "pdf");
    var fc := FileRow("c", "C", "txt");
    var l := AssistantLookups([fa, fb], [Collection("k", "K")],
                              id => if id == "k" then [fb, fc] else [], []);
    assert [Collection("k", "K")][..0] == [];
    assert CollectionFilesOf(l.collections, l.collectionFiles) == [fb, fc];
  }

  /** The chat-composition state the menu reads and writes. */
  class QuickSettingsState {
    var selectedAssistant: Option<Assistant>
    var chatSettings: Option<ChatSettings>
    var chatFiles: seq<ChatFile>
    var selectedTools: seq<Tool>
    var showFilesDisplay: bool
    var loading: bool
    var selectedWorkspace: Option<Workspace>
    /** The configured default Claude model id. */
    const defaultModelId: string

    constructor(workspace: Option<Workspace>, defaultModelId: string)
      ensures selectedAssistant.None? && chatSettings.None? && chatFiles == [] && selectedTools == []
      ensures !showFilesDisplay && !loading
      ensures selectedWorkspace == workspace && this.defaultModelId == defaultModelId
    {
      selectedAssistant := None;
      chatSettings := None;
      chatFiles := [];
      selectedTools := [];
      showFilesDisplay := false;
      loading := false;
      selectedWorkspace := workspace;
      this.defaultModelId := defaultModelId;
    }

    function IsModified(): bool
      reads this
    {
      CheckIfModified(chatSettings, selectedAssistant)
    }

    /** `handleSelectQuickSetting(item, contentType)`. `lookups` is `None`
        when one of the four lookups throws, which abandons the handler after
        the assistant was selected and loading started. */
    method HandleSelectQuickSetting(item: Option<Assistant>, contentType: QuickContentType,
                                    lookups: Option<AssistantLookups>)
      modifies this
      ensures selectedWorkspace == old(selectedWorkspace)
      ensures contentType == Assistants && item.Some? && lookups.None? ==>
                selectedAssistant == item && loading
                && chatSettings == old(chatSettings) && chatFiles == old(chatFiles)
                && selectedTools == old(selectedTools) && showFilesDisplay == old(showFilesDisplay)
      ensures contentType == Assistants && item.Some? && lookups.Some? ==>
                var files := AttachedFiles(lookups.value);
                selectedAssistant == item && !loading
                && selectedTools == lookups.value.tools
                && chatFiles == ToChatFiles(files)
                && showFilesDisplay == (old(showFilesDisplay) || |files| > 0)
                && chatSettings == Some(SettingsFromAssistant(item.value, defaultModelId))
      ensures !(contentType == Assistants && item.Some?) ==>
                selectedAssistant.None? && chatFiles == [] && selectedTools == []
                && loading == old(loading) && showFilesDisplay == old(showFilesDisplay)
                && chatSettings == (if selectedWorkspace.Some?
                                    then Some(SettingsFromWorkspace(selectedWorkspace.value, defaultModelId))
                                    else old(chatSettings))
    {
      if contentType == Assistants && item.Some? {
        selectedAssistant := item;
        loading := true;
        if lookups.None? {
          return;
        }
        var l := lookups.value;
        var allFiles := GatherFiles(l);
        selectedTools := l.tools;
        chatFiles := ToChatFiles(allFiles);
        if |allFiles| > 0 {
          showFilesDisplay := true;
        }
        loading := false;
        chatSettings := Some(SettingsFromAssistant(item.value, defaultModelId));
      } else {
        selectedAssistant := None;
        chatFiles := [];
        selectedTools := [];
        if selectedWorkspace.Some? {
          chatSettings := Some(SettingsFromWorkspace(selectedWorkspace.value, defaultModelId));
        }
      }
    }
  }
}
