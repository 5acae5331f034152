/** The records the chat UI works with: rows of the assistants, workspaces,
    files, collections, tools and chats tables, and the chat settings. */
module ChatTypes {
  import opened Wrappers
  import opened JsObject

  /** An assistant row. `isSystem` is the `is_system` column when the row
      has one. */
  datatype Assistant = Assistant(
    id: string, userId: string, name: string, model: string, prompt: string,
    temperature: real, contextLength: int,
    includeProfileContext: bool, includeWorkspaceInstructions: bool,
    isSystem: Option<Value>)

  /** The defaults a workspace row carries for new chats. */
  datatype Workspace = Workspace(
    id: string, defaultModel: string, defaultPrompt: string,
    defaultTemperature: real, defaultContextLength: int,
    includeProfileContext: bool, includeWorkspaceInstructions: bool)

  /** The settings of the chat being composed. */
  datatype ChatSettings = ChatSettings(
    model: string, prompt: string, temperature: real, contextLength: int,
    includeProfileContext: bool, includeWorkspaceInstructions: bool,
    embeddingsProvider: string)

  /** A file row, as far as the chat UI reads it. */
  datatype FileRow = FileRow(id: string, name: string, fileType: string)

  /** A file picked in the browser: its name, size in bytes and MIME type. */
  datatype LocalFile = LocalFile(name: string, size: int, mimeType: string)

  /** A file attached to the chat being composed; `file` is the browser file
      when one was uploaded in this session. */
  datatype ChatFile = ChatFile(id: string, name: string, fileType: string, file: Option<LocalFile>)

  datatype Collection = Collection(id: string, name: string)

  datatype Tool = Tool(id: string, name: string)

  /** A file as the collection editor lists it; the optional columns may be
      missing or null, both written `None`. */
  datatype CollectionFile = CollectionFile(
    id: string, name: string, fileType: string, description: Option<string>,
    size: Option<int>, tokens: Option<int>, documentType: Option<string>,
    logline: Option<string>, genre: Option<string>, pageCount: Option<int>)

  /** A chat row. */
  datatype Chat = Chat(id: string, name: string, collectionId: Option<string>)
}
