/** Values shared by the conversation controller: chat messages, the render
    items derived from them, storage documents, and the messages that drive
    `App::update`. */
module ChatTypes {

  datatype Option<+T> = None | Some(value: T)

  /** A file system path, as the text of a `PathBuf`. */
  type Path = string

  /** A display block produced by the markdown parser; its structure is not
      modelled. */
  type Item

  datatype Role = User | Assistant | System

  /** The part of an `ollama_rs` chat message this client fills in: the role
      and the raw text (`images` is always `None` here). */
  datatype ChatMessage = ChatMessage(role: Role, content: string)

  /** A model reported by the backend's model listing. */
  datatype LocalModel = LocalModel(name: string, modifiedAt: string, size: nat)

  /** One element of `chats_list`: a message and the render items of its text. */
  datatype Entry = Entry(message: ChatMessage, items: seq<Item>)

  /** What reading a conversation file yields: a decodable JSON array of
      messages, or text that does not decode. */
  datatype Document = Conversation(messages: seq<ChatMessage>) | Malformed

  /** The file system, as far as this client sees it; a path that is not a
      key cannot be read. */
  type Files = map<Path, Document>

  /** A directory entry together with its modification time (`st_mtime`). */
  datatype DirEntry = DirEntry(path: Path, mtime: int)

  /** The request sent to the backend: a model name and the whole history. */
  datatype ChatRequest = ChatRequest(model: string, history: seq<ChatMessage>)

  /** The events `App::update` handles. */
  datatype Message =
    | SetModelsList(models: seq<LocalModel>)
    | SetConversationsList(conversations: seq<Path>)
    | SetConversationFile(file: Option<Path>)
    | SetModel(model: Option<LocalModel>)
    | ToggleSidebar
    | LinkClicked(url: string)
    | CopyChat(text: string)
    | UpdatePrompt(text: string)
    | SubmitPrompt
    | SaveConversation
    | LoadConversation
    | HandleStreamResponse(chunk: string)
    | NewChat
    | NewChatButtonPressed
    | LoadConversationList
    | ToggleIsGenerating

  /** The collaborators the controller calls but does not own:
      - `models`: the backend's list of local models;
      - `parse`: the markdown parser, total and deterministic;
      - `backend`: the streamed reply to a chat request, in arrival order,
        or `None` when the request itself fails;
      - `readDir`: the entries of the conversations directory, with their
        modification times, for a given state of the file system. */
  datatype World = World(
    models: seq<LocalModel>,
    parse: string -> seq<Item>,
    backend: ChatRequest -> Option<seq<string>>,
    readDir: Files -> seq<DirEntry>)
}
