# comhra-iced: the `App::update` reducer

comhra-iced is a desktop chat client for a local Ollama server. Its logic is
one message reducer, `App::update`. It holds the prompt being edited, the
selected model, the path of the current conversation file, the turns of the
conversation (each a chat message paired with the markdown render items of
its text), the list of stored conversations and two UI flags. Each message
changes these fields and may return a task. The task delivers further
messages later.

This project models that reducer in Dafny.

- `types.dfy` (module `ChatTypes`) holds the values:
  - chat messages, turns and models;
  - stored documents and directory entries;
  - the sixteen messages;
  - the collaborators the reducer calls (`World`).
- `conversation.dfy` (module `Conversation`) holds the pure parts:
  - the UTF-8 byte split that gives a conversation its title;
  - the path a new conversation gets;
  - the projection of the turns onto their messages, and their reconstruction when a file is loaded;
  - the extension of the last turn by a streamed chunk;
  - the ordered follow-up messages of a submission.
- `listing.dfy` (module `Listing`) holds the newest-first order of the conversation list:
  - a reference insertion sort on sequences;
  - an in-place sort of an array that is proved equal to it.
- `reducer.dfy` (module `Reducer`) is `App::update` as a pure transition `Step` on a `State` value.
  - `Run` applies a message sequence one event at a time.
  - The lemmas state what the transitions promise.
- `app.dfy` (module `Application`) is the object itself.
  - A class `App` with the fields of the source struct.
  - The constructor and `New` for `App::new`.
  - One method per message, each returning its follow-up messages as a `seq<Message>`.
  - The dispatcher `Update`.
  - A driver `Run` that applies a message sequence with a loop.
  - Every method is proved against `Reducer.Step`.
  - The file system is a `Disk` object whose map the save method updates.

The collaborators are parameters (`World`):
- the backend's model list;
- the markdown parser, `parse`, a function on strings;
- the backend stream, `backend`, mapping a request to the chunks of its reply in arrival order, or `None` when the request itself fails;
- the directory listing, `readDir`, mapping the file system to its entries with modification times.

Read failures are paths missing from the file-system map. Decode failures are files holding `Malformed`.

The model follows the code in six places:
- The request sent to the backend includes the empty Assistant turn the submission has just appended.
- There are no error results for an empty prompt or a missing model. A missing model is a precondition, because the code unwraps it.
- When the backend call fails, the chained task yields neither chunks nor a save. Only the two generation toggles are delivered, because `Task::and_then` skips its continuation on an error.
- The title is cut at byte 40 of the UTF-8 text, not at character 40. A prompt whose byte 40 falls inside a character keeps its full text.
- `PathBuf::push` replaces the whole path when the title starts with `/`.
- A file that does not decode empties the turns (`unwrap_or_default`). A file that cannot be read leaves them as they are.

## Model

| member | source | states |
|---|---|---|
| Conversation.SplitAtChecked | src/main.rs:109-112 | When it succeeds, the result is a prefix of the prompt exactly `mid` UTF-8 bytes long. When it fails, no prefix of the prompt is `mid` bytes long (past the end, or inside a character). |
| Conversation.Title | src/main.rs:109-113 | The title is a prefix of the prompt. A prompt of at most 40 bytes is kept whole. When some prefix is exactly 40 bytes, the title is 40 bytes long. When none is, the title is the whole prompt. |
| Conversation.PrefixByteLen | src/main.rs:109-112 | A prefix is no longer in bytes than the string, and a proper prefix is strictly shorter. |
| Conversation.PushPath | src/main.rs:107-114 | An absolute component replaces the path. A relative one is appended to a path ending in a separator. |
| Conversation.ConversationFile | src/main.rs:104-117 | The new path ends in ".json". For a prompt that does not start with '/', it is the conversations directory, then the title, then ".json". For a prompt that starts with '/', the directory is dropped and the path is the title followed by ".json". |
| Conversation.TitleNotEmpty | src/main.rs:109-112 | A non-empty prompt has a non-empty title that starts with the prompt's first character. |
| Conversation.AsciiByteLen | src/main.rs:109 | A string of characters below U+0080 is as many bytes long as it has characters. |
| Conversation.SlashInsidePromptPath | src/main.rs:104-117 | The prompt "1/2?" names the file "2?.json" in a subdirectory "1" of the conversations directory. |
| Conversation.AbsolutePromptPath | src/main.rs:104-117 | The prompt "/etc/x" names the file "/etc/x.json", outside the conversations directory. |
| Conversation.Messages | src/main.rs:135-139 | The projection has one message per turn: the i-th message is the i-th turn's message, with no render items. |
| Conversation.Loaded | src/main.rs:189-196 | A loaded conversation has one turn per stored message. The i-th turn is the i-th message, paired with the parse of its text. |
| Conversation.ReloadRestores | src/main.rs:172-196 | Reconstructing the turns from their own messages gives back the turns themselves, when every turn's items are the parse of its text. |
| Conversation.ExtendLastOnlyLast | src/main.rs:199-206 | A chunk keeps the length and every turn but the last. It keeps the last turn's role, appends the chunk to its text, and re-derives its items from the whole text. |
| Conversation.ExtendTwice | src/main.rs:199-206 | Chunk c1 and then chunk c2 give the same turns as the single chunk c1 + c2. |
| Conversation.ExtendAll | src/main.rs:199-206 | A stream of chunks keeps the number of turns. |
| Conversation.ExtendAllConcat | src/main.rs:199-206 | A non-empty stream applied chunk by chunk equals its concatenation applied once. |
| Conversation.ExtendAllKeepsEarlier | src/main.rs:199-206 | A stream never touches the turns before the last. |
| Conversation.StreamMessages | src/main.rs:150-154 | There is one `HandleStreamResponse` per chunk, in arrival order. |
| Conversation.SubmitFollowUps | src/main.rs:144-165 | The submission task delivers `ToggleIsGenerating` first and last. If the request fails, that is all it delivers. Otherwise it delivers one `HandleStreamResponse` per chunk in order, then `SaveConversation`, then `LoadConversationList` exactly when a path was assigned, then the final toggle. |
| Listing.Paths | src/main.rs:223-226 | There is one path per directory entry, in the same order. |
| Listing.InsertPermutes | src/main.rs:227-234 | Inserting an entry adds exactly that entry. |
| Listing.InsertOrdered | src/main.rs:227-234 | Inserting into a newest-first list keeps it newest first. |
| Listing.NewestFirstPermutes | src/main.rs:223-234 | The sorted list is a permutation of the directory entries. |
| Listing.NewestFirstSorted | src/main.rs:227-234 | The sorted list has non-increasing modification times. |
| Listing.ListingExample | src/main.rs:227-234 | Entries with times 600, 605 and 602 are listed 605, 602, 600. |
| Listing.InsertSplit | src/main.rs:227-234 | The reference insertion puts the entry right after the last entry at least as new as it. |
| Listing.InsertInPlace | src/main.rs:227-234 | Moving element i left into the sorted prefix gives the reference insertion. The rest of the array is unchanged. |
| Listing.SortNewestFirst | src/main.rs:227 | The in-place sort leaves the array equal to the reference newest-first sort of its old contents. |
| Reducer.RunWithAppend | src/main.rs:83-243 | For any transition function, running a + b is running a and then b from where a left off, with the follow-ups concatenated in order. |
| Reducer.RunWithAppendStep | src/main.rs:83-243 | The inductive step of that split: the claim for the tail of a gives the claim for a. |
| Reducer.RunAppend | src/main.rs:83-243 | Running a + b through `App::update` is running a, then b. |
| Reducer.RunCons | src/main.rs:83-243 | Running [m] + rest is one update, then rest. |
| Reducer.RunFirst | src/main.rs:83-243 | A runnable non-empty sequence starts with a ready message, and its run decomposes into that update and the rest. |
| Reducer.RunOne | src/main.rs:83-243 | Running a single message is one update. |
| Reducer.RunStream | src/main.rs:199-206 | The chunk messages of a stream extend the last turn by every chunk in order and change nothing else. |
| Reducer.SubmitAppendsTwo | src/main.rs:118-143 | A submission keeps every earlier turn. It appends a User turn holding the prompt and its items, then an empty Assistant turn with no items. It clears the prompt and changes no other field except the path, which `Reducer.SubmitAssignsPathOnce` gives. The history sent is every turn's message, the empty Assistant turn included. |
| Reducer.SubmitAssignsPathOnce | src/main.rs:103-117 | A session without a path gets the one derived from the prompt. A path that is already set is kept. |
| Reducer.PathStable | src/main.rs:83-243 | No message except `SetConversationFile` and `NewChat` changes a path once it is set. |
| Reducer.ToggleTwiceRun | src/main.rs:144-165 | Two generation toggles in a row, run as a sequence, change nothing. |
| Reducer.ExchangeEnding | src/main.rs:155-165 | After the save, the optional list reload and the final toggle flip generation once. They deliver the new listing exactly when reloading. |
| Reducer.ExchangeTail | src/main.rs:155-165 | The end of a successful exchange saves the session at its path. It flips generation and delivers the listing of the saved file system exactly when the path was new. |
| Reducer.ExchangeStreamed | src/main.rs:144-165 | A successful exchange, after the submission, ends with the streamed turns saved and generation back where it was. |
| Reducer.ChunksAnswer | src/main.rs:127-134 | A non-empty stream of chunks turns the empty Assistant turn into one holding their concatenation and its parse. With no chunks the placeholder stays as it was, with no render items. |
| Reducer.SubmitStep | src/main.rs:102-166 | `SubmitPrompt` leaves the submitted state, writes nothing, and yields the follow-ups of the backend's reply. |
| Reducer.ExchangeAfterSubmit | src/main.rs:144-165 | Running the follow-ups from the submitted state ends with the answer in place of the empty turn. The session is saved only when the request succeeded, and a reload is delivered only when it succeeded and the path was new. |
| Reducer.ExchangeSucceeded | src/main.rs:144-165 | For a request that succeeded, the follow-ups end in the answered session, saved at its path, with the listing delivered exactly when the path was new. |
| Reducer.SubmitExchange | src/main.rs:102-166 | A submission followed by every message its task delivers can always run. Generation ends where it started. The turns are the earlier ones, the User turn and the answer. A successful request saves that session at its path, and a failed one writes nothing. A list reload is delivered exactly when the request succeeded and the path was new. |
| Reducer.TurnsAppendOnly | src/main.rs:83-243 | Apart from loading and starting a new chat, no message removes a turn or changes any turn but the last. The last turn keeps its role, and its text only grows. |
| Reducer.StepKeepsRendered | src/main.rs:83-243 | Every update keeps each turn's render items equal to the parse of its text, except for an empty placeholder turn. |
| Reducer.SaveWritesMessages | src/main.rs:167-182 | Without a path, a save writes nothing. With one, it writes exactly the ordered messages at that path and leaves every other file alone. The state does not change. |
| Reducer.SaveThenLoad | src/main.rs:167-198 | A save followed by a load gives back the same messages, each paired with the parse of its text. It gives back the turns themselves when their items were already those of their text. |
| Reducer.LoadOutcomes | src/main.rs:183-198 | An unreadable file leaves the turns alone, and an undecodable one leaves none. A decodable one yields its messages in order, each with the parse of its text. |
| Reducer.NewChatSavesThenResets | src/main.rs:207-213 | The new-chat button changes nothing and yields [SaveConversation, NewChat]. Running those saves the session and then resets to no path and no turns. |
| Reducer.SelectThenLoad | src/main.rs:89-94 | Choosing a file and then running the load it asks for sets the path. The turns are then unchanged if the file cannot be read, empty if it does not decode, and its messages with their render items otherwise. No other field or file changes. |
| Reducer.StartupOrderIrrelevant | src/main.rs:73-79 | The two startup messages commute. In either order they set the model list and deliver the directory listing, and change nothing else. |
| Reducer.SelectionMessages | src/main.rs:89-101 | Choosing a file sets the path and asks for a load. Choosing none clears the path and asks for nothing. Selecting a model or editing the prompt changes only that field. |
| Reducer.SidebarToggleInvolution | src/main.rs:96 | Toggling the sidebar twice restores the state. |
| Reducer.GeneratingToggleInvolution | src/main.rs:240 | Toggling the generating flag twice restores the state. |
| Reducer.ListingNewestFirst | src/main.rs:214-238 | The list reload changes nothing and delivers the directory's paths as a permutation of its entries, newest first. |
| Application.App.constructor | src/main.rs:59-72 | The fields start as `App::new` sets them: empty prompt, lists and turns, no model, no path, sidebar shown, not generating. |
| Application.App.New | src/main.rs:59-80 | Builds the initial application and the startup batch: the model list and a list reload. The batch starts both at once, and `Reducer.StartupOrderIrrelevant` shows that their order does not matter. |
| Application.App.SetModelsList | src/main.rs:85 | Replaces the model list and nothing else. |
| Application.App.SetConversationsList | src/main.rs:86-88 | Replaces the conversation list and nothing else. |
| Application.App.SetConversationFile | src/main.rs:89-94 | Sets the path, and yields a load exactly when a file was chosen. |
| Application.App.SetModel | src/main.rs:95 | Sets the model and nothing else. |
| Application.App.ToggleSidebar | src/main.rs:96 | Flips the sidebar flag and nothing else. |
| Application.App.UpdatePrompt | src/main.rs:101 | Sets the prompt and nothing else. |
| Application.App.SubmitPrompt | src/main.rs:102-166 | Pushes the two turns in place and leaves the state `Reducer.Submitted` describes. Sends the whole history with the selected model. Returns the follow-ups of the backend's reply. |
| Application.App.SaveConversation | src/main.rs:167-182 | Writes the messages at the current path, if any, and changes only the disk. |
| Application.App.LoadConversation | src/main.rs:183-198 | Replaces the turns as `Reducer.Reloaded` says and changes no other field. |
| Application.App.HandleStreamResponse | src/main.rs:199-206 | Updates the last turn in place as `ExtendLast` says and changes no other field. |
| Application.App.NewChat | src/main.rs:207-210 | Clears the path and the turns. |
| Application.App.NewChatButtonPressed | src/main.rs:211-213 | Yields [SaveConversation, NewChat] and changes nothing. |
| Application.App.LoadConversationList | src/main.rs:214-238 | Sorts the directory entries in an array in place. It yields their paths as a permutation of the entries with non-increasing modification times. |
| Application.App.ToggleIsGenerating | src/main.rs:240 | Flips the generating flag and nothing else. |
| Application.App.Update | src/main.rs:83-243 | Dispatching any ready message leaves the fields, the disk and the follow-ups exactly as `Reducer.Step` gives them. |
| Application.App.Run | src/main.rs:83-243 | Applying a runnable message sequence one event at a time ends in the state, disk and collected follow-ups `Reducer.Run` gives. |

## Left out

- `view`, `theme`, `subscription` and `main` are widget construction and the iced runtime, with no state of their own.
- The `ollama` field is not modelled: the backend is the `World.backend` parameter.
- `list_local_models` and `send_chat_messages_stream` are network calls. They are the `World.models` and `World.backend` parameters.
  - The panics on a stream item that is an error, or has no message, are not modelled.
  - The panic when the model list cannot be fetched is not modelled either.
- `markdown::parse` is a foreign library. It is the `World.parse` function, and render items are an abstract type.
- The JSON encoding is not modelled. A saved file holds the messages themselves, and decoding is assumed to give back what was encoded.
- The `images` field of a chat message is always `None` in the source, so the model leaves it out.
- `fs::write`, `serde_json::to_string` and `fs::read_dir` can fail, and the source then panics. The model treats writes and listings as always succeeding.
  - Ordinary input makes the write fail, in two ways.
  - A '/' in the title names a file in a subdirectory that does not exist, such as "What is 1/2?" (`Conversation.SlashInsidePromptPath` shows the path). The title is the first 40 bytes of the prompt. When byte 40 falls inside a character, the title is the whole prompt, so a '/' anywhere in it counts.
  - A title longer than 255 bytes gives a file name that Linux refuses. A prompt of more than 83 characters that each take three bytes in UTF-8, such as Chinese or Japanese text, has no 40-byte boundary, so the whole prompt becomes the title.
  - The source's save then panics after each such exchange, at src/main.rs:180.
  - For those prompts, the save in `Reducer.SubmitExchange`, `Reducer.ExchangeTail` and `Reducer.SaveWritesMessages` describes the model, not the source.
- `dirs::config_dir` is the constant `ConfigDir`. The panic when it is missing is not modelled.
- `create_dir_all` for the conversations directory is a file-system side effect the model does not track.
- `World.readDir` is any function of the file system. The model does not tie the listed paths to the keys of the file-system map, nor to the conversations directory. So `Reducer.ExchangeTail` and `Reducer.SubmitExchange` do not promise that the reloaded list contains the path just saved.
- `readDir` returns each entry with a single modification time. The source queries each time inside every comparison, and assumes the times do not change during the sort.
- `Listing.SortNewestFirst`: entries with equal times keep their directory order. `sort_unstable_by` may order ties in any way, so this is one of the orders the source may produce.
- `CopyChat` (clipboard) and `LinkClicked` (a log line) are operating-system conveniences. They change no state of the model.
- `Reducer.Ready`: two other panicking `unwrap`s are preconditions, besides the missing model.
  - `chats_list.last_mut().unwrap()` on empty turns (src/main.rs:200) is the requirement of `HandleStreamResponse` that the turns are not empty.
  - `current_conversation.as_ref().unwrap()` (src/main.rs:185) is the requirement of `LoadConversation` that a path is set.
  - The model requires both crashes away, so it does not capture them.
  - The first is reachable in the source, but only through interleaving. New Chat, or choosing an undecodable file, while a reply is streaming empties the turns before the next chunk arrives.
  - `Reducer.SubmitExchange` shows that an exchange run on its own never reaches either crash.
- The iced task runtime and asynchrony are not modelled. A task is the ordered sequence of messages it delivers, and `Run` applies a sequence without interleaving it with other events.
