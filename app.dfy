/** The application object of the chat client: its fields, `App::new`, one
    method per message of `App::update`, the dispatcher, and a driver that
    applies a message sequence one event at a time. Every method is proved
    against the reducer in module `Reducer`. */
module Application {
  import opened ChatTypes
  import opened Conversation
  import opened Listing
  import R = Reducer

  /** The file system the client writes conversations to and reads them from. */
  class Disk {
    var files: Files

    constructor (files: Files)
      ensures this.files == files
    {
      this.files := files;
    }
  }

  class App {
    /** The collaborators: markdown parser, backend and directory reader. */
    const world: World

    var prompt: string
    var currentModel: Option<LocalModel>
    var currentConversation: Option<Path>
    var chatsList: seq<Entry>
    var modelsList: seq<LocalModel>
    var conversationsList: seq<Path>
    var showSidebar: bool
    var isGenerating: bool

    /** The fields as a reducer state. */
    function Snapshot(): R.State
      reads this
    {
      R.State(prompt, currentModel, currentConversation, chatsList,
              modelsList, conversationsList, showSidebar, isGenerating)
    }

    /** The state `App::new` builds. */
    constructor (world: World)
      ensures this.world == world
      ensures Snapshot() == R.Initial()
    {
      this.world := world;
      prompt := [];
      currentModel := None;
      currentConversation := None;
      chatsList := [];
      modelsList := [];
      conversationsList := [];
      showSidebar := true;
      isGenerating := false;
    }

    /** `App::new`: the initial application and the batch it starts, which
        delivers the backend's model list and asks for the conversation list. */
    static method New(world: World) returns (app: App, tasks: seq<Message>)
      ensures fresh(app) && app.world == world && app.Snapshot() == R.Initial()
      ensures tasks == R.StartupTasks(world.models)
    {
      app := new App(world);
      tasks := [Message.SetModelsList(world.models), Message.LoadConversationList];
    }

    method SetModelsList(models: seq<LocalModel>) returns (follow: seq<Message>)
      modifies this
      ensures Snapshot() == old(Snapshot()).(modelsList := models) && follow == []
    {
      modelsList := models;
      follow := [];
    }

    method SetConversationsList(conversations: seq<Path>) returns (follow: seq<Message>)
      modifies this
      ensures Snapshot() == old(Snapshot()).(conversationsList := conversations) && follow == []
    {
      conversationsList := conversations;
      follow := [];
    }

    /** Selecting a conversation file, or none; a selected file is loaded next. */
    method SetConversationFile(conversation: Option<Path>) returns (follow: seq<Message>)
      modifies this
      ensures Snapshot() == old(Snapshot()).(currentConversation := conversation)
      ensures follow == if conversation.Some? then [Message.LoadConversation] else []
    {
      currentConversation := conversation;
      follow := if conversation.Some? then [Message.LoadConversation] else [];
    }

    method SetModel(model: Option<LocalModel>) returns (follow: seq<Message>)
      modifies this
      ensures Snapshot() == old(Snapshot()).(currentModel := model) && follow == []
    {
      currentModel := model;
      follow := [];
    }

    method ToggleSidebar() returns (follow: seq<Message>)
      modifies this
      ensures Snapshot() == old(Snapshot()).(showSidebar := !old(showSidebar)) && follow == []
    {
      showSidebar := !showSidebar;
      follow := [];
    }

    method UpdatePrompt(text: string) returns (follow: seq<Message>)
      modifies this
      ensures Snapshot() == old(Snapshot()).(prompt := text) && follow == []
    {
      prompt := text;
      follow := [];
    }

    /** Submitting the prompt: a conversation path is derived once, a User
        turn and an empty Assistant turn are pushed, the whole history goes to
        the backend, the prompt is cleared, and the returned task delivers
        the generation toggles around the streamed reply. */
    method SubmitPrompt() returns (request: ChatRequest, follow: seq<Message>)
      requires currentModel.Some?
      modifies this
      ensures Snapshot() == R.Submitted(old(Snapshot()), world.parse)
      ensures request == R.Request(old(Snapshot()), world.parse)
      ensures follow == SubmitFollowUps(world.backend(request), old(currentConversation).None?)
    {
      var reloadConversationList := false;
      if currentConversation.None? {
        currentConversation := Some(ConversationFile(prompt));
        reloadConversationList := true;
      }
      var markdownItems := world.parse(prompt);
      chatsList := chatsList + [Entry(ChatMessage(User, prompt), markdownItems)];
      chatsList := chatsList + [Entry(ChatMessage(Assistant, []), [])];
      var conversation := Messages(chatsList);
      request := ChatRequest(currentModel.value.name, conversation);
      prompt := [];
      var reply := world.backend(request);
      follow := SubmitFollowUps(reply, reloadConversationList);
    }

    /** Writing the messages of `chats_list` to the current path, if any. */
    method SaveConversation(disk: Disk) returns (follow: seq<Message>)
      modifies disk
      ensures disk.files == R.Saved(Snapshot(), old(disk.files)) && follow == []
    {
      if currentConversation.Some? {
        disk.files := disk.files[currentConversation.value := Conversation(Messages(chatsList))];
      }
      follow := [];
    }

    /** Reading the current path back into `chats_list`. */
    method LoadConversation(disk: Disk) returns (follow: seq<Message>)
      requires currentConversation.Some?
      modifies this
      ensures Snapshot() == old(Snapshot()).(chatsList := R.Reloaded(old(Snapshot()), disk.files, world.parse))
      ensures follow == []
    {
      var path := currentConversation.value;
      if path in disk.files {
        var conversation := match disk.files[path]
          case Conversation(ms) => ms
          case Malformed => [];
        chatsList := Loaded(conversation, world.parse);
      }
      follow := [];
    }

    /** Appending a streamed chunk to the last turn and re-deriving its
        render items from the whole text. */
    method HandleStreamResponse(chunk: string) returns (follow: seq<Message>)
      requires |chatsList| > 0
      modifies this
      ensures Snapshot() == old(Snapshot()).(chatsList := ExtendLast(old(chatsList), chunk, world.parse))
      ensures follow == []
    {
      var last := chatsList[|chatsList| - 1];
      var content := last.message.content + chunk;
      var markdownItems := world.parse(content);
      chatsList := chatsList[|chatsList| - 1 := Entry(last.message.(content := content), markdownItems)];
      follow := [];
    }

    method NewChat() returns (follow: seq<Message>)
      modifies this
      ensures Snapshot() == old(Snapshot()).(currentConversation := None, chatsList := [])
      ensures follow == []
    {
      currentConversation := None;
      chatsList := [];
      follow := [];
    }

    /** The new-chat button: save first, then start a new chat. */
    method NewChatButtonPressed() returns (follow: seq<Message>)
      ensures follow == [Message.SaveConversation, Message.NewChat]
    {
      follow := [Message.SaveConversation, Message.NewChat];
    }

    /** Listing the conversations directory, newest first. */
    method LoadConversationList(disk: Disk) returns (follow: seq<Message>)
      ensures |follow| == 1 && follow[0].SetConversationsList?
      ensures var es := NewestFirst(world.readDir(disk.files));
              follow[0].conversations == Paths(es)
              && multiset(es) == multiset(world.readDir(disk.files))
              && NewestFirstOrder(es)
    {
      var entries := world.readDir(disk.files);
      var conversationsList := new DirEntry[|entries|](i requires 0 <= i < |entries| => entries[i]);
      assert conversationsList[..] == entries;
      SortNewestFirst(conversationsList);
      NewestFirstPermutes(entries);
      NewestFirstSorted(entries);
      follow := [Message.SetConversationsList(Paths(conversationsList[..]))];
    }

    method ToggleIsGenerating() returns (follow: seq<Message>)
      modifies this
      ensures Snapshot() == old(Snapshot()).(isGenerating := !old(isGenerating)) && follow == []
    {
      isGenerating := !isGenerating;
      follow := [];
    }

    /** `App::update`: one message, dispatched to its handler. */
    method Update(msg: Message, disk: Disk) returns (follow: seq<Message>)
      requires R.Ready(Snapshot(), msg)
      modifies this, disk
      ensures R.Effect(Snapshot(), disk.files, follow) == R.Step(old(Snapshot()), old(disk.files), msg, world)
    {
      match msg {
        case SetModelsList(ms) => follow := SetModelsList(ms);
        case SetConversationsList(ps) => follow := SetConversationsList(ps);
        case SetConversationFile(c) => follow := SetConversationFile(c);
        case SetModel(m) => follow := SetModel(m);
        case ToggleSidebar => follow := ToggleSidebar();
        case LinkClicked(_) => follow := [];
        case CopyChat(_) => follow := [];
        case UpdatePrompt(text) => follow := UpdatePrompt(text);
        case SubmitPrompt =>
          var request;
          request, follow := SubmitPrompt();
        case SaveConversation => follow := SaveConversation(disk);
        case LoadConversation => follow := LoadConversation(disk);
        case HandleStreamResponse(chunk) => follow := HandleStreamResponse(chunk);
        case NewChat => follow := NewChat();
        case NewChatButtonPressed => follow := NewChatButtonPressed();
        case LoadConversationList => follow := LoadConversationList(disk);
        case ToggleIsGenerating => follow := ToggleIsGenerating();
      }
    }

    /** Applies the messages one event at a time, in order, and returns the
        follow-ups they produced, in order. */
    method Run(msgs: seq<Message>, disk: Disk) returns (follow: seq<Message>)
      requires R.CanRun(Snapshot(), disk.files, msgs, world)
      modifies this, disk
      ensures R.Effect(Snapshot(), disk.files, follow) == R.Run(old(Snapshot()), old(disk.files), msgs, world)
    {
      follow := [];
      var i := 0;
      while i < |msgs|
        invariant 0 <= i <= |msgs|
        invariant R.CanRun(Snapshot(), disk.files, msgs[i..], world)
        invariant var rest := R.Run(Snapshot(), disk.files, msgs[i..], world);
          R.Run(old(Snapshot()), old(disk.files), msgs, world) == R.Effect(rest.state, rest.files, follow + rest.follow)
      {
        ghost var before, filesBefore := Snapshot(), disk.files;
        R.RunFirst(before, filesBefore, msgs[i..], world);
        assert msgs[i..][0] == msgs[i] && msgs[i..][1..] == msgs[i + 1..];
        ghost var rest := R.Run(before, filesBefore, msgs[i..], world);
        var more := Update(msgs[i], disk);
        ghost var rest' := R.Run(Snapshot(), disk.files, msgs[i + 1..], world);
        assert rest == R.Effect(rest'.state, rest'.files, more + rest'.follow);
        assert follow + rest.follow == (follow + more) + rest'.follow;
        follow := follow + more;
        i := i + 1;
      }
    }
  }
}
