/** `App::update` as a pure reducer: the application state as a value, one
    transition per message, and the sequential application of a message
    sequence. The class `App` is proved against these definitions; the
    lemmas here state what the transitions promise. */
module Reducer {
  import opened ChatTypes
  import opened Conversation
  import opened Listing

  /** The fields of `App` this model tracks (the backend client is a
      collaborator, see `World`). */
  datatype State = State(
    prompt: string,
    currentModel: Option<LocalModel>,
    currentConversation: Option<Path>,
    chatsList: seq<Entry>,
    modelsList: seq<LocalModel>,
    conversationsList: seq<Path>,
    showSidebar: bool,
    isGenerating: bool)

  /** What one message, or a sequence of them, leaves behind: the new state,
      the file system, and the follow-up messages the returned task delivers. */
  datatype Effect = Effect(state: State, files: Files, follow: seq<Message>)

  /** The state `App::new` builds. */
  function Initial(): State
  {
    State([], None, None, [], [], [], true, false)
  }

  /** The batch `App::new` starts: the model list and a list reload. The
      batch runs both at once; `StartupOrderIrrelevant` shows that the order
      in which their messages arrive does not matter. */
  function StartupTasks(models: seq<LocalModel>): seq<Message>
  {
    [SetModelsList(models), LoadConversationList]
  }

  /** The message does not hit one of the panicking `unwrap`s: a submission
      needs a selected model, a chunk needs a turn to extend, and a load
      needs a current conversation file. */
  predicate Ready(s: State, msg: Message)
  {
    match msg
    case SubmitPrompt => s.currentModel.Some?
    case HandleStreamResponse(_) => |s.chatsList| > 0
    case LoadConversation => s.currentConversation.Some?
    case _ => true
  }

  /** The User turn a submission appends. */
  function UserTurn(prompt: string, parse: string -> seq<Item>): Entry
  {
    Entry(ChatMessage(User, prompt), parse(prompt))
  }

  /** The Assistant turn a submission appends, before any chunk arrives. */
  function PendingTurn(): Entry
  {
    Entry(ChatMessage(Assistant, []), [])
  }

  /** The state right after `SubmitPrompt`: a path derived from the prompt if
      there was none, the two new turns, and an empty prompt. */
  function Submitted(s: State, parse: string -> seq<Item>): State
  {
    var path := if s.currentConversation.None? then Some(ConversationFile(s.prompt)) else s.currentConversation;
    s.(prompt := [], currentConversation := path,
       chatsList := s.chatsList + [UserTurn(s.prompt, parse), PendingTurn()])
  }

  /** The request `SubmitPrompt` sends: the selected model and every message
      of `chats_list`, including the empty Assistant turn. */
  function Request(s: State, parse: string -> seq<Item>): ChatRequest
    requires s.currentModel.Some?
  {
    ChatRequest(s.currentModel.value.name, Messages(Submitted(s, parse).chatsList))
  }

  /** `SaveConversation`: the messages written at the current path, if any. */
  function Saved(s: State, f: Files): Files
  {
    match s.currentConversation
    case None => f
    case Some(p) => f[p := Conversation(Messages(s.chatsList))]
  }

  /** `LoadConversation`: an unreadable file leaves `chats_list` alone, an
      undecodable one empties it, a decodable one replaces it. */
  function Reloaded(s: State, f: Files, parse: string -> seq<Item>): seq<Entry>
    requires s.currentConversation.Some?
  {
    var p := s.currentConversation.value;
    if p !in f then s.chatsList
    else match f[p]
      case Conversation(ms) => Loaded(ms, parse)
      case Malformed => []
  }

  /** The conversation list `LoadConversationList` delivers. */
  function Listed(f: Files, readDir: Files -> seq<DirEntry>): seq<Path>
  {
    Paths(NewestFirst(readDir(f)))
  }

  /** One call of `App::update`. */
  function Step(s: State, f: Files, msg: Message, w: World): Effect
    requires Ready(s, msg)
  {
    match msg
    case SetModelsList(ms) => Effect(s.(modelsList := ms), f, [])
    case SetConversationsList(ps) => Effect(s.(conversationsList := ps), f, [])
    case SetConversationFile(c) =>
      Effect(s.(currentConversation := c), f, if c.Some? then [LoadConversation] else [])
    case SetModel(m) => Effect(s.(currentModel := m), f, [])
    case ToggleSidebar => Effect(s.(showSidebar := !s.showSidebar), f, [])
    case LinkClicked(_) => Effect(s, f, [])
    case CopyChat(_) => Effect(s, f, [])
    case UpdatePrompt(p) => Effect(s.(prompt := p), f, [])
    case SubmitPrompt =>
      Effect(Submitted(s, w.parse), f,
             SubmitFollowUps(w.backend(Request(s, w.parse)), s.currentConversation.None?))
    case SaveConversation => Effect(s, Saved(s, f), [])
    case LoadConversation => Effect(s.(chatsList := Reloaded(s, f, w.parse)), f, [])
    case HandleStreamResponse(c) => Effect(s.(chatsList := ExtendLast(s.chatsList, c, w.parse)), f, [])
    case NewChat => Effect(s.(currentConversation := None, chatsList := []), f, [])
    case NewChatButtonPressed => Effect(s, f, [SaveConversation, NewChat])
    case LoadConversationList => Effect(s, f, [SetConversationsList(Listed(f, w.readDir))])
    case ToggleIsGenerating => Effect(s.(isGenerating := !s.isGenerating), f, [])
  }

  /** A transition function, with the states and messages it may be applied to. */
  datatype Stepper = Stepper(ready: (State, Message) -> bool, apply: (State, Files, Message) -> Effect)

  /** `Step` with the world fixed (a message that is not ready leaves
      everything as it is; `CanRun` never lets that case happen). */
  function Transition(w: World): Stepper
  {
    Stepper((s: State, m: Message) => Ready(s, m),
            (s: State, f: Files, m: Message) => if Ready(s, m) then Step(s, f, m, w) else Effect(s, f, []))
  }

  /** Every message of the sequence can be taken when its turn comes. */
  predicate CanRunWith(step: Stepper, s: State, f: Files, msgs: seq<Message>)
    decreases |msgs|
  {
    msgs == [] ||
    (step.ready(s, msgs[0]) &&
     var e := step.apply(s, f, msgs[0]);
     CanRunWith(step, e.state, e.files, msgs[1..]))
  }

  /** The messages applied one at a time, in order; the follow-ups they
      produce are collected in order and not applied. */
  function RunWith(step: Stepper, s: State, f: Files, msgs: seq<Message>): Effect
    requires CanRunWith(step, s, f, msgs)
    decreases |msgs|
  {
    if msgs == [] then Effect(s, f, [])
    else
      var e := step.apply(s, f, msgs[0]);
      var r := RunWith(step, e.state, e.files, msgs[1..]);
      Effect(r.state, r.files, e.follow + r.follow)
  }

  /** Running `a + b` is running `a`, then `b` from where `a` left off. */
  lemma {:induction false} RunWithAppend(step: Stepper, s: State, f: Files, a: seq<Message>, b: seq<Message>)
    requires CanRunWith(step, s, f, a)
    requires CanRunWith(step, RunWith(step, s, f, a).state, RunWith(step, s, f, a).files, b)
    ensures CanRunWith(step, s, f, a + b)
    ensures var ra := RunWith(step, s, f, a);
            var rb := RunWith(step, ra.state, ra.files, b);
            RunWith(step, s, f, a + b) == Effect(rb.state, rb.files, ra.follow + rb.follow)
    decreases |a|
  {
    if a == [] {
      assert a + b == b;
    } else {
      var e := step.apply(s, f, a[0]);
      RunWithAppend(step, e.state, e.files, a[1..], b);
      RunWithAppendStep(step, s, f, a, b);
    }
  }

  /** The inductive step of `RunWithAppend`: the claim for the tail of `a`
      gives the claim for `a`. */
  lemma RunWithAppendStep(step: Stepper, s: State, f: Files, a: seq<Message>, b: seq<Message>)
    requires a != [] && CanRunWith(step, s, f, a)
    requires var e := step.apply(s, f, a[0]);
      var ra' := RunWith(step, e.state, e.files, a[1..]);
      CanRunWith(step, ra'.state, ra'.files, b)
      && CanRunWith(step, e.state, e.files, a[1..] + b)
      && RunWith(step, e.state, e.files, a[1..] + b)
         == Effect(RunWith(step, ra'.state, ra'.files, b).state, RunWith(step, ra'.state, ra'.files, b).files,
                   ra'.follow + RunWith(step, ra'.state, ra'.files, b).follow)
    ensures CanRunWith(step, s, f, a + b)
    ensures var ra := RunWith(step, s, f, a);
            CanRunWith(step, ra.state, ra.files, b)
            && var rb := RunWith(step, ra.state, ra.files, b);
               RunWith(step, s, f, a + b) == Effect(rb.state, rb.files, ra.follow + rb.follow)
  {
    var e := step.apply(s, f, a[0]);
    var ra' := RunWith(step, e.state, e.files, a[1..]);
    var rb := RunWith(step, ra'.state, ra'.files, b);
    assert (a + b)[0] == a[0] && (a + b)[1..] == a[1..] + b;
    assert e.follow + (ra'.follow + rb.follow) == (e.follow + ra'.follow) + rb.follow;
  }

  /** Every message of the sequence is ready when its turn comes. */
  predicate CanRun(s: State, f: Files, msgs: seq<Message>, w: World)
  {
    CanRunWith(Transition(w), s, f, msgs)
  }

  /** `App::update` applied to each message in turn. */
  function Run(s: State, f: Files, msgs: seq<Message>, w: World): Effect
    requires CanRun(s, f, msgs, w)
  {
    RunWith(Transition(w), s, f, msgs)
  }

  // ---------------------------------------------------------------------
  // Running sequences.
  // ---------------------------------------------------------------------

  /** Running `a + b` is running `a`, then `b` from where `a` left off. */
  lemma RunAppend(s: State, f: Files, a: seq<Message>, b: seq<Message>, w: World)
    requires CanRun(s, f, a, w)
    requires CanRun(Run(s, f, a, w).state, Run(s, f, a, w).files, b, w)
    ensures CanRun(s, f, a + b, w)
    ensures var ra := Run(s, f, a, w);
            var rb := Run(ra.state, ra.files, b, w);
            Run(s, f, a + b, w) == Effect(rb.state, rb.files, ra.follow + rb.follow)
  {
    RunWithAppend(Transition(w), s, f, a, b);
  }

  /** Running `[m] + rest` is one step, then `rest` from where it left off. */
  lemma RunCons(s: State, f: Files, m: Message, rest: seq<Message>, w: World)
    requires Ready(s, m)
    requires CanRun(Step(s, f, m, w).state, Step(s, f, m, w).files, rest, w)
    ensures CanRun(s, f, [m] + rest, w)
    ensures var e := Step(s, f, m, w);
            var r := Run(e.state, e.files, rest, w);
            Run(s, f, [m] + rest, w) == Effect(r.state, r.files, e.follow + r.follow)
  {
    assert ([m] + rest)[0] == m && ([m] + rest)[1..] == rest;
  }

  /** A non-empty run starts with a step of its first message. */
  lemma RunFirst(s: State, f: Files, msgs: seq<Message>, w: World)
    requires CanRun(s, f, msgs, w) && msgs != []
    ensures Ready(s, msgs[0])
    ensures var e := Step(s, f, msgs[0], w);
            CanRun(e.state, e.files, msgs[1..], w)
            && var r := Run(e.state, e.files, msgs[1..], w);
               Run(s, f, msgs, w) == Effect(r.state, r.files, e.follow + r.follow)
  {
  }

  /** Running one message is one step. */
  lemma RunOne(s: State, f: Files, m: Message, w: World)
    requires Ready(s, m)
    ensures CanRun(s, f, [m], w)
    ensures Run(s, f, [m], w) == Step(s, f, m, w)
  {
    var e := Step(s, f, m, w);
    assert CanRun(e.state, e.files, [], w);
    assert Run(e.state, e.files, [], w) == Effect(e.state, e.files, []);
    RunCons(s, f, m, [], w);
    assert [m] + [] == [m];
    assert e.follow + [] == e.follow;
  }

  /** The chunk messages of a stream extend the last turn by every chunk in
      arrival order, and touch nothing else. */
  lemma {:induction false} RunStream(s: State, f: Files, chunks: seq<string>, w: World)
    requires |s.chatsList| > 0
    ensures CanRun(s, f, StreamMessages(chunks), w)
    ensures Run(s, f, StreamMessages(chunks), w)
         == Effect(s.(chatsList := ExtendAll(s.chatsList, chunks, w.parse)), f, [])
    decreases |chunks|
  {
    var ms := StreamMessages(chunks);
    if chunks != [] {
      assert ms[0] == HandleStreamResponse(chunks[0]);
      assert ms[1..] == StreamMessages(chunks[1..]);
      var e := Step(s, f, ms[0], w);
      RunStream(e.state, f, chunks[1..], w);
    }
  }

  // ---------------------------------------------------------------------
  // SubmitPrompt.
  // ---------------------------------------------------------------------

  /** A submission keeps every earlier turn, then appends a User turn with
      the prompt and its render items and an empty Assistant turn; the prompt
      is cleared, and the history sent is every message, the empty Assistant
      turn included. */
  lemma SubmitAppendsTwo(s: State, w: World)
    requires s.currentModel.Some?
    ensures var t := Submitted(s, w.parse);
      |t.chatsList| == |s.chatsList| + 2
      && t.chatsList[..|s.chatsList|] == s.chatsList
      && t.chatsList[|s.chatsList|] == Entry(ChatMessage(User, s.prompt), w.parse(s.prompt))
      && t.chatsList[|s.chatsList| + 1] == Entry(ChatMessage(Assistant, []), [])
      && t.prompt == []
      && t.(prompt := s.prompt, currentConversation := s.currentConversation, chatsList := s.chatsList) == s
    ensures var h := Request(s, w.parse).history;
      |h| == |s.chatsList| + 2
      && h[..|s.chatsList|] == Messages(s.chatsList)
      && h[|s.chatsList|] == ChatMessage(User, s.prompt)
      && h[|s.chatsList| + 1] == ChatMessage(Assistant, [])
  {
    var t := Submitted(s, w.parse);
    assert t.chatsList[..|s.chatsList|] == s.chatsList;
  }

  /** A session without a path gets the one derived from the prompt; a path
      already set is kept. */
  lemma SubmitAssignsPathOnce(s: State, f: Files, w: World)
    requires s.currentModel.Some?
    ensures var t := Step(s, f, SubmitPrompt, w).state;
      t.currentConversation
        == if s.currentConversation.None? then Some(ConversationFile(s.prompt)) else s.currentConversation
  {
  }

  /** No message other than `SetConversationFile` and `NewChat` changes a
      path once it is set. */
  lemma PathStable(s: State, f: Files, msg: Message, w: World)
    requires Ready(s, msg) && s.currentConversation.Some?
    requires !msg.SetConversationFile? && !msg.NewChat?
    ensures Step(s, f, msg, w).state.currentConversation == s.currentConversation
  {
  }

  /** The turn a reply leaves in place of the empty Assistant turn: the
      joined chunks with their render items, or still empty when nothing
      arrived. */
  function Answer(reply: Option<seq<string>>, parse: string -> seq<Item>): Entry
  {
    match reply
    case Some(chunks) =>
      if chunks == [] then PendingTurn()
      else Entry(ChatMessage(Assistant, Concat(chunks)), parse(Concat(chunks)))
    case None => PendingTurn()
  }

  /** After the save: reload the list if the path was new, then end
      generation. */
  lemma ExchangeEnding(s: State, f: Files, reload: bool, w: World)
    ensures var msgs := (if reload then [LoadConversationList] else []) + [ToggleIsGenerating];
      CanRun(s, f, msgs, w)
      && Run(s, f, msgs, w)
         == Effect(s.(isGenerating := !s.isGenerating), f,
                   if reload then [SetConversationsList(Listed(f, w.readDir))] else [])
  {
    var t := ToggleIsGenerating;
    RunOne(s, f, t, w);
    if reload {
      RunCons(s, f, LoadConversationList, [t], w);
      assert [SetConversationsList(Listed(f, w.readDir))] + [] == [SetConversationsList(Listed(f, w.readDir))];
    } else {
      assert [] + [t] == [t];
    }
  }

  /** The end of a successful exchange: save, reload the list if the path
      was new, and end generation. */
  lemma ExchangeTail(s: State, f: Files, reload: bool, w: World)
    ensures var msgs := [SaveConversation] + ((if reload then [LoadConversationList] else []) + [ToggleIsGenerating]);
      CanRun(s, f, msgs, w)
      && Run(s, f, msgs, w)
         == Effect(s.(isGenerating := !s.isGenerating), Saved(s, f),
                   if reload then [SetConversationsList(Listed(Saved(s, f), w.readDir))] else [])
  {
    var ending := (if reload then [LoadConversationList] else []) + [ToggleIsGenerating];
    ExchangeEnding(s, Saved(s, f), reload, w);
    RunCons(s, f, SaveConversation, ending, w);
    assert [] + Run(s, Saved(s, f), ending, w).follow == Run(s, Saved(s, f), ending, w).follow;
  }

  /** A whole exchange: a submission followed by every message its task
      delivers. Generation is back where it started; the session holds the
      earlier turns, the User turn and the answer; when the request succeeded
      that session is saved at its path, and a list reload is pending exactly
      when the path was new. A failed request saves nothing. */
  lemma SubmitExchange(s: State, f: Files, w: World)
    requires s.currentModel.Some?
    ensures var e := Step(s, f, SubmitPrompt, w);
      CanRun(e.state, e.files, e.follow, w)
    ensures var e := Step(s, f, SubmitPrompt, w);
      var r := Run(e.state, e.files, e.follow, w);
      var reply := w.backend(Request(s, w.parse));
      r.state.isGenerating == s.isGenerating
      && r.state == e.state.(chatsList := s.chatsList + [UserTurn(s.prompt, w.parse), Answer(reply, w.parse)])
      && r.files == (if reply.Some? then Saved(r.state, f) else f)
      && r.follow == (if reply.Some? && s.currentConversation.None?
                      then [SetConversationsList(Listed(r.files, w.readDir))] else [])
  {
    SubmitStep(s, f, w);
    ExchangeAfterSubmit(s, f, w);
  }

  /** The effect of `SubmitPrompt` itself. */
  lemma SubmitStep(s: State, f: Files, w: World)
    requires s.currentModel.Some?
    ensures Step(s, f, SubmitPrompt, w)
         == Effect(Submitted(s, w.parse), f,
                   SubmitFollowUps(w.backend(Request(s, w.parse)), s.currentConversation.None?))
  {
  }

  /** The follow-ups of a submission, run from the state it leaves. */
  lemma ExchangeAfterSubmit(s: State, f: Files, w: World)
    requires s.currentModel.Some?
    ensures var s1, reply := Submitted(s, w.parse), w.backend(Request(s, w.parse));
      var follow := SubmitFollowUps(reply, s.currentConversation.None?);
      CanRun(s1, f, follow, w)
      && var r := Run(s1, f, follow, w);
         r.state == s1.(chatsList := s.chatsList + [UserTurn(s.prompt, w.parse), Answer(reply, w.parse)])
         && r.files == (if reply.Some? then Saved(r.state, f) else f)
         && r.follow == (if reply.Some? && s.currentConversation.None?
                         then [SetConversationsList(Listed(r.files, w.readDir))] else [])
  {
    var s1 := Submitted(s, w.parse);
    var reply := w.backend(Request(s, w.parse));
    var t := ToggleIsGenerating;
    match reply
    case None =>
      assert SubmitFollowUps(reply, s.currentConversation.None?) == [t] + [t];
      ToggleTwiceRun(s1, f, w);
    case Some(chunks) =>
      ExchangeSucceeded(s, f, chunks, w);
  }

  /** The follow-ups of a submission whose request succeeded. */
  lemma ExchangeSucceeded(s: State, f: Files, chunks: seq<string>, w: World)
    requires s.currentModel.Some?
    ensures var s1 := Submitted(s, w.parse);
      var reload := s.currentConversation.None?;
      var follow := SubmitFollowUps(Some(chunks), reload);
      var final := s1.(chatsList := s.chatsList + [UserTurn(s.prompt, w.parse), Answer(Some(chunks), w.parse)]);
      CanRun(s1, f, follow, w)
      && Run(s1, f, follow, w)
         == Effect(final, Saved(final, f),
                   if reload then [SetConversationsList(Listed(Saved(final, f), w.readDir))] else [])
  {
    var s1 := Submitted(s, w.parse);
    var reload := s.currentConversation.None?;
    var t := ToggleIsGenerating;
    var stream := StreamMessages(chunks);
    var ending := [SaveConversation] + ((if reload then [LoadConversationList] else []) + [t]);
    assert SubmitFollowUps(Some(chunks), reload) == [t] + (stream + ending);
    ChunksAnswer(s1, s, chunks, w);
    ExchangeStreamed(s1, f, chunks, reload, w);
  }

  /** Two generation toggles in a row change nothing. */
  lemma ToggleTwiceRun(s: State, f: Files, w: World)
    ensures CanRun(s, f, [ToggleIsGenerating] + [ToggleIsGenerating], w)
    ensures Run(s, f, [ToggleIsGenerating] + [ToggleIsGenerating], w) == Effect(s, f, [])
  {
    var t := ToggleIsGenerating;
    RunOne(s.(isGenerating := !s.isGenerating), f, t, w);
    RunCons(s, f, t, [t], w);
  }

  /** A streamed exchange from the state right after the submission. */
  lemma ExchangeStreamed(s1: State, f: Files, chunks: seq<string>, reload: bool, w: World)
    requires |s1.chatsList| > 0
    ensures var msgs := [ToggleIsGenerating] + (StreamMessages(chunks)
              + ([SaveConversation] + ((if reload then [LoadConversationList] else []) + [ToggleIsGenerating])));
      var s3 := s1.(chatsList := ExtendAll(s1.chatsList, chunks, w.parse));
      CanRun(s1, f, msgs, w)
      && Run(s1, f, msgs, w)
         == Effect(s3, Saved(s3, f),
                   if reload then [SetConversationsList(Listed(Saved(s3, f), w.readDir))] else [])
  {
    var t := ToggleIsGenerating;
    var stream := StreamMessages(chunks);
    var ending := [SaveConversation] + ((if reload then [LoadConversationList] else []) + [t]);
    var s2 := s1.(isGenerating := !s1.isGenerating);
    RunStream(s2, f, chunks, w);
    var s3 := s2.(chatsList := ExtendAll(s1.chatsList, chunks, w.parse));
    ExchangeTail(s3, f, reload, w);
    RunAppend(s2, f, stream, ending, w);
    RunCons(s1, f, t, stream + ending, w);
    assert s3.(isGenerating := !s3.isGenerating) == s1.(chatsList := ExtendAll(s1.chatsList, chunks, w.parse));
  }

  /** The chunks of a reply turn the empty Assistant turn into the answer. */
  lemma ChunksAnswer(s1: State, s: State, chunks: seq<string>, w: World)
    requires s1.chatsList == s.chatsList + [UserTurn(s.prompt, w.parse), PendingTurn()]
    ensures ExtendAll(s1.chatsList, chunks, w.parse)
         == s.chatsList + [UserTurn(s.prompt, w.parse), Answer(Some(chunks), w.parse)]
  {
    if chunks != [] {
      ExtendAllConcat(s1.chatsList, chunks, w.parse);
      assert [] + Concat(chunks) == Concat(chunks);
    }
  }

  // ---------------------------------------------------------------------
  // HandleStreamResponse.
  // ---------------------------------------------------------------------

  /** Turns are append-only: apart from loading and starting a new chat, no
      message removes a turn or changes any turn but the last, and the last
      keeps its role while its text can only grow. */
  lemma TurnsAppendOnly(s: State, f: Files, msg: Message, w: World)
    requires Ready(s, msg) && !msg.LoadConversation? && !msg.NewChat?
    ensures var c, c' := s.chatsList, Step(s, f, msg, w).state.chatsList;
      |c'| >= |c|
      && (|c| > 0 ==>
            c'[..|c| - 1] == c[..|c| - 1]
            && c'[|c| - 1].message.role == c[|c| - 1].message.role
            && c[|c| - 1].message.content <= c'[|c| - 1].message.content)
  {
    var c := s.chatsList;
    if msg.HandleStreamResponse? {
      ExtendLastOnlyLast(c, msg.chunk, w.parse);
    } else if msg.SubmitPrompt? && |c| > 0 {
      assert Step(s, f, msg, w).state.chatsList[..|c|] == c;
    }
  }

  /** Render items stay consistent with the text of every turn: every
      transition keeps `Rendered`. */
  lemma StepKeepsRendered(s: State, f: Files, msg: Message, w: World)
    requires Ready(s, msg) && Rendered(s.chatsList, w.parse)
    ensures Rendered(Step(s, f, msg, w).state.chatsList, w.parse)
  {
  }

  // ---------------------------------------------------------------------
  // Storage.
  // ---------------------------------------------------------------------

  /** Without a path, saving writes nothing; with one, it writes exactly the
      ordered messages at that path and nothing else. The state never changes. */
  lemma SaveWritesMessages(s: State, f: Files, w: World)
    ensures var e := Step(s, f, SaveConversation, w);
      e.state == s && e.follow == []
      && (s.currentConversation.None? ==> e.files == f)
      && (s.currentConversation.Some? ==>
            var p := s.currentConversation.value;
            p in e.files && e.files[p] == Conversation(Messages(s.chatsList))
            && forall q :: q != p ==> (q in e.files <==> q in f) && (q in f ==> e.files[q] == f[q]))
  {
  }

  /** Saving and then loading the same path gives back the same messages,
      each with the render items of its text; the turns themselves come back
      unchanged when their render items were already those of their text. */
  lemma SaveThenLoad(s: State, f: Files, w: World)
    requires s.currentConversation.Some?
    ensures CanRun(s, f, [SaveConversation, LoadConversation], w)
    ensures var r := Run(s, f, [SaveConversation, LoadConversation], w);
      r.files == Saved(s, f) && r.follow == []
      && r.state == s.(chatsList := Loaded(Messages(s.chatsList), w.parse))
      && Messages(r.state.chatsList) == Messages(s.chatsList)
      && ((forall i :: 0 <= i < |s.chatsList| ==> s.chatsList[i].items == w.parse(s.chatsList[i].message.content))
            ==> r.state == s)
  {
    var f1 := Saved(s, f);
    RunOne(s, f1, LoadConversation, w);
    RunOne(s, f, SaveConversation, w);
    RunAppend(s, f, [SaveConversation], [LoadConversation], w);
    assert [SaveConversation] + [LoadConversation] == [SaveConversation, LoadConversation];
    LoadedMessages(Messages(s.chatsList), w.parse);
    if forall i :: 0 <= i < |s.chatsList| ==> s.chatsList[i].items == w.parse(s.chatsList[i].message.content) {
      ReloadRestores(s.chatsList, w.parse);
    }
  }

  /** Loading: an unreadable file leaves the turns alone, an undecodable one
      leaves none, a decodable one yields its messages in order, each with
      the render items of its text. */
  lemma LoadOutcomes(s: State, f: Files, w: World)
    requires s.currentConversation.Some?
    ensures var p, c := s.currentConversation.value, Step(s, f, LoadConversation, w).state.chatsList;
      (p !in f ==> c == s.chatsList)
      && (p in f && f[p].Malformed? ==> c == [])
      && (p in f && f[p].Conversation? ==>
            Messages(c) == f[p].messages
            && forall i :: 0 <= i < |c| ==> c[i].items == w.parse(c[i].message.content))
  {
    var p := s.currentConversation.value;
    if p in f && f[p].Conversation? {
      LoadedMessages(f[p].messages, w.parse);
    }
  }

  // ---------------------------------------------------------------------
  // Session lifecycle.
  // ---------------------------------------------------------------------

  /** The new-chat button changes nothing itself; its follow-ups save the
      session and then reset it to no path and no turns. */
  lemma NewChatSavesThenResets(s: State, f: Files, w: World)
    ensures var e := Step(s, f, NewChatButtonPressed, w);
      e.state == s && e.files == f && e.follow == [SaveConversation, NewChat]
    ensures CanRun(s, f, [SaveConversation, NewChat], w)
    ensures Run(s, f, [SaveConversation, NewChat], w)
         == Effect(s.(currentConversation := None, chatsList := []), Saved(s, f), [])
  {
    RunOne(s, Saved(s, f), NewChat, w);
    RunCons(s, f, SaveConversation, [NewChat], w);
    assert [SaveConversation] + [NewChat] == [SaveConversation, NewChat];
  }

  /** Choosing a conversation file sets the path and asks for it to be
      loaded; choosing none clears the path and asks for nothing. Selecting a
      model or editing the prompt changes only that field. */
  lemma SelectionMessages(s: State, f: Files, w: World, c: Option<Path>, m: Option<LocalModel>, text: string)
    ensures Step(s, f, SetConversationFile(c), w)
         == Effect(s.(currentConversation := c), f, if c.Some? then [LoadConversation] else [])
    ensures Step(s, f, SetModel(m), w) == Effect(s.(currentModel := m), f, [])
    ensures Step(s, f, UpdatePrompt(text), w) == Effect(s.(prompt := text), f, [])
  {
  }

  /** Choosing a file and then loading it, as its follow-up asks, leaves the
      turns as the file says: unchanged when it cannot be read, none when it
      does not decode, and its messages with their render items otherwise. */
  lemma SelectThenLoad(s: State, f: Files, p: Path, w: World)
    ensures CanRun(s, f, [SetConversationFile(Some(p)), LoadConversation], w)
    ensures var r := Run(s, f, [SetConversationFile(Some(p)), LoadConversation], w);
      r.files == f && r.follow == [LoadConversation]
      && r.state.(chatsList := s.chatsList) == s.(currentConversation := Some(p))
      && (p !in f ==> r.state.chatsList == s.chatsList)
      && (p in f && f[p].Malformed? ==> r.state.chatsList == [])
      && (p in f && f[p].Conversation? ==> r.state.chatsList == Loaded(f[p].messages, w.parse))
  {
    var s1 := s.(currentConversation := Some(p));
    RunOne(s1, f, LoadConversation, w);
    RunCons(s, f, SetConversationFile(Some(p)), [LoadConversation], w);
    assert [SetConversationFile(Some(p))] + [LoadConversation] == [SetConversationFile(Some(p)), LoadConversation];
  }

  /** The two startup messages commute: whichever arrives first, the state,
      the files and the follow-ups are the same. */
  lemma StartupOrderIrrelevant(s: State, f: Files, w: World)
    ensures CanRun(s, f, StartupTasks(w.models), w)
    ensures CanRun(s, f, [LoadConversationList, SetModelsList(w.models)], w)
    ensures Run(s, f, StartupTasks(w.models), w) == Run(s, f, [LoadConversationList, SetModelsList(w.models)], w)
    ensures Run(s, f, StartupTasks(w.models), w)
         == Effect(s.(modelsList := w.models), f, [SetConversationsList(Listed(f, w.readDir))])
  {
    var m, l := SetModelsList(w.models), LoadConversationList;
    RunOne(s.(modelsList := w.models), f, l, w);
    RunCons(s, f, m, [l], w);
    RunOne(s, f, m, w);
    RunCons(s, f, l, [m], w);
    assert [m] + [l] == StartupTasks(w.models);
    assert [l] + [m] == [l, m];
  }

  /** Toggling the sidebar twice restores the state. */
  lemma SidebarToggleInvolution(s: State, f: Files, w: World)
    ensures var e := Step(s, f, ToggleSidebar, w);
      Step(e.state, e.files, ToggleSidebar, w) == Effect(s, f, [])
  {
  }

  /** Toggling the generating flag twice restores the state. */
  lemma GeneratingToggleInvolution(s: State, f: Files, w: World)
    ensures var e := Step(s, f, ToggleIsGenerating, w);
      Step(e.state, e.files, ToggleIsGenerating, w) == Effect(s, f, [])
  {
  }

  /** The list reload delivers the directory's paths as a permutation of its
      entries ordered newest first. */
  lemma ListingNewestFirst(s: State, f: Files, w: World)
    ensures var e := Step(s, f, LoadConversationList, w);
      var es := NewestFirst(w.readDir(f));
      e.state == s && e.files == f
      && e.follow == [SetConversationsList(Paths(es))]
      && multiset(es) == multiset(w.readDir(f))
      && NewestFirstOrder(es)
  {
    NewestFirstPermutes(w.readDir(f));
    NewestFirstSorted(w.readDir(f));
  }
}
