/** The side-effect-free parts of `App::update`: the conversation file name
    derived from a prompt, the projection of `chats_list` onto its messages,
    the reconstruction of `chats_list` from stored messages, the in-place
    extension of the last turn by a streamed chunk, and the order of the
    follow-up messages a submission produces. */
module Conversation {
  import opened ChatTypes

  // ---------------------------------------------------------------------
  // Byte lengths: Rust strings are UTF-8, Dafny strings are sequences of
  // Unicode scalar values.
  // ---------------------------------------------------------------------

  /** Number of bytes of `c` in UTF-8. */
  function Utf8Width(c: char): (n: nat)
    ensures 1 <= n <= 4
  {
    if c as int < 0x80 then 1
    else if c as int < 0x800 then 2
    else if c as int < 0x1_0000 then 3
    else 4
  }

  /** Number of bytes of `s` in UTF-8 (Rust's `str::len`). */
  function ByteLen(s: string): nat
  {
    if s == [] then 0 else Utf8Width(s[0]) + ByteLen(s[1..])
  }

  /** Rust's `str::split_at_checked(mid)`, keeping the left part: the prefix
      of `s` that is exactly `mid` bytes long, or `None` when byte `mid` is
      past the end or falls inside a character. */
  function SplitAtChecked(s: string, mid: nat): (r: Option<string>)
    ensures r.Some? ==> r.value <= s && ByteLen(r.value) == mid
    ensures r.None? ==> forall k :: 0 <= k <= |s| ==> ByteLen(s[..k]) != mid
  {
    if mid == 0 then Some([])
    else if s == [] then None
    else if Utf8Width(s[0]) > mid then
      assert forall k :: 1 <= k <= |s| ==> ByteLen(s[..k]) >= Utf8Width(s[0]) by {
        forall k | 1 <= k <= |s| ensures ByteLen(s[..k]) >= Utf8Width(s[0]) {
          assert s[..k][0] == s[0];
        }
      }
      None
    else
      match SplitAtChecked(s[1..], mid - Utf8Width(s[0]))
      case Some(p) =>
        assert ([s[0]] + p)[1..] == p;
        Some([s[0]] + p)
      case None =>
        assert forall k :: 1 <= k <= |s| ==> ByteLen(s[..k]) == Utf8Width(s[0]) + ByteLen(s[1..][..k - 1]) by {
          forall k | 1 <= k <= |s|
            ensures ByteLen(s[..k]) == Utf8Width(s[0]) + ByteLen(s[1..][..k - 1])
          {
            assert s[..k][1..] == s[1..][..k - 1];
          }
        }
        None
  }

  // ---------------------------------------------------------------------
  // The conversation file of a new session.
  // ---------------------------------------------------------------------

  /** Number of prompt bytes kept in a conversation title. */
  const TitleBytes: nat := 40

  /** Stand-in for `dirs::config_dir()`, the user's configuration directory. */
  const ConfigDir: Path := "/home/user/.config/"

  /** The directory conversation files live in. */
  const ConversationsDir: Path := ConfigDir + "github.com.leo030303.comhra/conversations/"

  /** `PathBuf::push`: an absolute component replaces the path; a relative
      one is appended after a separator. */
  function PushPath(base: Path, component: string): (p: Path)
    ensures |component| > 0 && component[0] == '/' ==> p == component
    ensures ((|component| == 0 || component[0] != '/') && |base| > 0 && base[|base| - 1] == '/')
      ==> p == base + component
  {
    if |component| > 0 && component[0] == '/' then component
    else if |base| == 0 || base[|base| - 1] == '/' then base + component
    else base + "/" + component
  }

  /** The title of a conversation: the first `TitleBytes` bytes of the prompt
      when they end on a character boundary, else the whole prompt. */
  function Title(prompt: string): (t: string)
    ensures t <= prompt
    ensures ByteLen(prompt) <= TitleBytes ==> t == prompt
    ensures (exists k :: 0 <= k <= |prompt| && ByteLen(prompt[..k]) == TitleBytes) ==> ByteLen(t) == TitleBytes
    ensures (forall k :: 0 <= k <= |prompt| ==> ByteLen(prompt[..k]) != TitleBytes) ==> t == prompt
  {
    match SplitAtChecked(prompt, TitleBytes)
    case Some(t) =>
      assert prompt[..|t|] == t;
      if ByteLen(prompt) <= TitleBytes then
        PrefixByteLen(prompt, |t|);
        assert t == prompt;
        t
      else t
    case None => prompt
  }

  /** A proper prefix is strictly shorter in bytes. */
  lemma {:induction false} PrefixByteLen(s: string, k: nat)
    requires k <= |s|
    ensures ByteLen(s[..k]) <= ByteLen(s)
    ensures k < |s| ==> ByteLen(s[..k]) < ByteLen(s)
  {
    if k > 0 {
      assert s[..k][1..] == s[1..][..k - 1];
      PrefixByteLen(s[1..], k - 1);
    }
  }

  /** The path `SubmitPrompt` assigns to a session that has none: the
      conversations directory, then the title followed by ".json". */
  function ConversationFile(prompt: string): (p: Path)
    ensures |p| >= 5 && p[|p| - 5..] == ".json"
    ensures (|prompt| == 0 || prompt[0] != '/') ==> p == ConversationsDir + Title(prompt) + ".json"
    ensures |prompt| > 0 && prompt[0] == '/' ==> p == Title(prompt) + ".json"
  {
    var name := Title(prompt) + ".json";
    var p := PushPath(ConversationsDir, name);
    assert |p| >= 5 && p[|p| - 5..] == ".json" by {
      if p == name {
      } else {
        assert p == ConversationsDir + name;
        assert p[|p| - 5..] == name[|name| - 5..];
      }
    }
    TitleNotEmpty(prompt);
    assert |Title(prompt)| > 0 ==> name[0] == Title(prompt)[0] == prompt[0];
    p
  }

  /** A non-empty prompt has a non-empty title, so the title starts with the
      prompt's first character. */
  lemma TitleNotEmpty(prompt: string)
    ensures |prompt| > 0 ==> |Title(prompt)| > 0 && Title(prompt)[0] == prompt[0]
  {
    var t := Title(prompt);
    if |prompt| > 0 && t != prompt {
      assert ByteLen(t) == TitleBytes;
    }
  }

  /** Every character below U+0080 takes one byte. */
  lemma {:induction false} AsciiByteLen(s: string)
    requires forall i :: 0 <= i < |s| ==> s[i] as int < 0x80
    ensures ByteLen(s) == |s|
  {
    if s != [] {
      AsciiByteLen(s[1..]);
    }
  }

  /** A short prompt with a '/' inside names a file in a subdirectory of
      the conversations directory. */
  lemma SlashInsidePromptPath()
    ensures ConversationFile("1/2?") == ConversationsDir + "1/2?.json"
  {
    var q := "1/2?";
    AsciiByteLen(q);
    assert Title(q) == q;
  }

  /** A prompt starting with '/' names a file outside the conversations
      directory. */
  lemma AbsolutePromptPath()
    ensures ConversationFile("/etc/x") == "/etc/x.json"
  {
    var q := "/etc/x";
    AsciiByteLen(q);
    assert Title(q) == q;
  }

  // ---------------------------------------------------------------------
  // `chats_list` and stored messages.
  // ---------------------------------------------------------------------

  /** The messages of `chats_list`, in order, without render items: the
      history sent to the backend and the document written to disk. */
  function Messages(chats: seq<Entry>): (ms: seq<ChatMessage>)
    ensures |ms| == |chats|
    ensures forall i :: 0 <= i < |chats| ==> ms[i] == chats[i].message
  {
    if chats == [] then [] else [chats[0].message] + Messages(chats[1..])
  }

  /** `chats_list` rebuilt from stored messages: each paired with the render
      items of its text. */
  function Loaded(ms: seq<ChatMessage>, parse: string -> seq<Item>): (chats: seq<Entry>)
    ensures |chats| == |ms|
    ensures forall i :: 0 <= i < |ms| ==> chats[i] == Entry(ms[i], parse(ms[i].content))
  {
    if ms == [] then [] else [Entry(ms[0], parse(ms[0].content))] + Loaded(ms[1..], parse)
  }

  /** Loading what was saved gives back the same messages. */
  lemma LoadedMessages(ms: seq<ChatMessage>, parse: string -> seq<Item>)
    ensures Messages(Loaded(ms, parse)) == ms
  {
  }

  /** Saving and reloading restores `chats_list` itself whenever every
      entry's render items are those of its text. */
  lemma {:induction false} ReloadRestores(chats: seq<Entry>, parse: string -> seq<Item>)
    requires forall i :: 0 <= i < |chats| ==> chats[i].items == parse(chats[i].message.content)
    ensures Loaded(Messages(chats), parse) == chats
  {
    var r := Loaded(Messages(chats), parse);
    assert |r| == |chats|;
    forall i | 0 <= i < |chats| ensures r[i] == chats[i] {
      assert Messages(chats)[i] == chats[i].message;
    }
  }

  /** Render items agree with the text of every entry, except that a turn
      with no text yet may have none (the placeholder Assistant turn). */
  ghost predicate Rendered(chats: seq<Entry>, parse: string -> seq<Item>)
  {
    forall i :: 0 <= i < |chats| ==>
      chats[i].items == parse(chats[i].message.content)
      || (chats[i].message.content == [] && chats[i].items == [])
  }

  // ---------------------------------------------------------------------
  // Streaming.
  // ---------------------------------------------------------------------

  /** `HandleStreamResponse`: the chunk is appended to the last entry's text
      and that entry's render items are recomputed from the whole text. */
  function ExtendLast(chats: seq<Entry>, chunk: string, parse: string -> seq<Item>): seq<Entry>
    requires |chats| > 0
  {
    var last := chats[|chats| - 1];
    var content := last.message.content + chunk;
    chats[|chats| - 1 := Entry(last.message.(content := content), parse(content))]
  }

  /** Only the last entry changes, and its text grows by exactly the chunk. */
  lemma ExtendLastOnlyLast(chats: seq<Entry>, chunk: string, parse: string -> seq<Item>)
    requires |chats| > 0
    ensures var r := ExtendLast(chats, chunk, parse);
      |r| == |chats|
      && r[..|r| - 1] == chats[..|chats| - 1]
      && r[|r| - 1].message.role == chats[|chats| - 1].message.role
      && r[|r| - 1].message.content == chats[|chats| - 1].message.content + chunk
      && r[|r| - 1].items == parse(r[|r| - 1].message.content)
  {
  }

  /** The chunks of a stream applied one after the other, in arrival order. */
  function ExtendAll(chats: seq<Entry>, chunks: seq<string>, parse: string -> seq<Item>): (r: seq<Entry>)
    requires |chats| > 0
    ensures |r| == |chats|
    decreases |chunks|
  {
    if chunks == [] then chats
    else ExtendAll(ExtendLast(chats, chunks[0], parse), chunks[1..], parse)
  }

  /** All chunks of a stream, joined in arrival order. */
  function Concat(chunks: seq<string>): string
  {
    if chunks == [] then [] else chunks[0] + Concat(chunks[1..])
  }

  /** Two chunks applied in turn give what their concatenation gives. */
  lemma ExtendTwice(chats: seq<Entry>, c1: string, c2: string, parse: string -> seq<Item>)
    requires |chats| > 0
    ensures ExtendLast(ExtendLast(chats, c1, parse), c2, parse) == ExtendLast(chats, c1 + c2, parse)
  {
    var x := chats[|chats| - 1].message.content;
    assert x + c1 + c2 == x + (c1 + c2);
  }

  /** Applying a non-empty stream chunk by chunk equals applying its
      concatenation once. */
  lemma {:induction false} ExtendAllConcat(chats: seq<Entry>, chunks: seq<string>, parse: string -> seq<Item>)
    requires |chats| > 0 && |chunks| > 0
    ensures ExtendAll(chats, chunks, parse) == ExtendLast(chats, Concat(chunks), parse)
    decreases |chunks|
  {
    var once := ExtendLast(chats, chunks[0], parse);
    if |chunks| == 1 {
      assert chunks[1..] == [];
      assert Concat(chunks) == chunks[0] + [];
      assert chunks[0] + [] == chunks[0];
    } else {
      ExtendAllConcat(once, chunks[1..], parse);
      ExtendTwice(chats, chunks[0], Concat(chunks[1..]), parse);
    }
  }

  /** The elements before the last are never touched by a stream. */
  lemma {:induction false} ExtendAllKeepsEarlier(chats: seq<Entry>, chunks: seq<string>, parse: string -> seq<Item>)
    requires |chats| > 0
    ensures ExtendAll(chats, chunks, parse)[..|chats| - 1] == chats[..|chats| - 1]
    decreases |chunks|
  {
    if chunks != [] {
      var once := ExtendLast(chats, chunks[0], parse);
      assert once[..|chats| - 1] == chats[..|chats| - 1];
      ExtendAllKeepsEarlier(once, chunks[1..], parse);
    }
  }

  // ---------------------------------------------------------------------
  // The follow-up messages of a submission.
  // ---------------------------------------------------------------------

  /** One `HandleStreamResponse` per chunk, in arrival order. */
  function StreamMessages(chunks: seq<string>): (ms: seq<Message>)
    ensures |ms| == |chunks|
    ensures forall i :: 0 <= i < |chunks| ==> ms[i] == HandleStreamResponse(chunks[i])
  {
    if chunks == [] then [] else [HandleStreamResponse(chunks[0])] + StreamMessages(chunks[1..])
  }

  /** The chained task `SubmitPrompt` returns, as the messages it delivers:
      generation starts; if the request succeeds, each chunk, then a save,
      then a list reload when the session was just given a path; and
      generation ends. A failed request produces no chunk and no save. */
  function SubmitFollowUps(reply: Option<seq<string>>, reloadList: bool): (ms: seq<Message>)
    ensures |ms| >= 2 && ms[0] == ToggleIsGenerating && ms[|ms| - 1] == ToggleIsGenerating
    ensures reply.None? ==> ms == [ToggleIsGenerating, ToggleIsGenerating]
    ensures reply.Some? ==>
      var n := |reply.value|;
      |ms| == n + (if reloadList then 4 else 3)
      && (forall i :: 0 <= i < n ==> ms[i + 1] == HandleStreamResponse(reply.value[i]))
      && ms[n + 1] == SaveConversation
      && (reloadList ==> ms[n + 2] == LoadConversationList)
  {
    var body := match reply
      case None => []
      case Some(chunks) =>
        StreamMessages(chunks) + [SaveConversation] + (if reloadList then [LoadConversationList] else []);
    [ToggleIsGenerating] + body + [ToggleIsGenerating]
  }
}
