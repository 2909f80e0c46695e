/** The chat panel: sending a prompt (its guard, the model choice, the history, the
    message appends and the grounding sources of the reply) and reading a message
    aloud (its guard, the playing flag and the byte copy of the decoded audio).

    The remote chat and speech calls are outside the model: their replies are
    parameters. Message ids and timestamps (taken from `Date.now()`) are left out. */
module ChatInterface {
  import opened Common
  import GeminiService

  const FlashModel: string := "gemini-3-flash-preview"
  const ProModel: string := "gemini-3-pro-preview"
  const ChatInstruction: string :=
    "You are JARVIS. Answer concisely and with technical precision unless asked for detail. If using search, cite sources."
  const GreetingText: string := "J.A.R.V.I.S. Systems Online. How may I assist you, Sir?"
  const SendErrorText: string := "Error: Connection interrupted or quota exceeded."

  datatype Role = User | Model | System

  /** The role's name as the chat history carries it. */
  function RoleName(role: Role): (name: string)
    ensures name == "user" <==> role == User
    ensures name == "model" <==> role == Model
    ensures name == "system" <==> role == System
  {
    match role
    case User => "user"
    case Model => "model"
    case System => "system"
  }

  /** A grounding source shown under a reply; its `uri` is never empty. */
  datatype Source = Source(uri: string, title: Option<string>)

  /** A chat message (without its id and timestamp). */
  datatype Message = Message(
    role: Role,
    content: string,
    sources: Option<seq<Source>>,
    isThinking: Option<bool>)

  const Greeting: Message := Message(Model, GreetingText, None, None)
  const SendErrorMessage: Message := Message(System, SendErrorText, None, None)

  // ---------------------------------------------------------------------------
  // The send guard

  /** The characters `String.prototype.trim` removes: white space and line
      terminators. */
  predicate IsTrimmable(c: char)
  {
    c == '\t' || c == '\n' || c == '\U{000B}' || c == '\U{000C}' || c == '\r' || c == ' '
    || c == '\U{00A0}' || c == '\U{1680}' || ('\U{2000}' <= c <= '\U{200A}')
    || c == '\U{2028}' || c == '\U{2029}' || c == '\U{202F}' || c == '\U{205F}'
    || c == '\U{3000}' || c == '\U{FEFF}'
  }

  function TrimStart(s: string): (r: string)
    ensures r == [] || !IsTrimmable(r[0])
    ensures |r| <= |s| && r == s[|s| - |r|..]
    ensures IsBlank(s[..|s| - |r|])
    decreases |s|
  {
    if |s| > 0 && IsTrimmable(s[0]) then TrimStart(s[1..]) else s
  }

  function TrimEnd(s: string): (r: string)
    ensures r == [] || !IsTrimmable(r[|r| - 1])
    ensures |r| <= |s| && r == s[..|r|]
    ensures IsBlank(s[|r|..])
    decreases |s|
  {
    if |s| > 0 && IsTrimmable(s[|s| - 1]) then TrimEnd(s[..|s| - 1]) else s
  }

  /** `s.trim()`. */
  function Trim(s: string): (r: string)
  {
    TrimEnd(TrimStart(s))
  }

  /** The input is blank: every character is one `trim` removes. */
  predicate IsBlank(s: string)
  {
    forall i :: 0 <= i < |s| ==> IsTrimmable(s[i])
  }

  /** Removing leading white space leaves nothing exactly when the input is blank. */
  lemma TrimStartEmpty(s: string)
    ensures TrimStart(s) == [] <==> IsBlank(s)
  {
    var r := TrimStart(s);
    assert s[..|s|] == s;
    // a non-empty result starts with a character of the input that is not trimmable
    assert r != [] ==> r[0] == s[|s| - |r|];
  }

  /** `input.trim()` is empty (falsy) exactly when the input is blank. */
  lemma TrimEmptyIffBlank(s: string)
    ensures Trim(s) == [] <==> IsBlank(s)
  {
    TrimStartEmpty(s);
    var t := TrimStart(s);
    // an empty TrimEnd(t) means all of t is trimmable, t[0] included, which TrimStart rules out
    assert t != [] ==> t[0..][0] == t[0];
  }

  /** The guard of `handleSend`: it proceeds only with a non-blank input and no
      request in flight. */
  function MaySend(input: string, isLoading: bool): (ok: bool)
    ensures ok <==> !IsBlank(input) && !isLoading
  {
    TrimEmptyIffBlank(input);
    !(Trim(input) == [] || isLoading)
  }

  // ---------------------------------------------------------------------------
  // The request

  /** The model for a request: the fast model when searching without thinking,
      the pro model otherwise. */
  function SelectModel(useSearch: bool, useThinking: bool): (model: string)
    ensures model == FlashModel <==> useSearch && !useThinking
    ensures model == ProModel <==> !(useSearch && !useThinking)
  {
    if useSearch && !useThinking then FlashModel else ProModel
  }

  /** The history sent with a request: one entry per message, in order, with the
      message's role and its content as the single text part. */
  function HistoryOf(messages: seq<Message>): (history: seq<GeminiService.Content>)
    ensures |history| == |messages|
    ensures forall i :: 0 <= i < |messages| ==>
              history[i].role == RoleName(messages[i].role)
              && history[i].parts == [GeminiService.Part(messages[i].content)]
    decreases |messages|
  {
    if |messages| == 0 then []
    else HistoryOf(messages[..|messages| - 1]) + [ToContent(messages[|messages| - 1])]
  }

  function ToContent(m: Message): (c: GeminiService.Content)
  {
    GeminiService.Content(RoleName(m.role), [GeminiService.Part(m.content)])
  }

  /** The options `handleSend` passes for the current toggles. */
  function OptionsFor(useSearch: bool, useThinking: bool): (options: GeminiService.ChatOptions)
    ensures options.model == FlashModel <==> useSearch && !useThinking
    ensures options.model == ProModel <==> !(useSearch && !useThinking)
    ensures options.systemInstruction == Some(ChatInstruction)
    ensures GeminiService.ThinkingFor(options).Some? <==> useThinking
    ensures GeminiService.PassedTools(GeminiService.ToolsFor(options)).Some? <==> useSearch
  {
    assert GeminiService.OccursAt(GeminiService.ThinkingModelFamily, FlashModel, 0);
    assert GeminiService.OccursAt(GeminiService.ThinkingModelFamily, ProModel, 0);
    GeminiService.ChatOptions(SelectModel(useSearch, useThinking), Some(ChatInstruction), Some(useSearch), Some(useThinking))
  }

  /** Both model names the chat panel can choose contain "gemini-3", so the request
      asks for thinking exactly when the thinking toggle is on, and offers the search
      tool exactly when the search toggle is on. */
  lemma ChatRequestFollowsToggles(history: seq<GeminiService.Content>, useSearch: bool, useThinking: bool)
    ensures GeminiService.BuildChatConfig(history, OptionsFor(useSearch, useThinking)).thinkingConfig
         == (if useThinking then Some(GeminiService.ThinkingConfig(GeminiService.ThinkingBudget)) else None)
    ensures GeminiService.BuildChatConfig(history, OptionsFor(useSearch, useThinking)).tools
         == (if useSearch then Some([GeminiService.GoogleSearch]) else None)
  {
  }

  // ---------------------------------------------------------------------------
  // The reply

  /** A grounding chunk's `web` entry, each field possibly missing. */
  datatype WebRef = WebRef(uri: Option<string>, title: Option<string>)
  datatype GroundingChunk = GroundingChunk(web: Option<WebRef>)

  /** The chunk's `web?.uri` is truthy. */
  predicate HasUri(c: GroundingChunk)
  {
    c.web.Some? && c.web.value.uri.Some? && c.web.value.uri.value != []
  }

  function ToSource(c: GroundingChunk): (s: Source)
    requires HasUri(c)
    ensures s.uri == c.web.value.uri.value && s.title == c.web.value.title
  {
    Source(c.web.value.uri.value, c.web.value.title)
  }

  /** `chunks.map(c => ({ uri: c.web?.uri, title: c.web?.title })).filter(s => s.uri)`. */
  function SourcesOf(chunks: seq<GroundingChunk>): (sources: seq<Source>)
    ensures |sources| <= |chunks|
    ensures forall s :: s in sources ==> s.uri != []
    ensures forall c :: c in chunks && HasUri(c) ==> ToSource(c) in sources
    decreases |chunks|
  {
    if |chunks| == 0 then []
    else
      var rest := SourcesOf(chunks[1..]);
      assert forall c :: c in chunks ==> c == chunks[0] || c in chunks[1..];
      if HasUri(chunks[0]) then [ToSource(chunks[0])] + rest else rest
  }

  /** Filtering distributes over concatenation, so the kept sources appear in the
      order of their chunks. */
  lemma {:induction false} SourcesOfAppend(a: seq<GroundingChunk>, b: seq<GroundingChunk>)
    ensures SourcesOf(a + b) == SourcesOf(a) + SourcesOf(b)
    decreases |a|
  {
    if |a| == 0 {
      assert a + b == b;
    } else {
      assert (a + b)[0] == a[0];
      assert (a + b)[1..] == a[1..] + b;
      SourcesOfAppend(a[1..], b);
    }
  }

  /** A single chunk contributes its source exactly when its uri is truthy. */
  lemma SourcesOfSingle(c: GroundingChunk)
    ensures SourcesOf([c]) == if HasUri(c) then [ToSource(c)] else []
  {
  }

  /** The reply of the remote chat: its text and, when the first candidate carries
      grounding metadata, its grounding chunks. */
  datatype ChatReply = ChatReply(text: string, groundingChunks: Option<seq<GroundingChunk>>)

  /** The message appended once the request settles: the model's reply, marked with
      the thinking toggle of the send, or the fixed system error message. */
  function ReplyMessage(useThinking: bool, reply: Reply<ChatReply>): (m: Message)
    ensures reply.Ok? ==> m.role == Model && m.content == reply.value.text
                          && m.isThinking == Some(useThinking)
    ensures reply.Ok? ==> (m.sources.Some? <==> reply.value.groundingChunks.Some?)
    ensures reply.Ok? && reply.value.groundingChunks.Some? ==>
              m.sources == Some(SourcesOf(reply.value.groundingChunks.value))
    ensures reply.Failed? ==> m == SendErrorMessage
  {
    match reply
    case Ok(r) =>
      var sources := match r.groundingChunks
        case None => None
        case Some(chunks) => Some(SourcesOf(chunks));
      Message(Model, r.text, sources, Some(useThinking))
    case Failed => SendErrorMessage
  }

  // ---------------------------------------------------------------------------
  // Decoding the speech payload

  /** Storing a character code into a `Uint8Array` keeps its low eight bits. */
  function ToUint8(c: char): (b: uint8)
    ensures (c as int) < 256 ==> b as int == c as int
  {
    ((c as int) % 256) as uint8
  }

  /** The copy loop of `playTTS`: one byte per character of the decoded string,
      byte i holding the character code at i. The string comes from `atob`, whose
      characters are all below 256, so each byte is exactly that code. */
  method CopyCharCodes(binary: string) returns (bytes: array<uint8>)
    ensures bytes.Length == |binary|
    ensures forall i :: 0 <= i < |binary| ==> bytes[i] == ToUint8(binary[i])
    ensures (forall i :: 0 <= i < |binary| ==> (binary[i] as int) < 256) ==>
              forall i :: 0 <= i < |binary| ==> bytes[i] as int == binary[i] as int
  {
    var len := |binary|;
    bytes := new uint8[len];
    var i := 0;
    while i < len
      invariant 0 <= i <= len
      invariant forall k :: 0 <= k < i ==> bytes[k] == ToUint8(binary[k])
    {
      bytes[i] := ToUint8(binary[i]);
      i := i + 1;
    }
  }

  /** How the `try` block of `playTTS` turns out: audio (the `atob` decoding of the
      reply's truthy base64 payload), no audio payload, or a throw anywhere in the
      block. A throw can come from the speech call, from creating the audio context,
      from `atob` or from decoding the audio; each one reaches the `catch`. */
  datatype SpeechReply = Audio(binary: string) | NoAudio | SpeechFailed

  /** A request handed to the remote chat by `handleSend`, with the thinking toggle
      the reply message will carry. */
  datatype PendingSend = PendingSend(request: GeminiService.ChatRequest, useThinking: bool)

  /** The chat panel's state. */
  class ChatPanel {
    var input: string
    var messages: seq<Message>
    var isLoading: bool
    var useSearch: bool
    var useThinking: bool
    var isPlayingAudio: bool

    /** The greeting stays the first message. */
    ghost predicate Valid()
      reads this
    {
      |messages| >= 1 && messages[0] == Greeting
    }

    constructor ()
      ensures Valid()
      ensures input == [] && messages == [Greeting]
      ensures !isLoading && !useSearch && !useThinking && !isPlayingAudio
    {
      input, messages := [], [Greeting];
      isLoading, useSearch, useThinking, isPlayingAudio := false, false, false, false;
    }

    method SetInput(text: string)
      requires Valid()
      modifies this
      ensures Valid()
      ensures input == text
      ensures messages == old(messages) && isLoading == old(isLoading)
      ensures useSearch == old(useSearch) && useThinking == old(useThinking)
      ensures isPlayingAudio == old(isPlayingAudio)
    {
      input := text;
    }

    method ToggleSearch()
      requires Valid()
      modifies this
      ensures Valid()
      ensures useSearch == !old(useSearch)
      ensures input == old(input) && messages == old(messages) && isLoading == old(isLoading)
      ensures useThinking == old(useThinking) && isPlayingAudio == old(isPlayingAudio)
    {
      useSearch := !useSearch;
    }

    method ToggleThinking()
      requires Valid()
      modifies this
      ensures Valid()
      ensures useThinking == !old(useThinking)
      ensures input == old(input) && messages == old(messages) && isLoading == old(isLoading)
      ensures useSearch == old(useSearch) && isPlayingAudio == old(isPlayingAudio)
    {
      useThinking := !useThinking;
    }

    /** `handleSend` up to the await of the remote reply. With a blank input or a
        request in flight it does nothing. Otherwise it appends the user's message
        (the untrimmed input), clears the input, marks the panel loading, and hands
        over a request built from the messages as they were before the append. */
    method BeginSend() returns (pending: Option<PendingSend>)
      requires Valid()
      modifies this
      ensures Valid()
      ensures pending.None? <==> IsBlank(old(input)) || old(isLoading)
      ensures pending.None? ==>
                input == old(input) && messages == old(messages) && isLoading == old(isLoading)
      ensures pending.Some? ==>
                messages == old(messages) + [Message(User, old(input), None, None)]
                && input == [] && isLoading
      ensures pending.Some? ==>
                pending.value.useThinking == useThinking
                && pending.value.request == GeminiService.GenerateChatRequest(
                     old(input), HistoryOf(old(messages)), OptionsFor(useSearch, useThinking))
      ensures useSearch == old(useSearch) && useThinking == old(useThinking)
      ensures isPlayingAudio == old(isPlayingAudio)
    {
      if !MaySend(input, isLoading) {
        return None;
      }
      var prompt := input;
      var history := HistoryOf(messages);
      messages := messages + [Message(User, prompt, None, None)];
      input := [];
      isLoading := true;
      var request := GeminiService.GenerateChatRequest(prompt, history, OptionsFor(useSearch, useThinking));
      pending := Some(PendingSend(request, useThinking));
    }

    /** The rest of `handleSend`: appends exactly one message for the settled reply
        and clears the loading flag, whatever the outcome. */
    method FinishSend(pending: PendingSend, reply: Reply<ChatReply>)
      requires Valid()
      modifies this
      ensures Valid()
      ensures messages == old(messages) + [ReplyMessage(pending.useThinking, reply)]
      ensures !isLoading
      ensures input == old(input) && useSearch == old(useSearch) && useThinking == old(useThinking)
      ensures isPlayingAudio == old(isPlayingAudio)
    {
      messages := messages + [ReplyMessage(pending.useThinking, reply)];
      isLoading := false;
    }

    /** `playTTS`: does nothing while audio is playing. Otherwise it marks audio as
        playing; with an audio payload it copies the decoded string into bytes and
        starts playback (the flag stays set until playback ends), and without a
        payload or on an error it clears the flag again. */
    method PlayTts(reply: SpeechReply) returns (bytes: Option<seq<uint8>>)
      requires Valid()
      modifies this
      ensures Valid()
      ensures old(isPlayingAudio) ==> bytes.None? && isPlayingAudio
      ensures !old(isPlayingAudio) ==> (isPlayingAudio <==> reply.Audio?)
      ensures bytes.Some? <==> !old(isPlayingAudio) && reply.Audio?
      ensures bytes.Some? ==>
                |bytes.value| == |reply.binary|
                && forall i :: 0 <= i < |reply.binary| ==> bytes.value[i] == ToUint8(reply.binary[i])
      ensures input == old(input) && messages == old(messages) && isLoading == old(isLoading)
      ensures useSearch == old(useSearch) && useThinking == old(useThinking)
    {
      bytes := None;
      if isPlayingAudio {
        return;
      }
      isPlayingAudio := true;
      match reply
      case Audio(binary) =>
        var copied := CopyCharCodes(binary);
        bytes := Some(copied[..]);
      case NoAudio =>
        isPlayingAudio := false;
      case SpeechFailed =>
        isPlayingAudio := false;
    }

    /** The `onended` handler of the speech playback: audio is no longer playing. */
    method TtsEnded()
      requires Valid()
      modifies this
      ensures Valid()
      ensures !isPlayingAudio
      ensures input == old(input) && messages == old(messages) && isLoading == old(isLoading)
      ensures useSearch == old(useSearch) && useThinking == old(useThinking)
    {
      isPlayingAudio := false;
    }
  }

  /** A send that fails, then a blank send, then a send while the second request is
      still in flight, then a third send: the blank and the in-flight sends do
      nothing, and the error message of the failed send goes out in the history of
      the next request, with the role "system". */
  method FailedReplyScenario()
    returns (blankIgnored: bool, inFlightIgnored: bool, history: seq<GeminiService.Content>)
    ensures blankIgnored && inFlightIgnored
    ensures |history| == 3
    ensures history[1] == GeminiService.Content("user", [GeminiService.Part("hi")])
    ensures history[2] == GeminiService.Content("system", [GeminiService.Part(SendErrorText)])
  {
    var panel := new ChatPanel();
    panel.SetInput("hi");
    assert !IsTrimmable(panel.input[0]);
    var first := panel.BeginSend();
    panel.FinishSend(first.value, Failed);
    var afterFailure := [Greeting, Message(User, "hi", None, None), SendErrorMessage];
    assert panel.messages == afterFailure;
    panel.SetInput(" \n ");
    var blank := panel.BeginSend();
    blankIgnored := blank.None?;
    panel.SetInput("again");
    assert !IsTrimmable(panel.input[0]);
    var second := panel.BeginSend();
    panel.SetInput("more");
    var third := panel.BeginSend();
    inFlightIgnored := third.None?;
    history := second.value.request.config.history;
    assert history == HistoryOf(afterFailure);
  }
}
