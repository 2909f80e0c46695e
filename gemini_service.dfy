/** The request configuration that `generateChatResponse` builds for a chat: the
    tools list, the thinking configuration and the copied history. The remote chat
    session and its reply are outside the model. */
module GeminiService {
  import opened Common

  /** Thinking budget requested when thinking is enabled. */
  const ThinkingBudget: nat := 32768
  /** Model-name fragment that enables thinking. */
  const ThinkingModelFamily: string := "gemini-3"

  /** One text part of a chat turn. */
  datatype Part = Part(text: string)

  /** One turn of chat history: a role name and its parts. */
  datatype Content = Content(role: string, parts: seq<Part>)

  /** The options a caller passes; the flags may be left out (`undefined`). */
  datatype ChatOptions = ChatOptions(
    model: string,
    systemInstruction: Option<string>,
    useSearch: Option<bool>,
    useThinking: Option<bool>)

  /** A tool offered to the model. */
  datatype Tool = GoogleSearch

  datatype ThinkingConfig = ThinkingConfig(thinkingBudget: nat)

  /** The argument of `ai.chats.create`; `tools` and `thinkingConfig` are `undefined`
      when absent. */
  datatype ChatConfig = ChatConfig(
    model: string,
    systemInstruction: Option<string>,
    tools: Option<seq<Tool>>,
    thinkingConfig: Option<ThinkingConfig>,
    history: seq<Content>)

  /** `s.includes(sub)`, computed by trying each position in turn. */
  predicate Includes(s: string, sub: string)
    decreases |s|
  {
    |sub| <= |s| && (s[..|sub|] == sub || Includes(s[1..], sub))
  }

  /** `sub` occurs in `s` starting at position `i`. */
  predicate OccursAt(sub: string, s: string, i: int)
  {
    0 <= i <= |s| - |sub| && s[i..i + |sub|] == sub
  }

  /** `sub` occurs in `s` at some position. */
  ghost predicate OccursIn(sub: string, s: string)
  {
    exists i :: OccursAt(sub, s, i)
  }

  /** `Includes` finds an occurrence exactly when there is one. */
  lemma {:induction false} IncludesIffOccurs(s: string, sub: string)
    ensures Includes(s, sub) <==> OccursIn(sub, s)
    decreases |s|
  {
    if |sub| <= |s| {
      if s[..|sub|] == sub {
        assert OccursAt(sub, s, 0);
      } else {
        IncludesIffOccurs(s[1..], sub);
        if OccursIn(sub, s) {
          var i :| OccursAt(sub, s, i);
          assert i != 0;
          assert s[1..][i - 1..i - 1 + |sub|] == s[i..i + |sub|];
          assert OccursAt(sub, s[1..], i - 1);
        }
        if OccursIn(sub, s[1..]) {
          var i :| OccursAt(sub, s[1..], i);
          assert s[1..][i..i + |sub|] == s[i + 1..i + 1 + |sub|];
          assert OccursAt(sub, s, i + 1);
        }
      }
    }
  }

  /** The local tools list: the search tool exactly when search is requested. */
  function ToolsFor(options: ChatOptions): (tools: seq<Tool>)
    ensures GoogleSearch in tools <==> Truthy(options.useSearch)
    ensures |tools| <= 1
  {
    if Truthy(options.useSearch) then [GoogleSearch] else []
  }

  /** The tools list as passed on: `undefined` instead of an empty list. */
  function PassedTools(tools: seq<Tool>): (passed: Option<seq<Tool>>)
    ensures passed.None? <==> tools == []
    ensures passed.Some? ==> passed.value == tools
  {
    if |tools| > 0 then Some(tools) else None
  }

  /** The thinking configuration: the fixed budget when thinking is requested and
      the model name contains "gemini-3"; otherwise `undefined`. */
  function ThinkingFor(options: ChatOptions): (config: Option<ThinkingConfig>)
    ensures config.Some? <==> Truthy(options.useThinking) && OccursIn(ThinkingModelFamily, options.model)
    ensures config.Some? ==> config.value.thinkingBudget == ThinkingBudget
  {
    IncludesIffOccurs(options.model, ThinkingModelFamily);
    if Truthy(options.useThinking) && Includes(options.model, ThinkingModelFamily) then
      Some(ThinkingConfig(ThinkingBudget))
    else
      None
  }

  /** `history.map(h => ({ role: h.role, parts: h.parts }))`: a copy, entry for entry. */
  function CopyHistory(history: seq<Content>): (copy: seq<Content>)
    ensures copy == history
  {
    seq(|history|, i requires 0 <= i < |history| => Content(history[i].role, history[i].parts))
  }

  /** The configuration `generateChatResponse` creates its chat with. */
  function BuildChatConfig(history: seq<Content>, options: ChatOptions): (config: ChatConfig)
    ensures config.model == options.model
    ensures config.systemInstruction == options.systemInstruction
    ensures config.history == history
    ensures config.tools.Some? <==> Truthy(options.useSearch)
    ensures config.tools.Some? ==> config.tools.value == [GoogleSearch]
    ensures config.thinkingConfig.Some? <==> Truthy(options.useThinking) && OccursIn(ThinkingModelFamily, options.model)
    ensures config.thinkingConfig.Some? ==> config.thinkingConfig.value.thinkingBudget == ThinkingBudget
  {
    ChatConfig(
      options.model,
      options.systemInstruction,
      PassedTools(ToolsFor(options)),
      ThinkingFor(options),
      CopyHistory(history))
  }

  /** What `generateChatResponse` sends: the chat configuration and the prompt. */
  datatype ChatRequest = ChatRequest(config: ChatConfig, message: string)

  function GenerateChatRequest(prompt: string, history: seq<Content>, options: ChatOptions): (request: ChatRequest)
    ensures request.message == prompt
    ensures request.config.model == options.model
    ensures request.config.history == history
    ensures request.config.tools.Some? <==> Truthy(options.useSearch)
    ensures request.config.thinkingConfig.Some? <==>
              Truthy(options.useThinking) && OccursIn(ThinkingModelFamily, options.model)
    ensures request.config.thinkingConfig.Some? ==>
              request.config.thinkingConfig.value.thinkingBudget == ThinkingBudget
  {
    ChatRequest(BuildChatConfig(history, options), prompt)
  }
}
