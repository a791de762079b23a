/** The neutral tool-chat transcript (ai/base.py) and its translation for the two providers. */
module ToolChat {
  import opened Common

  datatype TokenUsage = TokenUsage(input: int, output: int, cacheRead: int, cacheWrite: int) {
    function Total(): int { input + output + cacheRead + cacheWrite }

    function Plus(other: TokenUsage): TokenUsage {
      TokenUsage(input + other.input, output + other.output,
                 cacheRead + other.cacheRead, cacheWrite + other.cacheWrite)
    }
  }

  const NO_USAGE := TokenUsage(0, 0, 0, 0)

  /** The arguments the loops read. `tableNames` is empty unless a list was given; `None` is a non-string entry. */
  datatype ToolInput = ToolInput(tableNames: seq<Option<string>>, sql: string, connectionId: Option<int>)

  datatype ToolCall = ToolCall(id: string, name: string, input: ToolInput)

  datatype ToolResult = ToolResult(callId: string, content: string, isError: bool)

  datatype Role = User | Assistant

  /** `text == ""` stands for a missing text: the code tests truthiness. */
  datatype ToolChatMessage = ToolChatMessage(
    role: Role, text: string, toolCalls: seq<ToolCall>, toolResults: seq<ToolResult>)

  datatype ChatTurn = ChatTurn(text: string, toolCalls: seq<ToolCall>, usage: TokenUsage)

  datatype ChatOutcome = Turn(turn: ChatTurn) | ProviderError

  type Transcript = seq<ToolChatMessage>

  /** One result per call, in order, by id. */
  ghost predicate Answers(calls: seq<ToolCall>, results: seq<ToolResult>) {
    AnswersFirst(calls, |calls|, results)
  }

  ghost predicate AnswersFirst(calls: seq<ToolCall>, n: nat, results: seq<ToolResult>)
    requires n <= |calls|
  {
    |results| == n && forall i {:trigger results[i]} :: 0 <= i < n ==> results[i].callId == calls[i].id
  }

  ghost predicate WellFormedAt(ms: Transcript, i: nat)
    requires i < |ms|
  {
    && (ms[i].toolCalls != [] ==>
          && ms[i].role.Assistant? && ms[i].toolResults == []
          && i + 1 < |ms| && ms[i + 1].role.User? && ms[i + 1].toolCalls == []
          && Answers(ms[i].toolCalls, ms[i + 1].toolResults))
    && (ms[i].toolResults != [] ==> ms[i].role.User? && i > 0 && ms[i - 1].toolCalls != [])
  }

  /** Every tool-calling assistant message is immediately answered, and results appear nowhere else. */
  ghost predicate WellFormed(ms: Transcript) {
    forall i :: 0 <= i < |ms| ==> WellFormedAt(ms, i)
  }

  function UserText(text: string): ToolChatMessage { ToolChatMessage(User, text, [], []) }

  function Exchange(turn: ChatTurn, results: seq<ToolResult>): Transcript {
    [ToolChatMessage(Assistant, turn.text, turn.toolCalls, []), ToolChatMessage(User, "", [], results)]
  }

  lemma AppendExchange(ms: Transcript, turn: ChatTurn, results: seq<ToolResult>)
    requires WellFormed(ms) && turn.toolCalls != [] && Answers(turn.toolCalls, results)
    ensures WellFormed(ms + Exchange(turn, results))
  {
    var all := ms + Exchange(turn, results);
    forall i | 0 <= i < |all| ensures WellFormedAt(all, i) {
      if i < |ms| {
        assert WellFormedAt(ms, i);
      }
    }
  }

  lemma AppendText(ms: Transcript, text: string)
    requires WellFormed(ms)
    ensures WellFormed(ms + [UserText(text)])
  {
    var all := ms + [UserText(text)];
    forall i | 0 <= i < |all| ensures WellFormedAt(all, i) {
      if i < |ms| {
        assert WellFormedAt(ms, i);
      }
    }
  }

  // ------------------------------------------------------------ conversations

  /** Whether these are the answers that the calls of the last of these replies are due. */
  type Due = (seq<ChatOutcome>, seq<ToolResult>) -> bool

  /** `next` is `before`, then the reply as the model gave it, then one message with these answers. */
  ghost predicate Continues(before: Transcript, reply: ChatOutcome, results: seq<ToolResult>, next: Transcript) {
    && reply.Turn?
    && next == before + [ToolChatMessage(Assistant, reply.turn.text, reply.turn.toolCalls, []),
                         ToolChatMessage(User, "", [], results)]
  }

  ghost predicate AskedAfter(asked: seq<Transcript>, replies: seq<ChatOutcome>, answers: seq<seq<ToolResult>>, k: nat) {
    0 < k < |asked| && k <= |replies| && k <= |answers| && Continues(asked[k - 1], replies[k - 1], answers[k - 1], asked[k])
  }

  ghost predicate AnsweredDuly(due: Due, replies: seq<ChatOutcome>, answers: seq<seq<ToolResult>>, k: nat) {
    k < |answers| && k < |replies| && due(replies[..k + 1], answers[k])
  }

  /** Every request is the whole conversation so far: the opening, then each reply with the answers its calls are due. */
  ghost predicate Conversation(opening: Transcript, due: Due, asked: seq<Transcript>, replies: seq<ChatOutcome>,
                               answers: seq<seq<ToolResult>>)
  {
    && |answers| <= |replies| == |asked|
    && (asked != [] ==> asked[0] == opening)
    && (forall k: nat {:trigger AskedAfter(asked, replies, answers, k)} ::
          0 < k < |asked| ==> AskedAfter(asked, replies, answers, k))
    && (forall k: nat {:trigger AnsweredDuly(due, replies, answers, k)} ::
          k < |answers| ==> AnsweredDuly(due, replies, answers, k))
  }

  /** What the conversation is asked with next. */
  ghost predicate MayAsk(opening: Transcript, asked: seq<Transcript>, replies: seq<ChatOutcome>,
                         answers: seq<seq<ToolResult>>, messages: Transcript)
  {
    && |asked| == |replies| == |answers|
    && if asked == [] then messages == opening
       else Continues(asked[|asked| - 1], replies[|asked| - 1], answers[|asked| - 1], messages)
  }

  lemma ConversationAsks(opening: Transcript, due: Due, asked: seq<Transcript>, replies: seq<ChatOutcome>,
                         answers: seq<seq<ToolResult>>, messages: Transcript, reply: ChatOutcome)
    requires Conversation(opening, due, asked, replies, answers) && MayAsk(opening, asked, replies, answers, messages)
    ensures Conversation(opening, due, asked + [messages], replies + [reply], answers)
  {
    var replies' := replies + [reply];
    forall k: nat | 0 < k < |asked| + 1 ensures AskedAfter(asked + [messages], replies', answers, k) {
      assert k < |asked| ==> AskedAfter(asked, replies, answers, k);
    }
    forall k: nat | k < |answers| ensures AnsweredDuly(due, replies', answers, k) {
      assert AnsweredDuly(due, replies, answers, k);
      assert replies'[..k + 1] == replies[..k + 1];
    }
  }

  lemma ConversationAnswers(opening: Transcript, due: Due, asked: seq<Transcript>, replies: seq<ChatOutcome>,
                            answers: seq<seq<ToolResult>>, results: seq<ToolResult>)
    requires Conversation(opening, due, asked, replies, answers)
    requires |replies| == |answers| + 1 && replies[|replies| - 1].Turn? && due(replies, results)
    ensures Conversation(opening, due, asked, replies, answers + [results])
    ensures MayAsk(opening, asked, replies, answers + [results],
                   asked[|asked| - 1] + Exchange(replies[|replies| - 1].turn, results))
  {
    var answers' := answers + [results];
    forall k: nat | 0 < k < |asked| ensures AskedAfter(asked, replies, answers', k) {
      assert AskedAfter(asked, replies, answers, k);
    }
    assert replies[..|answers| + 1] == replies;
    forall k: nat | k < |answers'| ensures AnsweredDuly(due, replies, answers', k) {
      assert k < |answers| ==> AnsweredDuly(due, replies, answers, k);
    }
  }

  // ---------------------------------------------------------------- sessions

  /** Any model behaviour: the reply may depend on the call number and on the whole transcript. */
  type Model = (nat, Transcript, bool) -> ChatOutcome

  /** A provider client; `asked`, `forced` and `replies` record every chat call of one run, `answers` what the tool
      calls of each reply were answered with. */
  class ProviderSession {
    const model: Model
    var asked: seq<Transcript>
    var forced: seq<bool>
    var replies: seq<ChatOutcome>
    ghost var answers: seq<seq<ToolResult>>

    ghost predicate Unused()
      reads this
    {
      asked == [] && forced == [] && replies == [] && answers == []
    }

    constructor (model: Model)
      ensures this.model == model && Unused()
    {
      this.model := model;
      asked, forced, replies, answers := [], [], [], [];
    }

    method Chat(messages: Transcript, forceText: bool) returns (outcome: ChatOutcome)
      modifies this`asked, this`forced, this`replies
      ensures outcome == model(|old(asked)|, messages, forceText)
      ensures asked == old(asked) + [messages] && replies == old(replies) + [outcome]
      ensures forced == old(forced) + [forceText]
    {
      outcome := model(|asked|, messages, forceText);
      asked := asked + [messages];
      forced := forced + [forceText];
      replies := replies + [outcome];
    }

    /** The run so far is one conversation. */
    ghost predicate Conversed(opening: Transcript, due: Due)
      reads this
    {
      Conversation(opening, due, asked, replies, answers)
    }

    /** `messages` is that conversation, to be asked with next. */
    ghost predicate Conversing(opening: Transcript, due: Due, messages: Transcript)
      reads this
    {
      Conversed(opening, due) && MayAsk(opening, asked, replies, answers, messages)
    }

    /** Records what the calls of the last reply were answered with. */
    ghost method Answer(opening: Transcript, due: Due, results: seq<ToolResult>)
      requires Conversed(opening, due) && |replies| == |answers| + 1 && replies[|replies| - 1].Turn?
      requires due(replies, results)
      modifies this`answers
      ensures answers == old(answers) + [results]
      ensures Conversing(opening, due, asked[|asked| - 1] + Exchange(replies[|replies| - 1].turn, results))
    {
      ConversationAnswers(opening, due, asked, replies, answers, results);
      answers := answers + [results];
    }
  }

  /** The usage of every successful reply. */
  function TotalUsage(replies: seq<ChatOutcome>): TokenUsage {
    if replies == [] then NO_USAGE
    else
      var before := TotalUsage(replies[..|replies| - 1]);
      match replies[|replies| - 1]
      case Turn(turn) => before.Plus(turn.usage)
      case ProviderError => before
  }

  lemma TotalUsageSnoc(replies: seq<ChatOutcome>, outcome: ChatOutcome)
    ensures TotalUsage(replies + [outcome])
         == if outcome.Turn? then TotalUsage(replies).Plus(outcome.turn.usage) else TotalUsage(replies)
    ensures outcome.Turn? ==>
      var before, after, used := TotalUsage(replies), TotalUsage(replies + [outcome]), outcome.turn.usage;
      && after.input == before.input + used.input && after.output == before.output + used.output
      && after.cacheRead == before.cacheRead + used.cacheRead && after.cacheWrite == before.cacheWrite + used.cacheWrite
  {
    assert (replies + [outcome])[..|replies|] == replies;
  }

  function CallsIn(reply: ChatOutcome): seq<ToolCall> {
    match reply case Turn(turn) => turn.toolCalls case ProviderError => []
  }

  /** Every tool call the model made, in order. */
  function CallsOf(replies: seq<ChatOutcome>): seq<ToolCall> { FlatMap(CallsIn, replies) }

  ghost predicate AllWellFormed(asked: seq<Transcript>) {
    forall k :: 0 <= k < |asked| ==> WellFormed(asked[k])
  }

  // ------------------------------------------------------------------ OpenAI

  datatype OpenAIMessage =
    | OaSystem(content: string)
    | OaUser(content: string)
    | OaAssistant(content: string, calls: seq<ToolCall>)
    | OaTool(callId: string, content: string)

  function ToolMessage(r: ToolResult): OpenAIMessage {
    OaTool(r.callId, if r.isError then "ERROR: " + r.content else r.content)
  }

  function OpenAIEntries(m: ToolChatMessage): seq<OpenAIMessage> {
    if m.role.Assistant? then [OaAssistant(m.text, m.toolCalls)]
    else Map(ToolMessage, m.toolResults) + (if m.text != "" then [OaUser(m.text)] else [])
  }

  function OpenAIBody(ms: Transcript): seq<OpenAIMessage> { FlatMap(OpenAIEntries, ms) }

  /** The entries of one user message: tool results first, then the text. */
  method AppendUserEntries(out: seq<OpenAIMessage>, msg: ToolChatMessage) returns (out': seq<OpenAIMessage>)
    requires msg.role.User?
    ensures out' == out + OpenAIEntries(msg)
  {
    out' := out;
    for j := 0 to |msg.toolResults|
      invariant out' == out + Map(ToolMessage, msg.toolResults[..j])
    {
      assert Map(ToolMessage, msg.toolResults[..j + 1])
          == Map(ToolMessage, msg.toolResults[..j]) + [ToolMessage(msg.toolResults[j])];
      out' := out' + [ToolMessage(msg.toolResults[j])];
    }
    assert msg.toolResults[..|msg.toolResults|] == msg.toolResults;
    if msg.text != "" {
      out' := out' + [OaUser(msg.text)];
    }
  }

  method ToOpenAIMessages(system: string, messages: Transcript) returns (out: seq<OpenAIMessage>)
    ensures out == [OaSystem(system)] + OpenAIBody(messages)
  {
    out := [OaSystem(system)];
    for i := 0 to |messages|
      invariant out == [OaSystem(system)] + OpenAIBody(messages[..i])
    {
      FlatMapSnoc(OpenAIEntries, messages, i);
      if messages[i].role.Assistant? {
        out := out + [OaAssistant(messages[i].text, messages[i].toolCalls)];
      } else {
        out := AppendUserEntries(out, messages[i]);
      }
    }
    assert messages[..|messages|] == messages;
  }

  ghost predicate ToolRun(out: seq<OpenAIMessage>, calls: seq<ToolCall>) {
    |calls| <= |out| && forall i :: 0 <= i < |calls| ==> out[i].OaTool? && out[i].callId == calls[i].id
  }

  /** The Chat Completions rule: after an assistant message with calls come exactly the tool messages
      that answer them, in order; a tool message appears nowhere else. */
  ghost predicate OpenAIAccepts(out: seq<OpenAIMessage>)
    decreases |out|
  {
    if out == [] then true
    else match out[0]
      case OaTool(_, _) => false
      case OaAssistant(_, calls) => ToolRun(out[1..], calls) && OpenAIAccepts(out[1 + |calls|..])
      case _ => OpenAIAccepts(out[1..])
  }

  lemma SuffixWellFormed(ms: Transcript, k: nat)
    requires WellFormed(ms) && k <= |ms| && (k < |ms| ==> ms[k].toolResults == [])
    ensures WellFormed(ms[k..])
  {
    forall i | 0 <= i < |ms| - k ensures WellFormedAt(ms[k..], i) {
      assert WellFormedAt(ms, i + k);
    }
  }

  lemma AcceptPlain(m: ToolChatMessage, rest: seq<OpenAIMessage>)
    requires m.toolCalls == [] && m.toolResults == [] && OpenAIAccepts(rest)
    ensures OpenAIAccepts(OpenAIEntries(m) + rest)
  {
    var entries := OpenAIEntries(m);
    if entries == [] {
      assert entries + rest == rest;
    } else {
      assert |entries| == 1 && (entries + rest)[1..] == rest;
    }
  }

  lemma AcceptAnswered(text: string, calls: seq<ToolCall>, tools: seq<OpenAIMessage>, rest: seq<OpenAIMessage>)
    requires |tools| == |calls| && ToolRun(tools, calls) && OpenAIAccepts(rest)
    ensures OpenAIAccepts([OaAssistant(text, calls)] + tools + rest)
  {
    var out := [OaAssistant(text, calls)] + tools + rest;
    assert out[1..] == tools + rest;
    assert out[1 + |calls|..] == rest;
  }

  lemma ToolMessagesAnswer(calls: seq<ToolCall>, results: seq<ToolResult>)
    requires Answers(calls, results)
    ensures ToolRun(Map(ToolMessage, results), calls)
  {}

  lemma SplitUserEntries(m: ToolChatMessage)
    requires m.role.User?
    ensures OpenAIEntries(m) == Map(ToolMessage, m.toolResults) + OpenAIEntries(m.(toolResults := []))
  {
    assert Map(ToolMessage, []) == [];
  }

  lemma AcceptExchange(ask: ToolChatMessage, answer: ToolChatMessage, rest: seq<OpenAIMessage>)
    requires ask.role.Assistant? && answer.role.User? && answer.toolCalls == []
    requires Answers(ask.toolCalls, answer.toolResults) && OpenAIAccepts(rest)
    ensures OpenAIAccepts(OpenAIEntries(ask) + (OpenAIEntries(answer) + rest))
  {
    var silent := answer.(toolResults := []);
    var tools, said := Map(ToolMessage, answer.toolResults), OpenAIEntries(silent);
    SplitUserEntries(answer);
    ToolMessagesAnswer(ask.toolCalls, answer.toolResults);
    AcceptPlain(silent, rest);
    AcceptAnswered(ask.text, ask.toolCalls, tools, said + rest);
    Regroup([OaAssistant(ask.text, ask.toolCalls)], tools, said, rest);
  }

  lemma Regroup<T>(a: seq<T>, b: seq<T>, c: seq<T>, d: seq<T>)
    ensures a + ((b + c) + d) == a + b + (c + d)
  {}

  lemma {:induction false} OpenAIBodyAccepted(ms: Transcript)
    requires WellFormed(ms)
    ensures OpenAIAccepts(OpenAIBody(ms))
    decreases |ms|
  {
    if ms != [] {
      assert WellFormedAt(ms, 0);
      assert 1 < |ms| ==> WellFormedAt(ms, 1);
      FlatMapFirst(OpenAIEntries, ms);
      if ms[0].toolCalls != [] {
        assert 2 < |ms| ==> WellFormedAt(ms, 2);
        SuffixWellFormed(ms, 2);
        OpenAIBodyAccepted(ms[2..]);
        FlatMapFirst(OpenAIEntries, ms[1..]);
        assert ms[1..][1..] == ms[2..];
        AcceptExchange(ms[0], ms[1], OpenAIBody(ms[2..]));
      } else {
        SuffixWellFormed(ms, 1);
        OpenAIBodyAccepted(ms[1..]);
        AcceptPlain(ms[0], OpenAIBody(ms[1..]));
      }
    }
  }

  /** The OpenAI translation of a well-formed transcript obeys the Chat Completions rule. */
  lemma OpenAITranslationAccepted(system: string, ms: Transcript)
    requires WellFormed(ms)
    ensures OpenAIAccepts([OaSystem(system)] + OpenAIBody(ms))
  {
    OpenAIBodyAccepted(ms);
    assert ([OaSystem(system)] + OpenAIBody(ms))[1..] == OpenAIBody(ms);
  }

  // Reading a message back from its OpenAI entries.

  const ERROR_MARK := "ERROR: "

  /** A tool message carries no error flag: only the mark in front of its text tells. */
  function Unmarked(callId: string, content: string): ToolResult {
    if ERROR_MARK <= content then ToolResult(callId, content[|ERROR_MARK|..], true) else ToolResult(callId, content, false)
  }

  function ToolOf(e: OpenAIMessage): seq<ToolResult> {
    match e case OaTool(callId, content) => [Unmarked(callId, content)] case _ => []
  }

  function UserTextOf(e: OpenAIMessage): string { match e case OaUser(content) => content case _ => [] }

  function FromOpenAI(entries: seq<OpenAIMessage>): ToolChatMessage {
    if entries != [] && entries[0].OaAssistant? then ToolChatMessage(Assistant, entries[0].content, entries[0].calls, [])
    else ToolChatMessage(User, FlatMap(UserTextOf, entries), [], FlatMap(ToolOf, entries))
  }

  /** A result that was no error but reads like one. */
  predicate LooksFailed(r: ToolResult) { !r.isError && ERROR_MARK <= r.content }

  function Reread(r: ToolResult): ToolResult { if LooksFailed(r) then Unmarked(r.callId, r.content) else r }

  lemma RereadResults(results: seq<ToolResult>)
    ensures FlatMap(ToolOf, Map(ToolMessage, results)) == Map(Reread, results)
  {
    forall r | r in results ensures ToolOf(ToolMessage(r)) == [Reread(r)] {
      assert r.isError ==> ("ERROR: " + r.content)[7..] == r.content;
    }
    ReadKeys(results, ToolMessage, ToolOf, Reread);
  }

  lemma UserEntriesRead(results: seq<ToolResult>, said: seq<OpenAIMessage>)
    requires forall e :: e in said ==> e.OaUser?
    ensures FlatMap(UserTextOf, Map(ToolMessage, results) + said) == FlatMap(UserTextOf, said)
    ensures FlatMap(ToolOf, Map(ToolMessage, results) + said) == Map(Reread, results)
  {
    FlatMapConcat(UserTextOf, Map(ToolMessage, results), said);
    FlatMapConcat(ToolOf, Map(ToolMessage, results), said);
    ReadNothing(Map(ToolMessage, results), UserTextOf);
    ReadNothing(said, ToolOf);
    RereadResults(results);
  }

  /** A message can be read back from its OpenAI entries exactly when its assistant turn holds no results, its user turn no
      calls, and no successful result begins like an error. */
  lemma OpenAIRoundTripIff(m: ToolChatMessage)
    ensures FromOpenAI(OpenAIEntries(m)) == m
       <==> if m.role.Assistant? then m.toolResults == []
            else m.toolCalls == [] && forall r :: r in m.toolResults ==> r.isError || !("ERROR: " <= r.content)
  {
    if m.role.User? {
      var said := if m.text != "" then [OaUser(m.text)] else [];
      UserEntriesRead(m.toolResults, said);
      assert FlatMap(UserTextOf, said) == m.text by {
        assert [OaUser(m.text)][..0] == [];
      }
      SameWhenReread(m.toolResults);
    }
  }

  lemma SameWhenReread(results: seq<ToolResult>)
    ensures Map(Reread, results) == results <==> forall r :: r in results ==> !LooksFailed(r)
  {
    if Map(Reread, results) == results {
      forall r | r in results ensures !LooksFailed(r) {
        var i :| 0 <= i < |results| && results[i] == r;
        assert Map(Reread, results)[i] == r;
      }
    }
  }

  /** The counts OpenAI reports; `cached` is already part of `prompt`. */
  function OpenAIUsage(prompt: nat, completion: nat, cached: nat): TokenUsage {
    TokenUsage(if prompt >= cached then prompt - cached else 0, completion, cached, 0)
  }

  /** No token is counted twice or lost exactly when the cached count is really part of the prompt. */
  lemma OpenAIUsageConserved(prompt: nat, completion: nat, cached: nat)
    ensures OpenAIUsage(prompt, completion, cached).Total() == prompt + completion <==> cached <= prompt
  {}

  // --------------------------------------------------------------- Anthropic

  datatype Block =
    | ResultBlock(toolUseId: string, content: string, isError: bool)
    | TextBlock(text: string)
    | UseBlock(id: string, name: string, input: ToolInput)

  datatype AnthropicMessage = AnthropicMessage(role: Role, blocks: seq<Block>)

  function AsResultBlock(r: ToolResult): Block { ResultBlock(r.callId, r.content, r.isError) }

  function AsUseBlock(c: ToolCall): Block { UseBlock(c.id, c.name, c.input) }

  function AnthropicForm(m: ToolChatMessage): AnthropicMessage {
    AnthropicMessage(m.role,
      Map(AsResultBlock, m.toolResults) + TextBlocks(m.text) + Map(AsUseBlock, m.toolCalls))
  }

  method ToAnthropicMessages(messages: Transcript) returns (out: seq<AnthropicMessage>)
    ensures out == Map(AnthropicForm, messages)
  {
    out := [];
    for i := 0 to |messages|
      invariant out == Map(AnthropicForm, messages[..i])
    {
      var msg := messages[i];
      var blocks: seq<Block> := [];
      for j := 0 to |msg.toolResults|
        invariant blocks == Map(AsResultBlock, msg.toolResults[..j])
      {
        blocks := blocks + [AsResultBlock(msg.toolResults[j])];
      }
      assert msg.toolResults[..|msg.toolResults|] == msg.toolResults;
      if msg.text != "" {
        blocks := blocks + [TextBlock(msg.text)];
      }
      ghost var before := blocks;
      for j := 0 to |msg.toolCalls|
        invariant blocks == before + Map(AsUseBlock, msg.toolCalls[..j])
      {
        blocks := blocks + [AsUseBlock(msg.toolCalls[j])];
      }
      assert msg.toolCalls[..|msg.toolCalls|] == msg.toolCalls;
      assert AnthropicMessage(msg.role, blocks) == AnthropicForm(msg);
      out := out + [AnthropicMessage(msg.role, blocks)];
    }
    assert messages[..|messages|] == messages;
  }

  // Reading a message back from its blocks.

  function ResultOf(b: Block): seq<ToolResult> {
    match b case ResultBlock(id, content, isError) => [ToolResult(id, content, isError)] case _ => []
  }

  function TextOf(b: Block): string { match b case TextBlock(text) => text case _ => [] }

  function CallOf(b: Block): seq<ToolCall> {
    match b case UseBlock(id, name, input) => [ToolCall(id, name, input)] case _ => []
  }

  function FromAnthropic(m: AnthropicMessage): ToolChatMessage {
    ToolChatMessage(m.role, FlatMap(TextOf, m.blocks), FlatMap(CallOf, m.blocks), FlatMap(ResultOf, m.blocks))
  }

  lemma {:induction false} ReadNothing<T, U>(blocks: seq<T>, read: T -> seq<U>)
    requires forall b :: b in blocks ==> read(b) == []
    ensures FlatMap(read, blocks) == []
  {
    if blocks != [] {
      ReadNothing(blocks[..|blocks| - 1], read);
    }
  }

  lemma {:induction false} ReadKeys<T, U, V>(items: seq<T>, write: T -> U, read: U -> seq<V>, key: T -> V)
    requires forall x :: x in items ==> read(write(x)) == [key(x)]
    ensures FlatMap(read, Map(write, items)) == Map(key, items)
  {
    if items != [] {
      var last := |items| - 1;
      ReadKeys(items[..last], write, read, key);
      assert Map(write, items)[..last] == Map(write, items[..last]);
      assert Map(key, items) == Map(key, items[..last]) + [key(items[last])];
    }
  }

  lemma ReadBack<T, U>(items: seq<T>, write: T -> U, read: U -> seq<T>)
    requires forall x :: x in items ==> read(write(x)) == [x]
    ensures FlatMap(read, Map(write, items)) == items
  {
    ReadKeys(items, write, read, (x: T) => x);
    assert Map((x: T) => x, items) == items;
  }

  lemma ReadParts<U>(read: Block -> seq<U>, results: seq<Block>, text: seq<Block>, calls: seq<Block>)
    ensures FlatMap(read, results + text + calls) == FlatMap(read, results) + FlatMap(read, text) + FlatMap(read, calls)
  {
    FlatMapConcat(read, results, text);
    FlatMapConcat(read, results + text, calls);
  }

  function TextBlocks(text: string): seq<Block> { if text != "" then [TextBlock(text)] else [] }

  lemma TextReadBack(results: seq<ToolResult>, text: string, calls: seq<ToolCall>)
    ensures FlatMap(TextOf, Map(AsResultBlock, results) + TextBlocks(text) + Map(AsUseBlock, calls)) == text
  {
    ReadParts(TextOf, Map(AsResultBlock, results), TextBlocks(text), Map(AsUseBlock, calls));
    forall b | b in Map(AsResultBlock, results) || b in Map(AsUseBlock, calls) ensures TextOf(b) == [] {}
    ReadNothing(Map(AsResultBlock, results), TextOf);
    ReadNothing(Map(AsUseBlock, calls), TextOf);
    if text != "" {
      assert TextBlocks(text)[..0] == [];
      assert FlatMap(TextOf, TextBlocks(text)) == FlatMap(TextOf, []) + TextOf(TextBlock(text));
    }
  }

  lemma CallsReadBack(results: seq<ToolResult>, text: string, calls: seq<ToolCall>)
    ensures FlatMap(CallOf, Map(AsResultBlock, results) + TextBlocks(text) + Map(AsUseBlock, calls)) == calls
  {
    ReadParts(CallOf, Map(AsResultBlock, results), TextBlocks(text), Map(AsUseBlock, calls));
    ReadNothing(Map(AsResultBlock, results), CallOf);
    ReadNothing(TextBlocks(text), CallOf);
    ReadBack(calls, AsUseBlock, CallOf);
  }

  lemma ResultsReadBack(results: seq<ToolResult>, text: string, calls: seq<ToolCall>)
    ensures FlatMap(ResultOf, Map(AsResultBlock, results) + TextBlocks(text) + Map(AsUseBlock, calls)) == results
  {
    ReadParts(ResultOf, Map(AsResultBlock, results), TextBlocks(text), Map(AsUseBlock, calls));
    ReadBack(results, AsResultBlock, ResultOf);
    ReadNothing(TextBlocks(text), ResultOf);
    ReadNothing(Map(AsUseBlock, calls), ResultOf);
  }

  /** Nothing is lost in the Anthropic translation: the neutral message can be read back. */
  lemma AnthropicRoundTrip(m: ToolChatMessage)
    ensures FromAnthropic(AnthropicForm(m)) == m
  {
    TextReadBack(m.toolResults, m.text, m.toolCalls);
    CallsReadBack(m.toolResults, m.text, m.toolCalls);
    ResultsReadBack(m.toolResults, m.text, m.toolCalls);
  }

  function UseIdOf(b: Block): seq<string> { match b case UseBlock(id, _, _) => [id] case _ => [] }

  function ResultIdOf(b: Block): seq<string> { match b case ResultBlock(id, _, _) => [id] case _ => [] }

  function UseIds(m: AnthropicMessage): seq<string> { FlatMap(UseIdOf, m.blocks) }

  function ResultIds(m: AnthropicMessage): seq<string> { FlatMap(ResultIdOf, m.blocks) }

  /** The Messages API rule for one message: tool_use blocks only from the assistant, tool_result blocks only from the
      user and before any other block; the tool_use ids are the tool_result ids of the next message, in order. */
  ghost predicate AcceptsAt(out: seq<AnthropicMessage>, i: nat)
    requires i < |out|
  {
    && ResultsFirst(out[i].blocks)
    && (UseIds(out[i]) != [] ==>
          out[i].role.Assistant? && i + 1 < |out| && ResultIds(out[i + 1]) == UseIds(out[i]))
    && (ResultIds(out[i]) != [] ==>
          out[i].role.User? && i > 0 && UseIds(out[i - 1]) != [])
  }

  ghost predicate AnthropicAccepts(out: seq<AnthropicMessage>) {
    forall i :: 0 <= i < |out| ==> AcceptsAt(out, i)
  }

  ghost predicate ResultsFirst(blocks: seq<Block>) {
    forall j, k :: 0 <= j < k < |blocks| && blocks[k].ResultBlock? ==> blocks[j].ResultBlock?
  }

  lemma AnthropicFormOrdered(m: ToolChatMessage)
    ensures ResultsFirst(AnthropicForm(m).blocks)
  {
    var blocks, n := AnthropicForm(m).blocks, |m.toolResults|;
    forall k | 0 <= k < |blocks| ensures blocks[k].ResultBlock? <==> k < n {
      if k < n {
        assert blocks[k] == AsResultBlock(m.toolResults[k]);
      }
    }
  }

  function IdOf(c: ToolCall): string { c.id }

  function CallIdOf(r: ToolResult): string { r.callId }

  lemma FormUseIds(m: ToolChatMessage)
    ensures UseIds(AnthropicForm(m)) == Map(IdOf, m.toolCalls)
  {
    ReadParts(UseIdOf, Map(AsResultBlock, m.toolResults), TextBlocks(m.text), Map(AsUseBlock, m.toolCalls));
    ReadNothing(Map(AsResultBlock, m.toolResults), UseIdOf);
    ReadNothing(TextBlocks(m.text), UseIdOf);
    ReadKeys(m.toolCalls, AsUseBlock, UseIdOf, IdOf);
  }

  lemma FormResultIds(m: ToolChatMessage)
    ensures ResultIds(AnthropicForm(m)) == Map(CallIdOf, m.toolResults)
  {
    ReadParts(ResultIdOf, Map(AsResultBlock, m.toolResults), TextBlocks(m.text), Map(AsUseBlock, m.toolCalls));
    ReadKeys(m.toolResults, AsResultBlock, ResultIdOf, CallIdOf);
    ReadNothing(TextBlocks(m.text), ResultIdOf);
    ReadNothing(Map(AsUseBlock, m.toolCalls), ResultIdOf);
  }

  lemma AnswersById(calls: seq<ToolCall>, results: seq<ToolResult>)
    ensures Answers(calls, results) <==> Map(CallIdOf, results) == Map(IdOf, calls)
  {
    if Map(CallIdOf, results) == Map(IdOf, calls) {
      forall i | 0 <= i < |calls| ensures results[i].callId == calls[i].id {
        assert Map(CallIdOf, results)[i] == Map(IdOf, calls)[i];
      }
    }
  }

  /** The block rule of a translated message, read off the transcript. */
  ghost predicate AnsweredAt(ms: Transcript, i: nat)
    requires i < |ms|
  {
    && (ms[i].toolCalls != [] ==>
          ms[i].role.Assistant? && i + 1 < |ms| && Answers(ms[i].toolCalls, ms[i + 1].toolResults))
    && (ms[i].toolResults != [] ==> ms[i].role.User? && i > 0 && ms[i - 1].toolCalls != [])
  }

  lemma AcceptsTranslated(ms: Transcript, i: nat)
    requires i < |ms|
    ensures AcceptsAt(Map(AnthropicForm, ms), i) <==> AnsweredAt(ms, i)
  {
    AnthropicFormOrdered(ms[i]);
    FormUseIds(ms[i]);
    FormResultIds(ms[i]);
    if i > 0 {
      FormUseIds(ms[i - 1]);
    }
    if i + 1 < |ms| {
      FormResultIds(ms[i + 1]);
      AnswersById(ms[i].toolCalls, ms[i + 1].toolResults);
    }
  }

  /** The Anthropic translation is accepted exactly when the transcript is well formed. */
  lemma AnthropicTranslationAcceptedIff(ms: Transcript)
    ensures AnthropicAccepts(Map(AnthropicForm, ms)) <==> WellFormed(ms)
  {
    forall i | 0 <= i < |ms| ensures AcceptsAt(Map(AnthropicForm, ms), i) <==> AnsweredAt(ms, i) {
      AcceptsTranslated(ms, i);
    }
    if forall i :: 0 <= i < |ms| ==> AnsweredAt(ms, i) {
      forall i | 0 <= i < |ms| ensures WellFormedAt(ms, i) {
        assert AnsweredAt(ms, i);
        assert i + 1 < |ms| ==> AnsweredAt(ms, i + 1);
      }
    }
    if WellFormed(ms) {
      forall i | 0 <= i < |ms| ensures AnsweredAt(ms, i) {
        assert WellFormedAt(ms, i);
      }
    }
  }
}
