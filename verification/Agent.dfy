/** The analysis agent (analysis/agent.py): an unbounded loop held by a query budget. */
module Agent {
  import opened Common
  import opened ToolChat
  import opened AskAnalysis
  import Discover

  const MAX_QUERIES: nat := 5
  const MAX_RESULT_ROWS: nat := 100
  const FINAL_PROMPT := "Give your final answer now, based only on the data gathered so far."
  const NO_ANSWER := "The analysis could not produce an answer from the available data."

  /** One run_sql attempt. `connectionId` is `None` when the model named no listed connection. */
  datatype AnalysisStep = AnalysisStep(
    connectionId: Option<int>, sql: string, rowCount: Option<nat>, error: Option<string>)

  /** The step tells what became of the call: unknown connection, refused, failed or answered. */
  ghost predicate Describes(sources: map<int, Connector>, n: nat, call: ToolCall, step: AnalysisStep) {
    var id := if call.input.connectionId.Some? then call.input.connectionId.value else -1;
    if id !in sources then step.connectionId == None && step.sql == call.input.sql && step.error.Some? && step.rowCount == None
    else
      && step.connectionId == Some(id)
      && match sources[id].validate(call.input.sql)
         case Err(_) => step.sql == call.input.sql && step.error.Some? && step.rowCount == None
         case Ok(safe) =>
           && step.sql == safe
           && match sources[id].run(n, safe)
              case Err(_) => step.error.Some? && step.rowCount == None
              case Ok(result) => step.error == None && step.rowCount == Some(result.rowCount)
  }

  ghost predicate DescribesAll(sources: map<int, Connector>, calls: seq<ToolCall>, steps: seq<AnalysisStep>) {
    |steps| == |calls| && forall k {:trigger steps[k]} :: 0 <= k < |steps| ==> Describes(sources, k, calls[k], steps[k])
  }

  lemma DescribesOneMore(sources: map<int, Connector>, calls: seq<ToolCall>, steps: seq<AnalysisStep>, call: ToolCall,
                         step: AnalysisStep)
    requires DescribesAll(sources, calls, steps) && Describes(sources, |steps|, call, step)
    ensures DescribesAll(sources, calls + [call], steps + [step])
  {}

  /** One more call is executed unless the query budget is spent. */
  function Execute(executed: seq<ToolCall>, call: ToolCall): seq<ToolCall> {
    if |executed| >= MAX_QUERIES then executed else executed + [call]
  }

  function ExecutedFrom(executed: seq<ToolCall>, calls: seq<ToolCall>, n: nat): seq<ToolCall>
    requires n <= |calls|
  {
    if n == 0 then executed else Execute(ExecutedFrom(executed, calls, n - 1), calls[n - 1])
  }

  function Executed(replies: seq<ChatOutcome>): seq<ToolCall> {
    if replies == [] then []
    else
      var calls := CallsIn(replies[|replies| - 1]);
      ExecutedFrom(Executed(replies[..|replies| - 1]), calls, |calls|)
  }

  lemma ExecutedSnoc(replies: seq<ChatOutcome>, outcome: ChatOutcome)
    ensures Executed(replies + [outcome]) == ExecutedFrom(Executed(replies), CallsIn(outcome), |CallsIn(outcome)|)
  {
    assert (replies + [outcome])[..|replies|] == replies;
  }

  lemma {:induction false} ExecutedFromFirst(before: seq<ToolCall>, calls: seq<ToolCall>, n: nat)
    requires n <= |calls|
    ensures ExecutedFrom(First(before, MAX_QUERIES), calls, n) == First(Appended(before, calls, n), MAX_QUERIES)
  {
    if n > 0 {
      ExecutedFromFirst(before, calls, n - 1);
    }
  }

  /** Whatever the model does, its first MAX_QUERIES calls are the ones executed, in order. */
  lemma {:induction false} ExecutesTheFirst(replies: seq<ChatOutcome>)
    ensures Executed(replies) == First(CallsOf(replies), MAX_QUERIES)
  {
    if replies != [] {
      var last := |replies| - 1;
      var calls := CallsIn(replies[last]);
      ExecutesTheFirst(replies[..last]);
      ExecutedFromFirst(CallsOf(replies[..last]), calls, |calls|);
      AppendedAll(CallsOf(replies[..last]), calls, |calls|);
      assert calls[..|calls|] == calls;
    }
  }

  // ------------------------------------------------- what the model is told

  const BUDGET_SPENT := "Query limit reached. Answer with what you have."

  /** The answer to the `n`-th executed call: unknown connection, guard error, database error, or the rows. */
  ghost predicate AnswersSql(sources: map<int, Connector>, show: Show, n: nat, call: ToolCall, r: ToolResult) {
    var id := if call.input.connectionId.Some? then call.input.connectionId.value else -1;
    if id !in sources then r == ToolResult(call.id, "Unknown connection_id.", true)
    else AnswersQuery(sources[id], 100, show, n, call, r)
  }

  /** Refused exactly when the query budget was spent before. */
  ghost predicate AnswersCall(sources: map<int, Connector>, show: Show, executed: seq<ToolCall>, call: ToolCall,
                              r: ToolResult)
  {
    if |executed| >= MAX_QUERIES then r == ToolResult(call.id, BUDGET_SPENT, true)
    else AnswersSql(sources, show, |executed|, call, r)
  }

  ghost predicate AnswersNth(sources: map<int, Connector>, show: Show, before: seq<ToolCall>, calls: seq<ToolCall>,
                             c: nat, r: ToolResult)
  {
    c < |calls| && AnswersCall(sources, show, ExecutedFrom(before, calls, c), calls[c], r)
  }

  ghost predicate AnswersCalls(sources: map<int, Connector>, show: Show, before: seq<ToolCall>, calls: seq<ToolCall>,
                               n: nat, results: seq<ToolResult>)
  {
    && |results| == n
    && forall c: nat {:trigger AnswersNth(sources, show, before, calls, c, results[c])} ::
         c < n ==> AnswersNth(sources, show, before, calls, c, results[c])
  }

  lemma AnswersCallsNext(sources: map<int, Connector>, show: Show, before: seq<ToolCall>, executed: seq<ToolCall>,
                         calls: seq<ToolCall>, n: nat, results: seq<ToolResult>, r: ToolResult)
    requires AnswersCalls(sources, show, before, calls, n, results)
    requires n < |calls| && Some(executed) == Some(ExecutedFrom(before, calls, n))
    requires AnswersCall(sources, show, executed, calls[n], r)
    ensures AnswersCalls(sources, show, before, calls, n + 1, results + [r])
  {
    var all := results + [r];
    forall c: nat | c < n + 1 ensures AnswersNth(sources, show, before, calls, c, all[c]) {
      assert c < n ==> AnswersNth(sources, show, before, calls, c, results[c]) && all[c] == results[c];
    }
  }

  lemma AnswersCallsById(sources: map<int, Connector>, show: Show, before: seq<ToolCall>, calls: seq<ToolCall>,
                         results: seq<ToolResult>)
    requires AnswersCalls(sources, show, before, calls, |calls|, results)
    ensures Answers(calls, results)
  {
    forall c: nat | c < |calls| ensures results[c].callId == calls[c].id {
      assert AnswersNth(sources, show, before, calls, c, results[c]);
    }
  }

  /** The answers due to the last of these replies, given what the replies before it executed. */
  ghost predicate AnswersTurn(sources: map<int, Connector>, show: Show, replies: seq<ChatOutcome>,
                              results: seq<ToolResult>)
  {
    && replies != []
    && var calls := CallsIn(replies[|replies| - 1]);
       AnswersCalls(sources, show, Executed(replies[..|replies| - 1]), calls, |calls|, results)
  }

  ghost function SqlDue(sources: map<int, Connector>, show: Show): Due {
    (replies: seq<ChatOutcome>, results: seq<ToolResult>) => AnswersTurn(sources, show, replies, results)
  }

  lemma SqlIsDue(sources: map<int, Connector>, show: Show, before: seq<ChatOutcome>, reply: ChatOutcome,
                 results: seq<ToolResult>)
    requires AnswersCalls(sources, show, Executed(before), CallsIn(reply), |CallsIn(reply)|, results)
    ensures SqlDue(sources, show)(before + [reply], results)
  {
    assert (before + [reply])[..|before|] == before;
  }

  // ----------------------------------------------------------------- the run

  class AnalysisRun {
    const sources: map<int, Connector>
    const show: Show
    var steps: seq<AnalysisStep>
    var queriesUsed: nat
    ghost var executed: seq<ToolCall>

    ghost predicate Valid()
      reads this
    {
      |steps| == |executed| == queriesUsed <= MAX_QUERIES && DescribesAll(sources, executed, steps)
    }

    constructor (sources: map<int, Connector>, show: Show)
      ensures Valid() && this.sources == sources && this.show == show && executed == []
    {
      this.sources, this.show := sources, show;
      steps, queriesUsed, executed := [], 0, [];
    }

    /** The last step is filled in as its statement goes through the guard and the database. */
    method FillIn(call: ToolCall, id: int) returns (r: ToolResult)
      requires call.input.connectionId == Some(id) || (call.input.connectionId == None && id == -1)
      requires steps != [] && id in sources
      requires steps[|steps| - 1] == AnalysisStep(Some(id), call.input.sql, None, None)
      modifies this`steps
      ensures |steps| == |old(steps)| && steps[..|steps| - 1] == old(steps[..|steps| - 1])
      ensures Describes(sources, |steps| - 1, call, steps[|steps| - 1])
      ensures AnswersSql(sources, show, |steps| - 1, call, r)
    {
      var n := |steps| - 1;
      match sources[id].validate(call.input.sql)
      case Err(error) =>
        steps := steps[n := steps[n].(error := Some("Rejected by the read-only guard: " + error))];
        return ToolResult(call.id, steps[n].error.value, true);
      case Ok(safe) =>
        steps := steps[n := steps[n].(sql := safe)];
        match sources[id].run(n, safe)
        case Err(error) =>
          steps := steps[n := steps[n].(error := Some("Query failed: " + error))];
          return ToolResult(call.id, steps[n].error.value, true);
        case Ok(result) =>
          steps := steps[n := steps[n].(rowCount := Some(result.rowCount))];
          return ToolResult(call.id, Capped(show(Payload(result, MAX_RESULT_ROWS))), false);
    }

    /** _execute_tool_call: appends a step and answers the call. */
    method ExecuteToolCall(call: ToolCall) returns (r: ToolResult)
      requires Valid() && queriesUsed < MAX_QUERIES
      modifies this
      ensures Valid() && queriesUsed == old(queriesUsed) + 1 && executed == old(executed) + [call]
      ensures steps[..old(queriesUsed)] == old(steps)
      ensures AnswersSql(sources, show, |old(executed)|, call, r)
    {
      ghost var before := steps;
      queriesUsed := queriesUsed + 1;
      var id := if call.input.connectionId.Some? then call.input.connectionId.value else -1;
      if id !in sources {
        steps := steps + [AnalysisStep(None, call.input.sql, None, Some("Unknown connection_id."))];
        r := ToolResult(call.id, "Unknown connection_id.", true);
      } else {
        steps := steps + [AnalysisStep(Some(id), call.input.sql, None, None)];
        r := FillIn(call, id);
      }
      assert steps[..|steps| - 1] == before && steps == before + [steps[|before|]];
      DescribesOneMore(sources, executed, before, call, steps[|before|]);
      executed := executed + [call];
    }

    /** Every call of a turn is answered; past the budget with an error and no step. */
    method HandleAll(calls: seq<ToolCall>) returns (results: seq<ToolResult>)
      requires Valid()
      modifies this
      ensures Valid() && Answers(calls, results)
      ensures executed == ExecutedFrom(old(executed), calls, |calls|)
      ensures AnswersCalls(sources, show, old(executed), calls, |calls|, results)
      ensures calls != [] ==> queriesUsed > old(queriesUsed) || queriesUsed == MAX_QUERIES
    {
      results := [];
      ghost var start := executed;
      for c := 0 to |calls|
        invariant Valid() && AnswersCalls(sources, show, start, calls, c, results)
        invariant Some(executed) == Some(ExecutedFrom(start, calls, c))
        invariant queriesUsed >= old(queriesUsed)
        invariant c > 0 ==> queriesUsed > old(queriesUsed) || queriesUsed == MAX_QUERIES
      {
        ghost var before := executed;
        var r;
        if queriesUsed >= MAX_QUERIES {
          r := ToolResult(calls[c].id, BUDGET_SPENT, true);
        } else {
          r := ExecuteToolCall(calls[c]);
        }
        AnswersCallsNext(sources, show, start, before, calls, c, results, r);
        results := results + [r];
      }
      AnswersCallsById(sources, show, start, calls, results);
    }
  }

  datatype AgentError = ProviderFailed

  function AnswerOf(last: ChatOutcome): Result<string, AgentError> {
    match last
    case ProviderError => Err(ProviderFailed)
    case Turn(turn) => Ok(if turn.text != "" then turn.text else NO_ANSWER)
  }

  /** The model called tools in the last of these replies, and the query budget was not spent. */
  ghost predicate AsksAgain(replies: seq<ChatOutcome>) {
    replies != [] && CallsIn(replies[|replies| - 1]) != [] && |Executed(replies)| < MAX_QUERIES
  }

  /** The loop had no reason to stop at any of the first `n` replies. */
  ghost predicate GoesOn(replies: seq<ChatOutcome>, n: nat)
    requires n <= |replies|
  {
    forall k {:trigger AsksAgain(replies[..k])} :: 0 < k <= n ==> AsksAgain(replies[..k])
  }

  lemma GoesOnStill(replies: seq<ChatOutcome>, outcome: ChatOutcome)
    requires GoesOn(replies, |replies|)
    ensures GoesOn(replies + [outcome], |replies|)
  {
    forall k | 0 < k <= |replies| ensures AsksAgain((replies + [outcome])[..k]) {
      assert AsksAgain(replies[..k]);
      assert (replies + [outcome])[..k] == replies[..k];
    }
  }

  lemma GoesOnNow(replies: seq<ChatOutcome>)
    requires replies != [] && GoesOn(replies, |replies| - 1) && AsksAgain(replies)
    ensures GoesOn(replies, |replies|)
  {
    assert replies[..|replies|] == replies;
  }

  /** The reply ends the run as it is: an error, or an answer in words. */
  predicate Settles(reply: ChatOutcome) { reply.ProviderError? || (reply.turn.toolCalls == [] && reply.turn.text != "") }

  /** The last request, and if its reply called tools, that reply and the answers to its calls. */
  ghost predicate Gathered(provider: ProviderSession, messages: Transcript)
    reads provider
  {
    && provider.asked != [] && |provider.asked| == |provider.replies|
    && var last := |provider.asked| - 1;
       if CallsIn(provider.replies[last]) == [] then messages == provider.asked[last]
       else |provider.answers| == last + 1
            && Continues(provider.asked[last], provider.replies[last], provider.answers[last], messages)
  }

  /** The closing request is everything gathered in the loop, then the request for a final answer. */
  ghost predicate ClosesWith(asked: seq<Transcript>, replies: seq<ChatOutcome>, answers: seq<seq<ToolResult>>, rounds: nat)
  {
    && 0 < rounds < |asked| && rounds <= |replies|
    && var closing := asked[rounds];
       && closing != [] && closing[|closing| - 1] == ToolChatMessage(User, FINAL_PROMPT, [], [])
       && if CallsIn(replies[rounds - 1]) == [] then closing[..|closing| - 1] == asked[rounds - 1]
          else
            && rounds <= |answers|
            && Continues(asked[rounds - 1], replies[rounds - 1], answers[rounds - 1], closing[..|closing| - 1])
  }

  /** The run is where these replies leave it, with budget left and no reason to stop. */
  ghost predicate Running(run: AnalysisRun, replies: seq<ChatOutcome>)
    reads run
  {
    && run.Valid() && run.queriesUsed < MAX_QUERIES
    && run.executed == Executed(replies) && GoesOn(replies, |replies|)
  }

  /** One turn: ask, and answer every tool call of the reply. */
  method Round(provider: ProviderSession, run: AnalysisRun, messages: Transcript, usage: TokenUsage,
               ghost opening: Transcript, ghost due: Due)
    returns (outcome: ChatOutcome, messages': Transcript, usage': TokenUsage)
    requires due == SqlDue(run.sources, run.show)
    requires Running(run, provider.replies) && Discover.Asking(provider, opening, due, messages, usage)
    modifies provider, run
    ensures run.Valid() && run.executed == Executed(provider.replies)
    ensures run.queriesUsed >= old(run.queriesUsed) + (if CallsIn(outcome) != [] then 1 else 0)
    ensures provider.replies == old(provider.replies) + [outcome] && GoesOn(provider.replies, |old(provider.replies)|)
    ensures Discover.Replied(provider, opening, due, usage') && WellFormed(messages')
    ensures outcome.Turn? ==> Gathered(provider, messages')
    ensures CallsIn(outcome) != [] ==> Discover.Asking(provider, opening, due, messages', usage')
    ensures ProviderError in provider.replies <==> outcome.ProviderError?
  {
    ghost var before := provider.replies;
    outcome, usage' := Discover.Ask(provider, messages, usage, opening, due);
    ExecutedSnoc(before, outcome);
    GoesOnStill(before, outcome);
    messages' := messages;
    if outcome.Turn? && outcome.turn.toolCalls != [] {
      var results := run.HandleAll(outcome.turn.toolCalls);
      SqlIsDue(run.sources, run.show, before, outcome, results);
      Discover.Resume(provider, opening, due, messages, usage', outcome.turn, results);
      messages' := messages + Exchange(outcome.turn, results);
    }
  }

  /** The `while True` of run_analysis: the answer if the model gave one, else the transcript to close with, which is
      the last request, with the answers to the last reply if it called tools. */
  method Converse(provider: ProviderSession, run: AnalysisRun, question: string)
    returns (answer: Option<Result<string, AgentError>>, messages: Transcript, usage: TokenUsage)
    requires provider.Unused() && run.Valid() && run.executed == []
    modifies provider, run
    ensures run.Valid() && run.executed == Executed(provider.replies) && |provider.replies| <= MAX_QUERIES
    ensures Discover.Replied(provider, [UserText("Question: " + question)], SqlDue(run.sources, run.show), usage)
    ensures WellFormed(messages)
    ensures provider.replies != [] && GoesOn(provider.replies, |provider.replies| - 1) && !AsksAgain(provider.replies)
    ensures answer.Some? <==> Settles(provider.replies[|provider.replies| - 1])
    ensures answer.Some? ==> answer.value == AnswerOf(provider.replies[|provider.replies| - 1])
    ensures answer.None? ==> ProviderError !in provider.replies && Gathered(provider, messages)
    ensures answer.Some? && answer.value.Ok? ==> ProviderError !in provider.replies
  {
    messages, usage := [UserText("Question: " + question)], NO_USAGE;
    ghost var opening, due := messages, SqlDue(run.sources, run.show);
    while true
      invariant Running(run, provider.replies) && |provider.replies| <= run.queriesUsed
      invariant Discover.Asking(provider, opening, due, messages, usage)
      decreases MAX_QUERIES - run.queriesUsed
    {
      var outcome;
      outcome, messages, usage := Round(provider, run, messages, usage, opening, due);
      if outcome.ProviderError? {
        return Some(Err(ProviderFailed)), messages, usage;
      }
      if outcome.turn.toolCalls == [] {
        if outcome.turn.text != "" {
          return Some(Ok(outcome.turn.text)), messages, usage;
        }
        return None, messages, usage;
      }
      if run.queriesUsed >= MAX_QUERIES {
        return None, messages, usage;
      }
      GoesOnNow(provider.replies);
    }
  }

  /** run_analysis after its setup. The first `rounds` replies are the loop's; a closing call follows unless the
      last of them settles the run. At most MAX_QUERIES + 1 provider calls, one step for each of the first
      MAX_QUERIES tool calls of the loop, and a non-empty answer unless the provider failed. The requests of the loop
      are one conversation; the closing call asks for an answer after all of it, and only that call forces a text. */
  method RunAnalysis(provider: ProviderSession, sources: map<int, Connector>, show: Show, question: string)
    returns (answer: Result<string, AgentError>, steps: seq<AnalysisStep>, ghost rounds: nat)
    requires provider.Unused()
    modifies provider
    ensures 1 <= |provider.asked| == |provider.replies| <= 6 && AllWellFormed(provider.asked)
    ensures 1 <= rounds <= |provider.replies| <= rounds + 1
    ensures GoesOn(provider.replies[..rounds], rounds - 1) && !AsksAgain(provider.replies[..rounds])
    ensures |provider.replies| == rounds <==> Settles(provider.replies[rounds - 1])
    ensures Conversation([UserText("Question: " + question)], SqlDue(sources, show), provider.asked[..rounds],
                         provider.replies[..rounds], provider.answers)
    ensures |provider.forced| == |provider.asked|
    ensures forall k :: 0 <= k < |provider.forced| ==> (provider.forced[k] <==> k == rounds)
    ensures |provider.asked| > rounds ==>
      ClosesWith(provider.asked, provider.replies, provider.answers, rounds)
    ensures DescribesAll(sources, First(CallsOf(provider.replies[..rounds]), MAX_QUERIES), steps)
    ensures answer.Err? <==> ProviderError in provider.replies
    ensures answer.Ok? ==>
      var last := provider.replies[|provider.replies| - 1];
      last.Turn? && answer.value == (if last.turn.text != "" then last.turn.text else NO_ANSWER)
  {
    var run := new AnalysisRun(sources, show);
    var early, messages, usage := Converse(provider, run, question);
    steps, rounds := run.steps, |provider.replies|;
    assert provider.replies[..rounds] == provider.replies;
    assert provider.asked[..rounds] == provider.asked;
    ExecutesTheFirst(provider.replies);
    if early.Some? {
      assert provider.replies[|provider.replies| - 1] in provider.replies;
      return early.value, steps, rounds;
    }
    AppendText(messages, FINAL_PROMPT);
    var closing := messages + [UserText(FINAL_PROMPT)];
    label Closing:
    var outcome := provider.Chat(closing, true);
    assert provider.replies[|provider.replies| - 1] == outcome;
    assert provider.replies[..rounds] == old@Closing(provider.replies);
    assert provider.asked[..rounds] == old@Closing(provider.asked);
    answer := AnswerOf(outcome);
  }
}
