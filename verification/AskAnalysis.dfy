/** The Ask analysis loop (ask_analysis.py): table details and read-only queries on demand, within
    budgets of rounds, queries and tables, against any model and any database. */
module AskAnalysis {
  import opened Common
  import opened Schema
  import opened ToolChat
  import opened Discover
  import opened DiscoverProperties
  import Select

  const QUERY_TOOL := "run_exploratory_query"
  const DETAILS_TOOL := "get_table_details"
  const MAX_RESULT_CHARS: nat := 4000

  datatype QueryResult = QueryResult(columns: seq<string>, rows: seq<seq<string>>, rowCount: nat, truncated: bool)

  /** `validate` is the read-only guard; `run` may answer differently on every call. */
  datatype Connector = Connector(
    validate: string -> Result<string, string>, run: (nat, string) -> Result<QueryResult, string>)

  datatype Outcome = Rejected(error: string) | QueryFailed(error: string) | Rows(payload: QueryResult)

  /** `asked` is the statement the model sent, `sql` the one recorded. */
  datatype Finding = Finding(asked: string, sql: string, outcome: Outcome)

  /** _result_payload. */
  function Payload(result: QueryResult, rowCap: nat): QueryResult {
    QueryResult(result.columns, if |result.rows| > rowCap then result.rows[..rowCap] else result.rows,
                result.rowCount, result.truncated || result.rowCount > rowCap)
  }

  /** What a finding shows of a result: its first `rowCap` rows, its true row count, and whether rows are missing. */
  ghost predicate Shows(result: QueryResult, rowCap: nat, payload: QueryResult) {
    && payload.columns == result.columns
    && payload.rows <= result.rows && (|payload.rows| == rowCap || payload.rows == result.rows)
    && |payload.rows| <= rowCap
    && payload.rowCount == result.rowCount
    && (payload.truncated <==> result.truncated || result.rowCount > rowCap)
  }

  /** The `n`-th finding says what the guard and the database did with the statement the model asked for. */
  ghost predicate Coherent(connector: Connector, rowCap: nat, n: nat, f: Finding) {
    match connector.validate(f.asked)
    case Err(error) => f.sql == f.asked && f.outcome.Rejected? && f.outcome.error == error
    case Ok(safe) =>
      match connector.run(n, safe)
      case Err(error) => f.sql == f.asked && f.outcome.QueryFailed? && f.outcome.error == error
      case Ok(result) => f.sql == safe && f.outcome.Rows? && Shows(result, rowCap, f.outcome.payload)
  }

  ghost predicate AllCoherent(connector: Connector, rowCap: nat, findings: seq<Finding>) {
    forall k {:trigger findings[k]} :: 0 <= k < |findings| ==> Coherent(connector, rowCap, k, findings[k])
  }

  lemma PayloadShows(result: QueryResult, rowCap: nat)
    ensures Shows(result, rowCap, Payload(result, rowCap))
  {}

  /** What the connector is given to run for a finding: the guard's output, or nothing. */
  function RunFor(connector: Connector): Finding -> seq<string> {
    (f: Finding) => match connector.validate(f.asked) case Ok(safe) => [safe] case Err(_) => []
  }

  lemma FindingRecorded(connector: Connector, rowCap: nat, findings: seq<Finding>, f: Finding)
    requires AllCoherent(connector, rowCap, findings) && Coherent(connector, rowCap, |findings|, f)
    ensures AllCoherent(connector, rowCap, findings + [f])
    ensures FlatMap(RunFor(connector), findings + [f]) == FlatMap(RunFor(connector), findings) + RunFor(connector)(f)
  {
    assert (findings + [f])[..|findings|] == findings;
  }

  /** What the tool calls so far were allowed to do: the statements taken on, and the details calls executed. */
  datatype Spending = Spending(asked: seq<string>, granted: seq<ToolCall>)

  function Spend(tables: seq<TableInfo>, s: Spending, call: ToolCall, maxQueries: int, maxTables: int): Spending {
    if call.name == QUERY_TOOL then
      if |s.asked| >= maxQueries then s else s.(asked := s.asked + [call.input.sql])
    else if call.name == DETAILS_TOOL then s.(granted := Grant(tables, s.granted, call, maxTables))
    else s
  }

  /** After the first `n` of `calls`. */
  function SpentFrom(tables: seq<TableInfo>, s: Spending, calls: seq<ToolCall>, n: nat, maxQueries: int,
                     maxTables: int): Spending
    requires n <= |calls|
  {
    if n == 0 then s
    else Spend(tables, SpentFrom(tables, s, calls, n - 1, maxQueries, maxTables), calls[n - 1], maxQueries, maxTables)
  }

  /** After a whole run. */
  function Spent(tables: seq<TableInfo>, replies: seq<ChatOutcome>, maxQueries: int, maxTables: int): Spending {
    if replies == [] then Spending([], [])
    else
      var calls := CallsIn(replies[|replies| - 1]);
      SpentFrom(tables, Spent(tables, replies[..|replies| - 1], maxQueries, maxTables), calls, |calls|, maxQueries, maxTables)
  }

  lemma SpentSnoc(tables: seq<TableInfo>, replies: seq<ChatOutcome>, outcome: ChatOutcome, maxQueries: int,
                  maxTables: int)
    ensures Spent(tables, replies + [outcome], maxQueries, maxTables)
         == SpentFrom(tables, Spent(tables, replies, maxQueries, maxTables), CallsIn(outcome), |CallsIn(outcome)|,
                      maxQueries, maxTables)
  {
    assert (replies + [outcome])[..|replies|] == replies;
  }

  // ------------------------------------------------- what the model is told

  const QUERY_LIMIT_REACHED := "Query limit reached. Proceed with what you have."

  /** How a query result is shown to the model, before it is cut. */
  type Show = QueryResult -> string

  /** A result is cut after 4000 characters, and says so. */
  function Capped(text: string): (r: string)
    ensures |text| <= 4000 ==> r == text
    ensures |text| > 4000 ==> r == text[..4000] + "... (result truncated)\""
  {
    if |text| > MAX_RESULT_CHARS then text[..MAX_RESULT_CHARS] + "... (result truncated)\"" else text
  }

  /** The fixed part of a run: database, tables, how both are shown, and the limits. */
  datatype Setting = Setting(tables: seq<TableInfo>, connector: Connector, rowCap: nat, show: Show, render: Render,
                             maxQueries: int, maxTables: int)

  /** The answer to the `n`-th statement: what the guard said, how the database failed, or the rows. */
  ghost predicate AnswersQuery(connector: Connector, rowCap: nat, show: Show, n: nat, call: ToolCall, r: ToolResult) {
    && r.callId == call.id
    && match connector.validate(call.input.sql)
       case Err(error) => r.isError && r.content == "Rejected by the read-only guard: " + error
       case Ok(safe) =>
         match connector.run(n, safe)
         case Err(error) => r.isError && r.content == "Query failed: " + error
         case Ok(result) => !r.isError && r.content == Capped(show(Payload(result, rowCap)))
  }

  /** The answer to a call after `s` was spent: refused exactly when the budget of its tool is spent. */
  ghost predicate AnswersTool(w: Setting, s: Spending, call: ToolCall, r: ToolResult) {
    if call.name == QUERY_TOOL then
      if |s.asked| >= w.maxQueries then r == ToolResult(call.id, QUERY_LIMIT_REACHED, true)
      else AnswersQuery(w.connector, w.rowCap, w.show, |s.asked|, call, r)
    else if call.name == DETAILS_TOOL then AnswersDetails(w.tables, s.granted, call, w.maxTables, w.render, r)
    else r == ToolResult(call.id, "Unknown tool '" + call.name + "'.", true)
  }

  ghost predicate AnswersNth(w: Setting, s: Spending, calls: seq<ToolCall>, c: nat, r: ToolResult) {
    c < |calls| && AnswersTool(w, SpentFrom(w.tables, s, calls, c, w.maxQueries, w.maxTables), calls[c], r)
  }

  ghost predicate AnswersTools(w: Setting, s: Spending, calls: seq<ToolCall>, n: nat, results: seq<ToolResult>) {
    && |results| == n
    && forall c: nat {:trigger AnswersNth(w, s, calls, c, results[c])} ::
         c < n ==> AnswersNth(w, s, calls, c, results[c])
  }

  lemma AnswersToolsNext(w: Setting, before: Spending, s: Spending, calls: seq<ToolCall>, n: nat,
                         results: seq<ToolResult>, r: ToolResult)
    requires AnswersTools(w, before, calls, n, results)
    requires n < |calls| && s == SpentFrom(w.tables, before, calls, n, w.maxQueries, w.maxTables)
    requires AnswersTool(w, s, calls[n], r)
    ensures AnswersTools(w, before, calls, n + 1, results + [r])
  {
    var all := results + [r];
    forall c: nat | c < n + 1 ensures AnswersNth(w, before, calls, c, all[c]) {
      assert c < n ==> AnswersNth(w, before, calls, c, results[c]) && all[c] == results[c];
    }
  }

  lemma AnswersToolsById(w: Setting, before: Spending, calls: seq<ToolCall>, results: seq<ToolResult>)
    requires AnswersTools(w, before, calls, |calls|, results)
    ensures Answers(calls, results)
  {
    forall c: nat | c < |calls| ensures results[c].callId == calls[c].id {
      assert AnswersNth(w, before, calls, c, results[c]);
    }
  }

  /** The answers due to the last of these replies, given what the replies before it spent. */
  ghost predicate AnswersTurn(w: Setting, replies: seq<ChatOutcome>, results: seq<ToolResult>) {
    && replies != []
    && var calls := CallsIn(replies[|replies| - 1]);
       AnswersTools(w, Spent(w.tables, replies[..|replies| - 1], w.maxQueries, w.maxTables), calls, |calls|, results)
  }

  ghost function ToolsDue(w: Setting): Due {
    (replies: seq<ChatOutcome>, results: seq<ToolResult>) => AnswersTurn(w, replies, results)
  }

  lemma ToolsAreDue(w: Setting, before: seq<ChatOutcome>, reply: ChatOutcome, results: seq<ToolResult>)
    requires AnswersTools(w, Spent(w.tables, before, w.maxQueries, w.maxTables), CallsIn(reply), |CallsIn(reply)|, results)
    ensures ToolsDue(w)(before + [reply], results)
  {
    assert (before + [reply])[..|before|] == before;
  }

  // ---------------------------------------------------------------- the loop

  /** Nothing ends the loop at the last of these replies. */
  ghost predicate AsksOn(tables: seq<TableInfo>, replies: seq<ChatOutcome>, maxQueries: int, maxTables: int,
                         render: Render, maxTokens: int)
  {
    && replies != []
    && MayGoOn(replies[|replies| - 1], Expansion(tables, Spent(tables, replies, maxQueries, maxTables).granted), render,
               maxTables, maxTokens)
  }

  /** The loop had no reason to stop at any of the first `n` replies. */
  ghost predicate KeepsOn(tables: seq<TableInfo>, replies: seq<ChatOutcome>, n: nat, maxQueries: int, maxTables: int,
                          render: Render, maxTokens: int)
    requires n <= |replies|
  {
    forall k {:trigger AsksOn(tables, replies[..k], maxQueries, maxTables, render, maxTokens)} ::
      0 < k <= n ==> AsksOn(tables, replies[..k], maxQueries, maxTables, render, maxTokens)
  }

  lemma KeepsOnStill(tables: seq<TableInfo>, replies: seq<ChatOutcome>, outcome: ChatOutcome, maxQueries: int,
                     maxTables: int, render: Render, maxTokens: int)
    requires KeepsOn(tables, replies, |replies|, maxQueries, maxTables, render, maxTokens)
    ensures KeepsOn(tables, replies + [outcome], |replies|, maxQueries, maxTables, render, maxTokens)
  {
    forall k | 0 < k <= |replies|
      ensures AsksOn(tables, (replies + [outcome])[..k], maxQueries, maxTables, render, maxTokens)
    {
      assert AsksOn(tables, replies[..k], maxQueries, maxTables, render, maxTokens);
      assert (replies + [outcome])[..k] == replies[..k];
    }
  }

  lemma KeepsOnNow(tables: seq<TableInfo>, replies: seq<ChatOutcome>, spent: Spending, expanded: seq<TableInfo>,
                   maxQueries: int, maxTables: int, render: Render, maxTokens: int)
    requires replies != [] && KeepsOn(tables, replies, |replies| - 1, maxQueries, maxTables, render, maxTokens)
    requires spent == Spent(tables, replies, maxQueries, maxTables) && Tracks(tables, spent.granted, expanded)
    requires MayGoOn(replies[|replies| - 1], expanded, render, maxTables, maxTokens)
    ensures KeepsOn(tables, replies, |replies|, maxQueries, maxTables, render, maxTokens)
  {
    assert expanded == Expansion(tables, Spent(tables, replies, maxQueries, maxTables).granted);
    assert AsksOn(tables, replies, maxQueries, maxTables, render, maxTokens);
    assert replies[..|replies|] == replies;
  }

  function AskedOf(f: Finding): string { f.asked }

  /** The lists the loop and its helpers append to. */
  class Investigation {
    const connector: Connector
    const rowCap: nat
    const show: Show
    const exploration: Exploration
    var findings: seq<Finding>
    var queriesUsed: nat
    var runs: seq<string>           // what the connector was given to run
    ghost var asked: seq<string>    // the statements taken on

    ghost predicate Valid()
      reads this, exploration
    {
      && |findings| == |asked| == queriesUsed
      && (forall k :: 0 <= k < |findings| ==> findings[k].asked == asked[k])
      && AllCoherent(connector, rowCap, findings)
      && runs == FlatMap(RunFor(connector), findings)
      && exploration.Valid()
    }

    ghost function Progress(): Spending
      reads this, exploration
    {
      Spending(asked, exploration.granted)
    }

    /** The setting this works in, under these limits. */
    ghost function Under(maxQueries: int, maxTables: int): Setting {
      Setting(exploration.tables, connector, rowCap, show, exploration.render, maxQueries, maxTables)
    }

    constructor (connector: Connector, rowCap: nat, show: Show, tables: seq<TableInfo>, render: Render)
      ensures Valid() && fresh(exploration) && exploration.tables == tables && exploration.render == render
      ensures Progress() == Spending([], [])
      ensures this.connector == connector && this.rowCap == rowCap && this.show == show
    {
      this.connector, this.rowCap, this.show := connector, rowCap, show;
      exploration := new Exploration(tables, render);
      findings, queriesUsed, runs, asked := [], 0, [], [];
    }

    /** The statement through the guard and, if it passes, the database; `r` is what the model is told. */
    method RunQuery(call: ToolCall, n: nat) returns (f: Finding, r: ToolResult)
      modifies this`runs
      ensures f.asked == call.input.sql && Coherent(connector, rowCap, n, f) && runs == old(runs) + RunFor(connector)(f)
      ensures AnswersQuery(connector, rowCap, show, n, call, r)
    {
      var sql := call.input.sql;
      match connector.validate(sql)
      case Err(error) =>
        return Finding(sql, sql, Rejected(error)),
               ToolResult(call.id, "Rejected by the read-only guard: " + error, true);
      case Ok(safe) =>
        runs := runs + [safe];
        match connector.run(n, safe)
        case Err(error) =>
          return Finding(sql, sql, QueryFailed(error)), ToolResult(call.id, "Query failed: " + error, true);
        case Ok(result) =>
          var payload := Payload(result, rowCap);
          PayloadShows(result, rowCap);
          return Finding(sql, safe, Rows(payload)), ToolResult(call.id, Capped(show(payload)), false);
    }

    /** _execute_query_call, after `queries_used` was incremented. */
    method ExecuteQueryCall(call: ToolCall) returns (r: ToolResult)
      requires Valid()
      modifies this
      ensures Valid() && asked == old(asked) + [call.input.sql]
      ensures AnswersQuery(connector, rowCap, show, |old(asked)|, call, r)
    {
      var f;
      f, r := RunQuery(call, queriesUsed);
      FindingRecorded(connector, rowCap, findings, f);
      queriesUsed := queriesUsed + 1;
      findings := findings + [f];
      asked := asked + [call.input.sql];
    }

    /** One tool call of the loop. */
    method HandleCall(call: ToolCall, maxQueries: int, maxTables: int) returns (r: ToolResult)
      requires Valid()
      modifies this, exploration
      ensures Valid() && Progress() == Spend(exploration.tables, old(Progress()), call, maxQueries, maxTables)
      ensures AnswersTool(Under(maxQueries, maxTables), old(Progress()), call, r)
    {
      if call.name == QUERY_TOOL {
        if queriesUsed >= maxQueries {
          return ToolResult(call.id, QUERY_LIMIT_REACHED, true);
        }
        r := ExecuteQueryCall(call);
      } else if call.name != DETAILS_TOOL {
        r := ToolResult(call.id, "Unknown tool '" + call.name + "'.", true);
      } else {
        r := exploration.HandleDetails(call, maxTables);
      }
    }

    method HandleAll(calls: seq<ToolCall>, maxQueries: int, maxTables: int) returns (results: seq<ToolResult>)
      requires Valid()
      modifies this, exploration
      ensures Valid() && Answers(calls, results)
      ensures Progress() == SpentFrom(exploration.tables, old(Progress()), calls, |calls|, maxQueries, maxTables)
      ensures AnswersTools(Under(maxQueries, maxTables), old(Progress()), calls, |calls|, results)
    {
      results := [];
      ghost var w, start := Under(maxQueries, maxTables), Progress();
      for c := 0 to |calls|
        invariant Valid() && Progress() == SpentFrom(w.tables, start, calls, c, maxQueries, maxTables)
        invariant AnswersTools(w, start, calls, c, results)
      {
        ghost var before := Progress();
        var r := HandleCall(calls[c], maxQueries, maxTables);
        AnswersToolsNext(w, start, before, calls, c, results, r);
        results := results + [r];
      }
      AnswersToolsById(w, start, calls, results);
    }

    ghost predicate After(replies: seq<ChatOutcome>, maxQueries: int, maxTables: int)
      reads this, exploration
    {
      Valid() && Progress() == Spent(exploration.tables, replies, maxQueries, maxTables)
    }

    method Round(provider: ProviderSession, messages: Transcript, usage: TokenUsage, maxQueries: int, maxTables: int,
                 ghost opening: Transcript, ghost due: Due)
      returns (outcome: ChatOutcome, messages': Transcript, usage': TokenUsage)
      requires due == ToolsDue(Under(maxQueries, maxTables))
      requires Asking(provider, opening, due, messages, usage) && After(provider.replies, maxQueries, maxTables)
      modifies provider, this, exploration
      ensures After(provider.replies, maxQueries, maxTables)
      ensures provider.replies == old(provider.replies) + [outcome] && Replied(provider, opening, due, usage')
      ensures CallsIn(outcome) != [] ==> Asking(provider, opening, due, messages', usage')
      ensures ProviderError in provider.replies <==> outcome.ProviderError?
    {
      ghost var before := provider.replies;
      outcome, usage' := Ask(provider, messages, usage, opening, due);
      SpentSnoc(exploration.tables, before, outcome, maxQueries, maxTables);
      messages' := messages;
      if outcome.Turn? && outcome.turn.toolCalls != [] {
        var results := HandleAll(outcome.turn.toolCalls, maxQueries, maxTables);
        ToolsAreDue(Under(maxQueries, maxTables), before, outcome, results);
        Resume(provider, opening, due, messages, usage', outcome.turn, results);
        messages' := messages + Exchange(outcome.turn, results);
      }
    }

    /** The rounds of run_ask_analysis_loop. */
    method Investigate(provider: ProviderSession, question: string, maxRounds: int, maxQueries: int,
                       maxTables: int, maxTokens: int)
      returns (failed: bool, notice: Option<Notice>, usage: TokenUsage)
      requires provider.Unused() && Valid() && Progress() == Spending([], [])
      modifies provider, this, exploration
      ensures After(provider.replies, maxQueries, maxTables)
      ensures 1 <= |provider.replies| <= Rounds(maxRounds) && (failed <==> ProviderError in provider.replies)
      ensures Replied(provider, [UserText("Question: " + question)], ToolsDue(Under(maxQueries, maxTables)), usage)
      ensures !failed ==>
        EndsWith(provider.replies[|provider.replies| - 1], exploration.expanded, exploration.render, maxTables, maxTokens,
                 maxRounds, |provider.replies|, Listed(notice))
      ensures KeepsOn(exploration.tables, provider.replies, |provider.replies| - 1, maxQueries, maxTables,
                      exploration.render, maxTokens)
    {
      var messages := [UserText("Question: " + question)];
      ghost var opening, due := messages, ToolsDue(Under(maxQueries, maxTables));
      usage, notice := NO_USAGE, None;
      for round := 0 to Rounds(maxRounds)
        invariant After(provider.replies, maxQueries, maxTables)
        invariant Asking(provider, opening, due, messages, usage) && |provider.replies| == round
        invariant KeepsOn(exploration.tables, provider.replies, round, maxQueries, maxTables, exploration.render, maxTokens)
        invariant round > 0 ==>
          MayGoOn(provider.replies[round - 1], exploration.expanded, exploration.render, maxTables, maxTokens)
      {
        ghost var before := provider.replies;
        var outcome;
        outcome, messages, usage := Round(provider, messages, usage, maxQueries, maxTables, opening, due);
        KeepsOnStill(exploration.tables, before, outcome, maxQueries, maxTables, exploration.render, maxTokens);
        assert provider.replies[round] == outcome;
        if outcome.ProviderError? {
          return true, None, usage;
        }
        if outcome.turn.toolCalls == [] {
          return false, None, usage;
        }
        if |exploration.expanded| >= maxTables {
          return false, Some(TableLimit), usage;
        }
        if EstimateTokens(exploration.render(exploration.expanded)) > maxTokens {
          return false, Some(TokenBudget), usage;
        }
        KeepsOnNow(exploration.tables, provider.replies, Progress(), exploration.expanded, maxQueries, maxTables,
                   exploration.render, maxTokens);
      }
      return false, Some(RoundLimit), usage;
    }
  }

  datatype Basis = Details(chosen: seq<TableInfo>) | Lexical(selected: Select.SelectedSchema)

  /** What the returned text is rendered from. */
  datatype AnalysisBlock = AnalysisBlock(
    basis: Basis, findings: seq<Finding>, notices: seq<Notice>, usage: TokenUsage, sent: nat, total: nat)

  /** _fallback: the lexical selection after the reason, keeping the findings. */
  function Degraded(tables: seq<TableInfo>, question: string, maxTokens: int, usage: TokenUsage,
                    findings: seq<Finding>, reason: Notice): AnalysisBlock
  {
    var selected := Select.Selection(tables, question, maxTokens);
    AnalysisBlock(Lexical(selected), findings, [reason] + Map(Wrap, selected.warnings), usage,
                  selected.sent, selected.total)
  }

  ghost predicate Concluded(tables: seq<TableInfo>, question: string, maxRounds: int, maxTables: int, render: Render,
                            maxTokens: int, replies: seq<ChatOutcome>, granted: seq<ToolCall>, r: AnalysisBlock)
  {
    var expanded := Expansion(tables, granted);
    var chosen := ChosenFrom(tables, QualifiedNames(expanded));
    && r.usage == TotalUsage(replies)
    && if ProviderError in replies then
         r == Degraded(tables, question, maxTokens, r.usage, r.findings, Unavailable)
       else if expanded == [] then
         r == Degraded(tables, question, maxTokens, r.usage, r.findings, NothingRequested)
       else
         && replies != []
         && r == AnalysisBlock(Details(chosen), r.findings, r.notices, r.usage, |chosen|, |tables|)
         && EndsWith(replies[|replies| - 1], expanded, render, maxTables, maxTokens, maxRounds, |replies|, r.notices)
  }

  /** run_ask_analysis_loop. `render` and `show` are the JSON forms of table details and of a query result. */
  method RunAskAnalysisLoop(provider: ProviderSession, connector: Connector, tables: seq<TableInfo>, question: string,
                            maxRounds: int, maxQueries: int, maxTables: int, render: Render, show: Show, maxTokens: int,
                            rowCap: nat)
    returns (r: AnalysisBlock, runs: seq<string>)
    requires provider.Unused()
    modifies provider
    ensures 1 <= |provider.asked| == |provider.replies| <= (if maxRounds > 1 then maxRounds else 1)
    ensures Replied(provider, [UserText("Question: " + question)],
                    ToolsDue(Setting(tables, connector, rowCap, show, render, maxQueries, maxTables)), r.usage)
    ensures KeepsOn(tables, provider.replies, |provider.replies| - 1, maxQueries, maxTables, render, maxTokens)
    ensures AllCoherent(connector, rowCap, r.findings) && runs == FlatMap(RunFor(connector), r.findings)
    ensures var spent := Spent(tables, provider.replies, maxQueries, maxTables);
            && Map(AskedOf, r.findings) == spent.asked
            && Concluded(tables, question, maxRounds, maxTables, render, maxTokens, provider.replies, spent.granted, r)
  {
    var work := new Investigation(connector, rowCap, show, tables, render);
    var failed, notice, usage := work.Investigate(provider, question, maxRounds, maxQueries, maxTables, maxTokens);
    runs := work.runs;
    if failed {
      r := Degraded(tables, question, maxTokens, usage, work.findings, Unavailable);
    } else if work.exploration.expanded == [] {
      r := Degraded(tables, question, maxTokens, usage, work.findings, NothingRequested);
    } else {
      var chosen := ChosenFrom(tables, QualifiedNames(work.exploration.expanded));
      r := AnalysisBlock(Details(chosen), work.findings, Listed(notice), usage, |chosen|, |tables|);
    }
  }

  /** The database only ever sees statements the guard returned, at most one per finding. */
  lemma {:induction false} OnlyGuardedSqlRuns(connector: Connector, findings: seq<Finding>)
    ensures var runs := FlatMap(RunFor(connector), findings);
            && |runs| <= |findings|
            && forall k :: 0 <= k < |runs| ==>
                 exists f :: f in findings && connector.validate(f.asked) == Ok(runs[k])
  {
    if findings != [] {
      var last := |findings| - 1;
      OnlyGuardedSqlRuns(connector, findings[..last]);
      var runs := FlatMap(RunFor(connector), findings);
      var before := FlatMap(RunFor(connector), findings[..last]);
      forall k | 0 <= k < |runs| ensures exists f :: f in findings && connector.validate(f.asked) == Ok(runs[k]) {
        if k < |before| {
          var f :| f in findings[..last] && connector.validate(f.asked) == Ok(before[k]);
          assert f in findings;
        } else {
          assert findings[last] in findings;
        }
      }
    }
  }

  // -------------------------------------------------- what the budgets allow

  function Named(name: string, calls: seq<ToolCall>): seq<ToolCall> {
    if calls == [] then []
    else Named(name, calls[..|calls| - 1]) + (if calls[|calls| - 1].name == name then [calls[|calls| - 1]] else [])
  }

  lemma NamedSnoc(name: string, calls: seq<ToolCall>, call: ToolCall)
    ensures Named(name, calls + [call]) == Named(name, calls) + (if call.name == name then [call] else [])
  {
    assert (calls + [call])[..|calls|] == calls;
  }

  function SqlOf(call: ToolCall): string { call.input.sql }

  /** The first queries up to the limit, and the details calls up to the table limit. */
  ghost predicate Allows(tables: seq<TableInfo>, calls: seq<ToolCall>, s: Spending, maxQueries: int, maxTables: int) {
    && s.asked == First(Map(SqlOf, Named(QUERY_TOOL, calls)), if maxQueries > 0 then maxQueries else 0)
    && UntilLimit(tables, s.granted, Named(DETAILS_TOOL, calls), maxTables)
  }

  lemma SpendAllows(tables: seq<TableInfo>, calls: seq<ToolCall>, s: Spending, call: ToolCall, maxQueries: int,
                    maxTables: int)
    requires Allows(tables, calls, s, maxQueries, maxTables)
    ensures Allows(tables, calls + [call], Spend(tables, s, call, maxQueries, maxTables), maxQueries, maxTables)
  {
    NamedSnoc(QUERY_TOOL, calls, call);
    NamedSnoc(DETAILS_TOOL, calls, call);
    if call.name == QUERY_TOOL {
      var before := Named(QUERY_TOOL, calls);
      assert Map(SqlOf, before + [call]) == Map(SqlOf, before) + [call.input.sql];
    } else if call.name == DETAILS_TOOL {
      GrantUntilLimit(tables, s.granted, Named(DETAILS_TOOL, calls), call, maxTables);
    }
  }

  lemma {:induction false} SpentFromAllows(tables: seq<TableInfo>, before: seq<ToolCall>, s: Spending,
                                           calls: seq<ToolCall>,
                                           n: nat, maxQueries: int, maxTables: int)
    requires n <= |calls| && Allows(tables, before, s, maxQueries, maxTables)
    ensures Allows(tables, Appended(before, calls, n), SpentFrom(tables, s, calls, n, maxQueries, maxTables),
                   maxQueries, maxTables)
  {
    if n > 0 {
      SpentFromAllows(tables, before, s, calls, n - 1, maxQueries, maxTables);
      SpendAllows(tables, Appended(before, calls, n - 1), SpentFrom(tables, s, calls, n - 1, maxQueries, maxTables),
                  calls[n - 1], maxQueries, maxTables);
    }
  }

  /** Over a whole run: the first `maxQueries` statements the model asked for are taken on, in order, and its
      details calls are executed in order until the table limit is reached. */
  lemma {:induction false} BudgetsAllow(tables: seq<TableInfo>, replies: seq<ChatOutcome>, maxQueries: int,
                                        maxTables: int)
    ensures Allows(tables, CallsOf(replies), Spent(tables, replies, maxQueries, maxTables), maxQueries, maxTables)
  {
    if replies != [] {
      var last := |replies| - 1;
      var calls := CallsIn(replies[last]);
      BudgetsAllow(tables, replies[..last], maxQueries, maxTables);
      SpentFromAllows(tables, CallsOf(replies[..last]), Spent(tables, replies[..last], maxQueries, maxTables), calls, |calls|,
                      maxQueries, maxTables);
      AppendedAll(CallsOf(replies[..last]), calls, |calls|);
      assert calls[..|calls|] == calls;
    }
  }
}
