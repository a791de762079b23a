# Verification model of the natural-language query service

Dafny models, and proofs, of the stateful logic between the web layer and the drivers of an application that
turns questions into read-only SQL: what part of a schema is sent to the language model, how its SQL is
checked and retried, how the agentic loops stay within their budgets, how a streaming request and its
browser client agree on one ending, how chat history and chart data are shaped, and what the stores keep true.

Check everything with `dafny verify dfyconfig.toml`.

## How the model is built

One module per source file; a `...Properties` module holds the theorems of the module it is named after. `SelectRelevance`
and `SqlVerifyMeaning` say what the relevance scores and the verifier's answers mean in terms of the inputs alone.

- Code that changes things step by step is imperative here too: loops are loops, an object or closure whose
  state changes is a class. Each such method is proved against a function of its inputs or of the old state,
  and the promised properties are lemmas about that function.
- Everything foreign is an arbitrary function: the language model (`ToolChat.Model`, `Generate.Backend`), a
  database connector with its read-only guard (`AskAnalysis.Connector`), the Clarity API (`Clarity.Api`), a
  schema fingerprint (`SnapshotCache`). Each may answer differently on every call, so a theorem holds for every
  behaviour, hostile ones included.
- The streaming server is a state machine whose actions are the stretches of its four tasks between two
  `await`s; theorems quantify over every schedule. `AskServerTasks.AskConnection` performs the actions in place.
- `Select` scales the relevance weights by ten to stay in integers (`3.0`, `2.0`, `0.1` become 30, 20, 1).
- The two loops that run SQL record failures differently, and the model keeps that: the Ask analysis keeps the
  statement as the model wrote it, the analysis agent the guard's rewriting (`AskAnalysis.Coherent`, `Agent.Describes`).
- SQL scopes are data: sources, parent, output names, select aliases, column references.

## Where the code and its own words differ

The model follows the code.

- `select_schema` says "bounded by max_tokens". Its text can estimate to one token more (rounding of two parts
  that are joined later), and to any amount when not even the best table fits, which is then sent alone.
  `SelectProperties.BoundedIffSentFits` says for every input exactly when the promise holds, `BoundedIff` reduces it
  to the best table and the rounding where no budgeted name is shared, `BoundedWhenDirectoryCannotCarry` gives a
  condition to check beforehand, and `OvershootWitness` an input that breaks the promise.
- `select_schema` budgets and selects by bare table name, so tables of the same name in other schemas are sent
  without having been budgeted: `ChosenMatchesBudgetedIff`, `SharedNameWitness`.
- `build_history_messages` says "the last max_turns pairs". `pairs[-0:]` keeps every pair and a negative limit
  drops that many from the front: `ChatContext.TurnLimitHoldsIff`.
- It also says a user turn carries the sample of the preceding executed assistant turn. The code takes the sample of
  the answer in the immediately preceding pair, or none, and the first turn sent never has one:
  `ChatContext.SampleIsDropped` is an input, `ChatContext.TurnShowsLatestIff` the exact condition for every turn.
- `plan_combos` is to keep a UTC day's requests within Clarity's limit of ten. A run counts for the day the database
  stamps it with, the start of the transaction, while the budget is read from a later clock. A fetch that starts
  before midnight and reads the clock after it can push the old day over ten: `Clarity.MidnightOverspends` is an
  input, `Clarity.BudgetKeptIff` the exact condition.

## Model

| member | source | states |
|---|---|---|
| Schema.SerializeTable | backend/app/services/schema/serialize.py:27-55 | the block built line by line is one line for the table, one per column and one per foreign key, in order; a column's line shows its name, type and NOT NULL, its comment and its allowed values |
| Schema.DirectoryReads | backend/app/services/schema/serialize.py:70-73 | the directory names every table in order, with its schema unless that is the public one |
| Schema.TablesLength | backend/app/services/schema/serialize.py:58-60 | the rendered length of a table list is the sum of its blocks plus two characters between neighbours |
| Schema.TokensMonotone | backend/app/services/schema/serialize.py:17-19 | adding tables never lowers the estimate, also with one more table appended to both lists |
| Schema.TokensPermute | backend/app/services/schema/serialize.py:58-60 | the estimate of a table list does not depend on its order |
| Select.RankedIsStableSort | backend/app/services/schema/select.py:81-86 | the ranking is sorted by total score, a permutation, and keeps the schema order of equal scores |
| Select.Packer.TryAdd | backend/app/services/schema/select.py:93-100 | a table is kept when already selected, when it fits, or when it is the first; the answer says whether it is selected |
| Select.SelectSchema | backend/app/services/schema/select.py:68-128 | the loops over seeds, neighbours and the ranking yield the declarative selection |
| SelectRelevance.StrongMeans | backend/app/services/schema/select.py:36-65 | the direct score is 30 for each question word of three or more characters that is a word of the table's name, comment, columns or column comments, and 20 for each that occurs in its lower-cased name; words are maximal runs of letters and digits |
| SelectRelevance.MatchMeans | backend/app/services/schema/select.py:54-65 | a table has a direct match if and only if there is such a word |
| SelectRelevance.MoreMatchesScoreHigher | backend/app/services/schema/select.py:54-65 | a table with more matching words, and none missing, has a higher direct score |
| SelectRelevance.TotalMeans | backend/app/services/schema/select.py:40-65 | the total adds one for each three-character window shared by question and name, in both with every stretch of other characters read as one blank |
| SelectRelevance.TopSeedIsBestMatch | backend/app/services/schema/select.py:81-86 | if any table matches, the first table selected matches and none that matches scores higher |
| SelectRelevance.SeedsMean | backend/app/services/schema/select.py:81-86 | the seeds are exactly the matching tables in rank order, or the best table when none matches |
| SelectRelevance.ByNameIsLast | backend/app/services/schema/select.py:79-79 | a foreign key's bare table name means the last table of that name |
| SelectRelevance.SelectedInPasses | backend/app/services/schema/select.py:102-114 | in the first pass every table an accepted seed refers to was offered before the next seed, up to the first seed that does not fit; then every table was offered in rank order; offered means selected, or over budget when tried |
| SelectRelevance.SentInSchemaOrder | backend/app/services/schema/select.py:116-128 | a schema that does not fit is sent as its directory and the tables with a selected name, in schema order, with the counts and one warning |
| SelectProperties.PackingInvariant | backend/app/services/schema/select.py:91-114 | the selection starts with the top seed, has distinct names, fits unless it is a single table, and nothing more fits |
| SelectProperties.SelectionIsBounded | backend/app/services/schema/select.py:88-123 | when the schema does not fit and no budgeted name is shared: never empty, contains the top seed, over budget exactly when the top seed alone is and then sent alone; else at most max_tokens + 1, with + 1 exactly when the budget is used up and the rounding carries |
| SelectProperties.BoundedIffSentFits | backend/app/services/schema/select.py:68-123 | for every input the text is within max_tokens if and only if the schema fits whole, or the sent tables and the rounding fit what the directory leaves (the fixed notice for an empty schema) |
| SelectProperties.BoundedIff | backend/app/services/schema/select.py:88-123 | the same condition in terms of the best table where no budgeted name is shared: if it alone is over budget, the directory and that table decide; otherwise only a used-up budget with a carrying rounding breaks the limit |
| SelectProperties.BoundedWhenDirectoryCannotCarry | backend/app/services/schema/select.py:88-123 | a directory whose length is 1 or 2 modulo 4 and a best table that fits are enough for the limit |
| SelectProperties.SelectionIsMaximal | backend/app/services/schema/select.py:104-117 | for every schema, shared names included: no table left out could be added to what was finally sent without exceeding the budget |
| SelectProperties.ChosenMatchesBudgetedIff | backend/app/services/schema/select.py:91-116 | what is sent is a permutation of what was budgeted if and only if no other table shares a selected bare name |
| SelectProperties.OvershootWitness | backend/app/services/schema/select.py:68-75 | two tables and a limit of 5 where the sent text estimates to 6 although the selection fits |
| SelectProperties.SharedNameWitness | backend/app/services/schema/select.py:93-116 | two schemas with one bare name: one table is budgeted, both are sent |
| SqlVerify.BuildLookup | backend/app/services/sql_verify.py:54-68 | the two dictionaries answer every name as a search through the tables would: all tables of a bare name, the last one of a qualified name |
| SqlVerify.Verifier.Sources | backend/app/services/sql_verify.py:112-139 | the memoised visit returns what the scope's sources mean and flags its missing tables on the first visit only |
| SqlVerify.Verifier.CheckQualified | backend/app/services/sql_verify.py:141-159 | reports the reference exactly when the declarative resolver rejects it, and nothing else changes but the memo |
| SqlVerify.Verifier.CheckUnqualified | backend/app/services/sql_verify.py:161-184 | the parent walk terminates and reports the reference exactly when the resolver rejects it |
| SqlVerify.VerifyIdentifiers | backend/app/services/sql_verify.py:96-196 | for any scope forest: unknown columns are the rejected references of all scopes in order without repetition, unknown tables exactly the missing ones; nothing is reported when no scopes could be built |
| SqlVerifyProperties.RejectedIffUnresolvable | backend/app/services/sql_verify.py:141-184 | a reference is rejected if and only if it resolves under no choice of candidate tables, at no level of its scope chain, opaque sources providing anything |
| SqlVerifyProperties.ReportedIff | backend/app/services/sql_verify.py:186-195 | a string is among the unknown columns if and only if some scope holds a rejected reference displayed so |
| SqlVerifyProperties.UnknownTablesExactly | backend/app/services/sql_verify.py:112-139 | whatever the visiting order, the unknown tables are the unresolved non-system table sources of all scopes |
| SqlVerifyMeaning.RejectedMeans | backend/app/services/sql_verify.py:54-184 | from scopes and snapshot alone: a bare reference is rejected if and only if no select alias has its name, every source visible from its scope can be listed and none has such a column; a qualified one if and only if the innermost source of that name can be listed and has no such column |
| SqlVerifyMeaning.NoAlarmBesideUnlistable | backend/app/services/sql_verify.py:75-80 | a bare reference is never rejected when a visible source selects a star, is no table, is a system table or is not in the snapshot |
| SqlVerifyMeaning.NoAlarmOnUnlistable | backend/app/services/sql_verify.py:141-159 | nor is a qualified reference whose qualifier is such a source |
| SqlVerifyMeaning.ResultMeans | backend/app/services/sql_verify.py:96-196 | the whole result from scopes and snapshot alone: which strings are listed as unknown columns and unknown tables, and how each is shown |
| AskServerTasks.AskConnection.Perform | backend/app/routers/ask_ws.py:110-223 | one stretch of any task, in place, keeps the connection's invariant and is therefore safe: one terminal event at most, truthful about the transaction, a numbered start of the queue on the socket |
| AskServerTasks.AskConnection.Serve | backend/app/routers/ask_ws.py:110-223 | so does any schedule: the queue holds the notes the flow emitted, in order, and they are sent as they were emitted, all of them once the connection closed without a failed send or a cut-short rollback; a whole connection without disconnect, raising commit or rollback, or failed send has sent exactly one terminal event, last |
| AskServerProperties.FlowKeepsInv | backend/app/routers/ask_ws.py:124-179 | every stretch of the flow keeps the queue, numbering, transaction and control invariant |
| AskServerProperties.SenderKeepsInv | backend/app/routers/ask_ws.py:115-122 | so does every stretch of the sender: what it sent stays the numbered start of what was queued |
| AskServerProperties.CoordKeepsInv | backend/app/routers/ask_ws.py:195-223 | so does every stretch of the coordinator: sentinel last, cancelled only after the flow was unwound |
| AskServerProperties.RunKeepsInv | backend/app/routers/ask_ws.py:110-223 | every action of every schedule keeps the invariant |
| AskServerProperties.Safety | backend/app/routers/ask_ws.py:110-223 | in every interleaving: at most one terminal event, only the sentinel after it; final_result if and only if committed, error only after rollback, cancelled only after rollback or an attempt at it that raised; what was sent is the start of what was queued, numbered 1, 2, 3 |
| AskServerProperties.ExactlyOneTerminal | backend/app/routers/ask_ws.py:195-223 | in every schedule without a disconnect, a raising commit or a raising rollback: past the wait exactly one terminal event was queued, last before the sentinel |
| AskServerProperties.TerminalIff | backend/app/routers/ask_ws.py:195-223 | in every schedule final_result was queued if and only if it committed, an error if and only if it finished its rollback, and past the wait cancelled if and only if it unwound the flow for a client that cancelled |
| AskServerProperties.QueueHoldsTheNotes | backend/app/routers/ask_ws.py:112-122 | the progress entries of the queue are exactly the notes the flow emitted, in order |
| AskServerProperties.SendsTheNotes | backend/app/routers/ask_ws.py:112-122 | what was sent starts with those notes, in order |
| AskServerProperties.SendsAllTheNotes | backend/app/routers/ask_ws.py:112-122 | all of them were sent once the connection closed without a failed send and no rollback was cut short |
| AskServerProperties.SentExactly | backend/app/routers/ask_ws.py:110-223 | a closed, undisturbed connection without failed sends has sent exactly the emitted notes, numbered from 1, and then the ending its schedule calls for |
| AskServerProperties.DeliversEverythingIff | backend/app/routers/ask_ws.py:115-122 | a closed connection has sent every queued event in order if and only if no send failed and no rollback inside the flow raised after the coordinator woke up |
| AskServerProperties.DeliversTheEnding | backend/app/routers/ask_ws.py:195-223 | a closed, undisturbed connection without failed sends has sent progress events and then exactly one terminal event, numbered from 1 |
| AskServerProperties.RankBoundsRun | backend/app/routers/ask_ws.py:110-223 | every action lowers a rank, which only a progress event can raise, and by at most two: the length of any schedule is bounded by the initial rank and its progress events |
| AskServerProperties.Progresses | backend/app/routers/ask_ws.py:195-223 | a run with k progress events has at most 14 + 3k actions, and before closing some task can always move without the client and without another progress event |
| AskClient.AskSocket.Handle | frontend/src/api/askSocket.ts:45-137 | the handlers, run in place on any legal order of browser events, honour the contract once the close was reported: one settlement, nothing delivered when rejected, else everything received and exactly one ending |
| AskClient.RunKeepsInv | frontend/src/api/askSocket.ts:45-137 | every legal sequence of browser events, the start timer firing at any time, keeps the invariant over the flags, settlements and deliveries |
| AskClient.Contract | frontend/src/api/askSocket.ts:45-137 | once the close was reported: exactly one settlement; rejection means nothing reached the handler; a started run gets exactly one terminal event, the synthetic connection_lost included |
| AskClient.LateStartBreaksContract | frontend/src/api/askSocket.ts:49-59 | why messages after close are outside the legal orders: a late run_started would be delivered after a rejection |
| AskEndToEnd.HandlerSeesTheRun | frontend/src/api/askSocket.ts:96-136 | for any server schedule and any number of delivered frames, the handler gets exactly those events, plus connection_lost exactly when the server's terminal event is not among them |
| AskEndToEnd.HandlerSeesTheEnding | frontend/src/api/askSocket.ts:96-136 | when nothing disturbed a run that announced itself and every frame arrived, the handler gets exactly the notes the flow emitted, in order, and then the server's own ending |
| AskEndToEnd.RefusedRunDeliversNothing | frontend/src/api/askSocket.ts:104-123 | a first frame other than run_started, or none, rejects the promise and delivers nothing; no later frame reaches the page |
| ToolChat.AppendExchange | backend/app/services/ai/base.py:294-306 | appending a tool-calling turn and its answers keeps the transcript well-formed: each call answered once, in order, by id, in the next message |
| ToolChat.ToOpenAIMessages | backend/app/services/ai/openai_provider.py:32-57 | the nested loops produce the system message and then each message's entries in order |
| ToolChat.OpenAITranslationAccepted | backend/app/services/ai/openai_provider.py:32-57 | a well-formed transcript translates to messages where every tool message directly follows its call, one for one, by id, and none is stray |
| ToolChat.OpenAIRoundTripIff | backend/app/services/ai/openai_provider.py:32-57 | a message can be read back from its entries if and only if its assistant turn holds no results, its user turn no calls, and no successful result begins with the error mark |
| ToolChat.OpenAIUsageConserved | backend/app/services/ai/openai_provider.py:206-226 | the split into cached and uncached input keeps the total if and only if no more tokens are cached than were prompted |
| ToolChat.ToAnthropicMessages | backend/app/services/ai/anthropic_provider.py:35-56 | the nested loops translate message by message |
| ToolChat.AnthropicRoundTrip | backend/app/services/ai/anthropic_provider.py:35-56 | role, text, calls and results can all be read back from the blocks |
| ToolChat.AnthropicTranslationAcceptedIff | backend/app/services/ai/anthropic_provider.py:35-56 | the blocks obey the provider's rule (calls from the assistant only, results first and from the user only, result ids equal to the previous message's call ids in order) if and only if the transcript was well-formed |
| Discover.BuildLookup | backend/app/services/schema/discover.py:102-112 | the dictionary answers every key with the last table of that bare or qualified name |
| Discover.DirectoryNameIsItsOwnIff | backend/app/services/schema/discover.py:102-112 | a name from the directory looks up its own table if and only if no later table has that string as bare or qualified name |
| Common.StripMeans | backend/app/services/schema/discover.py:134-134 | stripping takes off all white space on both sides and nothing else |
| DiscoverProperties.RequestedMeans | backend/app/services/schema/discover.py:127-134 | a requested name means the last table that goes by it as given; only if there is none, the last that goes by it without the white space around it |
| DiscoverProperties.DetailsMean | backend/app/services/schema/discover.py:127-158 | the answer to a details call is an error if and only if nothing it asked for exists, else it shows the known tables, with a note if and only if something else was asked for |
| Discover.Exploration.ExecuteDetailsCall | backend/app/services/schema/discover.py:115-158 | the answer shows each known table once and lists the unknown names, an error when nothing is known; the shared dict grows by exactly the known tables |
| Discover.Explore | backend/app/services/schema/discover.py:219-299 | for any model: 1 to max(1, rounds) unforced calls; every request is the question, then each reply word for word with one message of answers, each call getting the details it resolved or a refusal exactly when the table limit was reached; usage of all replies; the loop stops at the first reply that gives a reason, and names it |
| Discover.DiscoverSchema | backend/app/services/schema/discover.py:176-311 | the whole run: that conversation, the call limit, and an outcome determined by replies and executed calls (details, or the lexical fallback with its reason) |
| DiscoverProperties.GrantedUntilLimit | backend/app/services/schema/discover.py:243-259 | over any run the details calls are executed in order until the table limit is reached and none after; only the last can overshoot |
| DiscoverProperties.RendersTheRequests | backend/app/services/schema/discover.py:301-311 | with unique qualified names the rendered tables are exactly those the executed calls resolved, in snapshot order |
| AskAnalysis.Investigation.RunQuery | backend/app/services/ask_analysis.py:127-170 | the connector runs nothing but the guard's output; the finding and the answer to the model both tell what guard and database did, rows cut to the cap and truncation marked exactly when rows are missing |
| AskAnalysis.Investigation.HandleCall | backend/app/services/ask_analysis.py:287-353 | one tool call spends a query, executes a details call, or is refused exactly when its budget is spent, and is answered by id with the details, the rows cut to 4000 characters, or the error |
| AskAnalysis.Investigation.Investigate | backend/app/services/ask_analysis.py:259-374 | for any model: 1 to max(1, rounds) calls; every request is the question, then each reply word for word with one message of the answers its calls are due; usage and budgets of the loop; it stops at the first reply that gives a reason |
| AskAnalysis.RunAskAnalysisLoop | backend/app/services/ask_analysis.py:199-396 | the whole run: that conversation, one truthful finding per statement taken on, and an outcome determined by replies and executed calls |
| AskAnalysis.BudgetsAllow | backend/app/services/ask_analysis.py:287-353 | over any run the first max_queries statements asked for are taken on, in order, and details calls are executed until the table limit is reached |
| AskAnalysis.OnlyGuardedSqlRuns | backend/app/services/ask_analysis.py:143-146 | everything the connector was given is the guard's output for some finding, at most one per finding |
| Agent.AnalysisRun.ExecuteToolCall | backend/app/services/analysis/agent.py:134-185 | one step is recorded and filled in as the statement goes through; the model is told the same: unknown connection, guard error, database error, or the rows |
| Agent.ExecutesTheFirst | backend/app/services/analysis/agent.py:243-254 | whatever the model does, the calls executed are its first MAX_QUERIES calls |
| Agent.Converse | backend/app/services/analysis/agent.py:230-258 | the `while True` terminates; it stops at the first reply without calls or when the budget is spent; every request is the question, then each reply word for word with the answers its calls are due |
| Agent.RunAnalysis | backend/app/services/analysis/agent.py:226-270 | at most six provider calls; a closing call exactly when the loop was not settled, forced to answer in words and carrying the whole conversation plus the request for a final answer, and no other call is forced; one step per executed call; the answer is the last reply's text, never empty, unless the provider failed |
| Generate.GenerateWithVerification | backend/app/services/ai/generate.py:95-195 | 1 to 1 + max(0, max_retries) attempts; each further attempt is asked with the one before it, the reply it refused and the feedback on what guard or verifier said about that reply; a refused or ungrounded reply ends the run only when no attempt is left; result, SQL and verification come from the last attempt; retries and usage count every attempt |
| Generate.TwoMessagesPerRetry | backend/app/services/ai/generate.py:136-188 | every retry adds exactly two messages and takes none away |
| Generate.RunAskFlow | backend/app/services/ask_flow.py:160-257 | the run and its response: verification_failed exactly when the verifier failed the last reply, after all retries, with exactly its identifiers; ok only if guard and verifier passed; SQL shown is the guard's output; 502 and 422 tell who ended the run; usage covers discovery and every attempt |
| ChatContext.CollectPairs | backend/app/services/chat_context.py:67-78 | the pairing loop yields the declarative pairs |
| ChatContext.PairsAreAnsweredQuestions | backend/app/services/chat_context.py:67-78 | the pairs are exactly the user rows in order, each with the assistant row that answers it, or none if there is none |
| ChatContext.BuildHistoryMessages | backend/app/services/chat_context.py:53-111 | the drop loop returns the rendering of the kept suffix |
| ChatContext.DropShrinks | backend/app/services/chat_context.py:107-110 | every drop makes the re-rendered text strictly shorter, although the new first turn is rendered differently |
| ChatContext.HistoryIsLongestWindow | backend/app/services/chat_context.py:80-111 | for any limits: what is kept is a suffix of the pairs, and a suffix of n pairs is within it if and only if n respects the turn limit (any n for 0, a negative limit drops that many from the front) and its text fits max_chars |
| ChatContext.SizeIsLength | backend/app/services/chat_context.py:108-108 | the size compared with max_chars is the number of characters of all messages |
| ChatContext.TurnLimitHoldsIff | backend/app/services/chat_context.py:80-80 | the slice respects the turn limit if and only if the limit is positive, or zero with nothing to keep |
| ChatContext.RenderingReads | backend/app/services/chat_context.py:82-105 | the messages are the turns one after the other and nothing else: the question, after the sample of the answer in the pair before it if there is one, then the stored answer if there is one |
| ChatContext.TurnShowsLatestIff | backend/app/services/chat_context.py:82-105 | a turn shows the sample of the latest executed answer before its question if and only if there is none, or it is not the first turn sent and the answer to the question before it carries that sample |
| ChatContext.SampleIsDropped | backend/app/services/chat_context.py:84-104 | an unanswered question in between, or being the first turn sent, loses the latest sample |
| ChatContext.LatestResultSample | backend/app/services/chat_context.py:114-124 | the sample of the last assistant row that has one, none when switched off or absent |
| Pivot.Accumulator.Add | frontend/src/utils/chartData.ts:113-132 | after each numeric row the maps, the insertion orders and the truncation flag hold the declarative pivot of all rows so far |
| Pivot.BuildPivotData | frontend/src/utils/chartData.ts:97-137 | the chart is empty when a column is missing, else the declarative pivot of the rows with a numeric y |
| Pivot.ColumnIndexMeans | frontend/src/utils/chartData.ts:55-58 | a column is the first of that name; an empty or unknown name finds none |
| PivotProperties.ChartShowsRows | frontend/src/utils/chartData.ts:97-137 | read off the result set: an x is listed exactly when some row with a numeric y has it and a retained series; a cell is present exactly when some row has that x text, that series text and a numeric y, and is the sum of those rows' y |
| PivotProperties.CellIsSum | frontend/src/utils/chartData.ts:125-132 | cell (x, series) exists exactly when such a row exists and is the sum of y over exactly those rows |
| PivotProperties.OnlyRetainedKeys | frontend/src/utils/chartData.ts:116-124 | a record holds no value key but those of retained series |
| PivotProperties.PivotShape | frontend/src/utils/chartData.ts:97-137 | at most nine series keyed s0, s1, ...; truncated exactly when more than nine distinct series have a numeric y; one record per retained x in first-seen order |
| PivotProperties.DedupFirstSeen | frontend/src/utils/chartData.ts:108-129 | the insertion order of the maps is first-seen order |
| PivotProperties.PivotConserves | frontend/src/utils/chartData.ts:125-136 | the grand total of the chart is the total of the retained rows, and of all rows when nothing was truncated |
| Clarity.ValidateCombos | backend/app/services/app_settings.py:104-122 | accepts exactly the lists within the limits with pairwise different keys; an error names the first combination that cannot join the ones before it, and why |
| Clarity.ComboKeyInjective | backend/app/services/app_settings.py:99-101 | two valid combinations share a key only if they are equal, the empty one included |
| Clarity.DistinctKeysIffDistinctCombos | backend/app/services/app_settings.py:118-122 | for valid combinations the key test rejects exactly repetitions |
| Clarity.Store.RunFetch | backend/app/services/clarity/fetcher.py:63-157 | a fetch appends one run row with the right counts and status and replaces snapshots attempt by attempt; without a token nothing changes |
| Clarity.Store.RunAll | backend/app/services/clarity/fetcher.py:63-157 | any number of consecutive fetches, none crossing midnight between the start of its transaction and reading the clock, keeps the daily budget and one snapshot per date and combination |
| Clarity.BudgetKept | backend/app/services/clarity/fetcher.py:31-52 | a fetch that reads the clock in the UTC day its row is stamped with keeps every day within ten attempts |
| Clarity.BudgetKeptIff | backend/app/services/clarity/fetcher.py:31-52 | whatever the API answers, a fetch keeps the budget if and only if it does not cross midnight there, or the day it started in has room for everything a fresh day allows |
| Clarity.MidnightOverspends | backend/app/services/clarity/fetcher.py:66-83 | a fetch stamped in the last second of a full day and planned after midnight makes that day count eleven |
| Clarity.StoredOnePerCombo | backend/app/services/clarity/fetcher.py:108-122 | each date and combination keeps at most one snapshot |
| Clarity.FetchReplacesOnlyItsCombos | backend/app/services/clarity/fetcher.py:104-135 | for valid plans a snapshot is stored afterwards exactly if an attempt of this run wrote it, or it was stored before and is for another date or an unattempted combination |
| Clarity.SuccessIffAllFetched | backend/app/services/clarity/fetcher.py:140-145 | a run ends as success if and only if there was something to fetch and every configured combination was fetched |
| Clarity.RunTells | backend/app/services/clarity/fetcher.py:31-145 | a run plans the first combinations the day has room for, requests them until one fails for good, counts the payloads, and ends as failed if there are none, success if there are as many as configured combinations, partial in between |
| SnapshotCache.SnapshotStore.RebuildSnapshot | backend/app/services/schema/cache.py:34-59 | adds the next version exactly when the fingerprint changed, else returns the current row |
| SnapshotCache.SnapshotStore.EnsureSnapshot | backend/app/services/schema/cache.py:62-73 | a current snapshot with tables is returned untouched, otherwise it is rebuilt |
| SnapshotCache.SnapshotStore.Serve | backend/app/services/schema/cache.py:34-73 | any run of ensure and rebuild calls keeps every connection's versions 1..n with adjacent fingerprints different |
| SnapshotCache.NextRowKeepsValid | backend/app/services/schema/cache.py:45-59 | appending the next row keeps that history invariant for every connection |
| SnapshotCache.CurrentIsHighest | backend/app/services/schema/cache.py:23-31 | the current snapshot has the highest version of its connection, which is the number of its rows |
| SnapshotCache.RebuildAgrees | backend/app/services/schema/cache.py:42-59 | with a collision-free fingerprint the current snapshot after a rebuild is the introspected schema |
| Literals.StringLiterals | backend/app/services/schema/introspect.py:76-81 | the literals found, unescaped, in order, each once |
| Literals.LiteralsRoundTrip | backend/app/services/schema/introspect.py:67-81 | whatever separators, prefixes and casts surround quoted literals, scanning gives their values back in order, each once |
| Literals.CommaListRoundTrip | backend/app/services/schema/introspect.py:69-81 | a comma-separated list of quoted values reads back as itself when distinct, else as its de-duplication |
| Literals.EnumRoundTrip | backend/app/services/schema/introspect.py:104-112 | `enum('a','b',...)` yields its labels in order, each once, in any letter case and after white space; one without labels yields nothing |
| Literals.AdjacentLiteralsMerge | backend/app/services/schema/introspect.py:69-69 | without a separator two literals read as one value with a quote inside |

## Left out

- SQL parsing and scope construction (sqlglot), and the read-only guard: scopes are given as data and the guard is an arbitrary function. Parents are assumed to come later in the traversal than their children, which is the order the traversal yields. Column-alias lists on CTEs and ORDER BY on set operations are outside the modelled scopes.
- AskServerTasks.AskConnection.Perform: commit and its resumption are one step; cancellation landing inside commit is not modelled. A raising commit or rollback is. The flow does not swallow cancellation, and the coordinator itself is not cancelled.
- The handshake before streaming (accept, authentication, first message, setup failures) in `ask_ws.py`.
- Delivery across the network: each side is modelled on its own, and `AskEndToEnd` joins them on frames that arrive in order. That a question is never run twice across transports is not claimed.
- AskClient.Contract: speaks of event orders a browser can produce: nothing from the socket after its close was reported, no message once the client closed it. `AskClient.LateStartBreaksContract` shows why the second is needed.
- Discover.Exploration.ExecuteDetailsCall: the answer's closing list of all valid names, which is the same for every call, and the `repr` of the unknown ones are left out.
- Discover.Explore: the refusal of a call past the table limit is without the limit itself, as are those of the Ask analysis and the agent.
- Progress events, log lines, message wordings, and the JSON rendering of details, findings and query results, beyond what the contracts name.
- AskAnalysis.RunAskAnalysisLoop: states what the text is rendered from, not the JSON text; the JSON forms of table details and of a query result are arbitrary functions.
- Agent.AnalysisRun.ExecuteToolCall: the message for an unknown connection is without the id and the list of ids.
- Agent.RunAnalysis: starts after connections are loaded and the prompt is built; the conversion of a model-given connection id to an integer is part of the input.
- Generate.GenerateWithVerification: the prompt blocks, the dump of a result and the two feedback texts are arbitrary functions.
- Generate.RunAskFlow: history rows, explanation and clarification texts, and the selector's own warnings are passed through by the code and not modelled; a failing usage record is swallowed there.
- ChatContext.BuildHistoryMessages: stored answers and samples are already rendered texts; the sample block's layout and `persist_chat_turn` are not modelled.
- Pivot.BuildPivotData: y values are reals; floating-point rounding, infinities that a sum could reach and number parsing of strings are not modelled. `buildWideData`, `buildPieData` and the dispatcher would only add easy members.
- Clarity.Store.RunAll: fetches do not overlap, and the database and the application read one clock that never goes back. The HTTP client's own retry of a request is not counted by the log and not modelled; error summaries are dropped.
- SnapshotCache.RebuildAgrees: takes a collision-free fingerprint as a premise; SHA-256 is not modelled.
- Literals.EnumRoundTrip: ASCII lower-casing and white space only. The CHECK-clause patterns and the grouping of columns and foreign keys by table are not modelled.
- Select.SelectSchema: ASCII case folding only; the warning's wording is not modelled.
- Routers, access rules, authentication, encryption, scheduling, CSV and EXPLAIN helpers, migrations and the user interface.
