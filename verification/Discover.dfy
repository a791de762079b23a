/** On-demand table discovery (schema/discover.py): the model names tables, the loop expands them. */
module Discover {
  import opened Common
  import opened Schema
  import opened ToolChat
  import Select

  // ------------------------------------------------------------- name lookup

  predicate Bears(t: TableInfo, key: string) { t.name == key || Qualified(t) == key }

  /** The last table with this bare or qualified name. */
  function LastNamed(tables: seq<TableInfo>, key: string): Option<nat> {
    if tables == [] then None
    else
      var t := tables[|tables| - 1];
      if Bears(t, key) then Some(|tables| - 1)
      else LastNamed(tables[..|tables| - 1], key)
  }

  function TableNamed(tables: seq<TableInfo>, key: string): Option<TableInfo> {
    match LastNamed(tables, key)
    case Some(i) => if i < |tables| then Some(tables[i]) else None
    case None => None
  }

  ghost predicate LooksUp(byName: map<string, TableInfo>, tables: seq<TableInfo>) {
    forall key :: TableNamed(tables, key) == if key in byName then Some(byName[key]) else None
  }

  lemma {:induction false} LastNamedFinds(tables: seq<TableInfo>, key: string)
    ensures match LastNamed(tables, key)
            case Some(i) => i < |tables| && Bears(tables[i], key) && forall j :: i < j < |tables| ==> !Bears(tables[j], key)
            case None => forall j :: 0 <= j < |tables| ==> !Bears(tables[j], key)
  {
    if tables != [] {
      LastNamedFinds(tables[..|tables| - 1], key);
    }
  }

  lemma LastNamedIff(tables: seq<TableInfo>, key: string, i: nat)
    requires i < |tables| && Bears(tables[i], key)
    ensures LastNamed(tables, key) == Some(i) <==> forall j :: i < j < |tables| ==> !Bears(tables[j], key)
  {
    LastNamedFinds(tables, key);
  }

  /** A directory name looks up its own table exactly when no later table has that string as its
      bare or qualified name. */
  lemma DirectoryNameIsItsOwnIff(tables: seq<TableInfo>, i: nat)
    requires i < |tables|
    ensures var q := Qualified(tables[i]);
            LastNamed(tables, q) == Some(i) <==> forall j :: i < j < |tables| ==> !Bears(tables[j], q)
  {
    LastNamedIff(tables, Qualified(tables[i]), i);
  }

  lemma IndexTable(byName: map<string, TableInfo>, tables: seq<TableInfo>, t: TableInfo)
    requires LooksUp(byName, tables)
    ensures LooksUp(byName[t.name := t][Qualified(t) := t], tables + [t])
  {
    assert (tables + [t])[..|tables|] == tables;
    forall key ensures TableNamed(tables + [t], key)
                    == if Bears(t, key) then Some(t) else TableNamed(tables, key)
    {
      LastNamedFinds(tables, key);
    }
  }

  /** _lookup: later tables overwrite earlier entries. */
  method BuildLookup(tables: seq<TableInfo>) returns (byName: map<string, TableInfo>)
    ensures LooksUp(byName, tables)
  {
    byName := map[];
    for i := 0 to |tables|
      invariant LooksUp(byName, tables[..i])
    {
      IndexTable(byName, tables[..i], tables[i]);
      assert tables[..i] + [tables[i]] == tables[..i + 1];
      byName := byName[tables[i].name := tables[i]];
      byName := byName[Qualified(tables[i]) := tables[i]];
    }
    assert tables[..|tables|] == tables;
  }

  /** The table a requested name means: as given, else stripped. */
  function Requested(tables: seq<TableInfo>, name: string): Option<TableInfo> {
    match TableNamed(tables, name)
    case Some(t) => Some(t)
    case None => TableNamed(tables, Strip(name))
  }

  // ------------------------------------------------------- expanding requests

  function StringOf(entry: Option<string>): seq<string> { if entry.Some? then [entry.value] else [] }

  /** `[n for n in raw if isinstance(n, str)]`. */
  function NamesIn(call: ToolCall): seq<string> { FlatMap(StringOf, call.input.tableNames) }

  function QualifiedNames(tables: seq<TableInfo>): set<string> { set t | t in tables :: Qualified(t) }

  function AddKnown(known: seq<TableInfo>, t: TableInfo): seq<TableInfo> {
    if Qualified(t) in QualifiedNames(known) then known else known + [t]
  }

  /** The requested tables, first request of a qualified name only. */
  function Known(tables: seq<TableInfo>, names: seq<string>): seq<TableInfo> {
    if names == [] then []
    else
      var before := Known(tables, names[..|names| - 1]);
      match Requested(tables, names[|names| - 1])
      case Some(t) => AddKnown(before, t)
      case None => before
  }

  function Unknown(tables: seq<TableInfo>, names: seq<string>): seq<string> {
    if names == [] then []
    else Unknown(tables, names[..|names| - 1])
         + (if Requested(tables, names[|names| - 1]).None? then [names[|names| - 1]] else [])
  }

  lemma NamesSnoc(tables: seq<TableInfo>, names: seq<string>, i: nat)
    requires i < |names|
    ensures Known(tables, names[..i + 1]) ==
            match Requested(tables, names[i])
            case Some(t) => AddKnown(Known(tables, names[..i]), t)
            case None => Known(tables, names[..i])
    ensures Unknown(tables, names[..i + 1]) ==
            Unknown(tables, names[..i]) + (if Requested(tables, names[i]).None? then [names[i]] else [])
  {
    assert names[..i + 1][..i] == names[..i];
  }

  function Position(expanded: seq<TableInfo>, key: string): Option<nat> {
    if expanded == [] then None
    else if Qualified(expanded[|expanded| - 1]) == key then Some(|expanded| - 1)
    else Position(expanded[..|expanded| - 1], key)
  }

  lemma {:induction false} PositionFinds(expanded: seq<TableInfo>, key: string)
    ensures match Position(expanded, key)
            case Some(k) => k < |expanded| && Qualified(expanded[k]) == key
            case None => forall t :: t in expanded ==> Qualified(t) != key
  {
    if expanded != [] {
      PositionFinds(expanded[..|expanded| - 1], key);
      assert expanded == expanded[..|expanded| - 1] + [expanded[|expanded| - 1]];
    }
  }

  /** `expanded[_qualified(t)] = t` on a dict kept in insertion order. */
  function Put(expanded: seq<TableInfo>, t: TableInfo): seq<TableInfo> {
    match Position(expanded, Qualified(t))
    case Some(k) => if k < |expanded| then expanded[k := t] else expanded
    case None => expanded + [t]
  }

  function PutAll(expanded: seq<TableInfo>, more: seq<TableInfo>): seq<TableInfo> {
    if more == [] then expanded else Put(PutAll(expanded, more[..|more| - 1]), more[|more| - 1])
  }

  lemma PutAllSnoc(expanded: seq<TableInfo>, more: seq<TableInfo>, t: TableInfo)
    ensures PutAll(expanded, more + [t]) == Put(PutAll(expanded, more), t)
  {
    assert (more + [t])[..|more|] == more;
  }

  /** The dict after these details calls were executed. */
  function Expansion(tables: seq<TableInfo>, granted: seq<ToolCall>): seq<TableInfo> {
    if granted == [] then []
    else PutAll(Expansion(tables, granted[..|granted| - 1]), Known(tables, NamesIn(granted[|granted| - 1])))
  }

  lemma ExpansionSnoc(tables: seq<TableInfo>, granted: seq<ToolCall>, call: ToolCall)
    ensures Expansion(tables, granted + [call])
         == PutAll(Expansion(tables, granted), Known(tables, NamesIn(call)))
  {
    assert (granted + [call])[..|granted|] == granted;
  }

  /** How table details are shown to the model: text here, JSON in the Ask analysis. */
  type Render = seq<TableInfo> -> string

  function DetailsResult(call: ToolCall, known: seq<TableInfo>, unknown: seq<string>, render: Render): ToolResult {
    if known == [] then ToolResult(call.id, "None of " + Join(", ", unknown) + " exist.", true)
    else ToolResult(call.id, render(known)
           + (if unknown != [] then "\n\nUnrecognized (ignored): " + Join(", ", unknown) + "." else ""), false)
  }

  /** One more details call is executed unless the table limit is reached. */
  function Grant(tables: seq<TableInfo>, granted: seq<ToolCall>, call: ToolCall, limit: int): seq<ToolCall> {
    if |Expansion(tables, granted)| >= limit then granted else granted + [call]
  }

  /** The executed calls after the first `n` of `calls`, when `granted` were executed before. */
  function GrantedFrom(tables: seq<TableInfo>, granted: seq<ToolCall>, calls: seq<ToolCall>, n: nat,
                       limit: int): seq<ToolCall>
    requires n <= |calls|
  {
    if n == 0 then granted else Grant(tables, GrantedFrom(tables, granted, calls, n - 1, limit), calls[n - 1], limit)
  }

  /** The executed calls of a whole run. */
  function Granted(tables: seq<TableInfo>, replies: seq<ChatOutcome>, limit: int): seq<ToolCall> {
    if replies == [] then []
    else
      var calls := CallsIn(replies[|replies| - 1]);
      GrantedFrom(tables, Granted(tables, replies[..|replies| - 1], limit), calls, |calls|, limit)
  }

  lemma GrantedSnoc(tables: seq<TableInfo>, replies: seq<ChatOutcome>, outcome: ChatOutcome, limit: int)
    ensures Granted(tables, replies + [outcome], limit)
         == GrantedFrom(tables, Granted(tables, replies, limit), CallsIn(outcome), |CallsIn(outcome)|, limit)
  {
    assert (replies + [outcome])[..|replies|] == replies;
  }

  const TABLE_LIMIT_REACHED := "Table limit reached. Proceed with the tables already provided."

  /** The answer to a details call: the details it resolved, or a refusal exactly when the limit was reached before. */
  ghost predicate AnswersDetails(tables: seq<TableInfo>, granted: seq<ToolCall>, call: ToolCall, limit: int,
                                 render: Render, r: ToolResult)
  {
    if |Expansion(tables, granted)| >= limit then r == ToolResult(call.id, TABLE_LIMIT_REACHED, true)
    else r == DetailsResult(call, Known(tables, NamesIn(call)), Unknown(tables, NamesIn(call)), render)
  }

  /** The `c`-th answer of a reply, when `granted` were executed before the reply. */
  ghost predicate AnswersCall(tables: seq<TableInfo>, granted: seq<ToolCall>, calls: seq<ToolCall>, c: nat, limit: int,
                              render: Render, r: ToolResult)
  {
    c < |calls| && AnswersDetails(tables, GrantedFrom(tables, granted, calls, c, limit), calls[c], limit, render, r)
  }

  ghost predicate AnswersCalls(tables: seq<TableInfo>, granted: seq<ToolCall>, calls: seq<ToolCall>, n: nat, limit: int,
                               render: Render, results: seq<ToolResult>)
  {
    && |results| == n
    && forall c: nat {:trigger AnswersCall(tables, granted, calls, c, limit, render, results[c])} ::
         c < n ==> AnswersCall(tables, granted, calls, c, limit, render, results[c])
  }

  lemma AnswersCallsNext(tables: seq<TableInfo>, before: seq<ToolCall>, granted: seq<ToolCall>, calls: seq<ToolCall>,
                         n: nat, limit: int, render: Render, results: seq<ToolResult>, r: ToolResult)
    requires AnswersCalls(tables, before, calls, n, limit, render, results)
    requires n < |calls| && Some(granted) == Some(GrantedFrom(tables, before, calls, n, limit))
    requires AnswersDetails(tables, granted, calls[n], limit, render, r)
    ensures AnswersCalls(tables, before, calls, n + 1, limit, render, results + [r])
  {
    var all := results + [r];
    forall c: nat | c < n + 1 ensures AnswersCall(tables, before, calls, c, limit, render, all[c]) {
      assert c < n ==> AnswersCall(tables, before, calls, c, limit, render, results[c]) && all[c] == results[c];
    }
  }

  lemma AnswersCallsById(tables: seq<TableInfo>, before: seq<ToolCall>, calls: seq<ToolCall>, limit: int, render: Render,
                         results: seq<ToolResult>)
    requires AnswersCalls(tables, before, calls, |calls|, limit, render, results)
    ensures Answers(calls, results)
  {
    forall c: nat | c < |calls| ensures results[c].callId == calls[c].id {
      assert AnswersCall(tables, before, calls, c, limit, render, results[c]);
    }
  }

  /** The answers due to the last of these replies: every call its details, until the table limit. */
  ghost predicate AnswersReply(tables: seq<TableInfo>, limit: int, render: Render, replies: seq<ChatOutcome>,
                               results: seq<ToolResult>)
  {
    && replies != []
    && var calls := CallsIn(replies[|replies| - 1]);
       AnswersCalls(tables, Granted(tables, replies[..|replies| - 1], limit), calls, |calls|, limit, render, results)
  }

  ghost function DetailsDue(tables: seq<TableInfo>, limit: int, render: Render): Due {
    (replies: seq<ChatOutcome>, results: seq<ToolResult>) => AnswersReply(tables, limit, render, replies, results)
  }

  lemma DetailsAreDue(tables: seq<TableInfo>, before: seq<ChatOutcome>, reply: ChatOutcome, limit: int, render: Render,
                      results: seq<ToolResult>)
    requires AnswersCalls(tables, Granted(tables, before, limit), CallsIn(reply), |CallsIn(reply)|, limit, render, results)
    ensures DetailsDue(tables, limit, render)(before + [reply], results)
  {
    assert (before + [reply])[..|before|] == before;
  }

  /** `expanded` is what the executed calls add up to, after each of them. */
  ghost predicate Tracks(tables: seq<TableInfo>, granted: seq<ToolCall>, expanded: seq<TableInfo>) {
    forall calls {:trigger Expansion(tables, calls)} :: calls == granted ==> expanded == Expansion(tables, calls)
  }

  /** The mutable `expanded` dict that the loops share with their helpers. */
  class Exploration {
    const tables: seq<TableInfo>
    const byName: map<string, TableInfo>
    const render: Render
    var expanded: seq<TableInfo>
    ghost var granted: seq<ToolCall>

    ghost predicate Valid()
      reads this
    {
      LooksUp(byName, tables) && Tracks(tables, granted, expanded)
    }

    constructor (tables: seq<TableInfo>, render: Render)
      ensures Valid() && this.tables == tables && this.render == render && granted == []
    {
      var byName := BuildLookup(tables);
      this.tables, this.byName, this.render := tables, byName, render;
      expanded, granted := [], [];
    }

    function Get(name: string): (t: Option<TableInfo>)
      requires LooksUp(byName, tables)
      ensures t == Requested(tables, name)
    {
      if name in byName then Some(byName[name])
      else if Strip(name) in byName then Some(byName[Strip(name)])
      else None
    }

    /** _execute_details_call. */
    method ExecuteDetailsCall(call: ToolCall) returns (r: ToolResult)
      requires Valid()
      modifies this
      ensures Valid() && granted == old(granted) + [call]
      ensures r == DetailsResult(call, Known(tables, NamesIn(call)), Unknown(tables, NamesIn(call)), render)
    {
      var names := NamesIn(call);
      var known: seq<TableInfo> := [];
      var unknown: seq<string> := [];
      for i := 0 to |names|
        invariant known == Known(tables, names[..i]) && unknown == Unknown(tables, names[..i])
        invariant expanded == PutAll(old(expanded), known)
        modifies this`expanded
      {
        NamesSnoc(tables, names, i);
        var table := Get(names[i]);
        if table.None? {
          unknown := unknown + [names[i]];
        } else if Qualified(table.value) !in QualifiedNames(known) {
          PutAllSnoc(old(expanded), known, table.value);
          known := known + [table.value];
          expanded := Put(expanded, table.value);
        }
      }
      assert names[..|names|] == names;
      ExpansionSnoc(tables, granted, call);
      granted := granted + [call];
      r := DetailsResult(call, known, unknown, render);
    }

    /** One details request inside a loop: refused once the table limit is reached. */
    method HandleDetails(call: ToolCall, limit: int) returns (r: ToolResult)
      requires Valid()
      modifies this
      ensures Valid() && r.callId == call.id
      ensures granted == Grant(tables, old(granted), call, limit)
      ensures AnswersDetails(tables, old(granted), call, limit, render, r)
    {
      if |expanded| >= limit {
        return ToolResult(call.id, TABLE_LIMIT_REACHED, true);
      }
      r := ExecuteDetailsCall(call);
    }
  }

  // ----------------------------------------------------------------- the loop

  datatype Notice =
    | Unavailable                          // the provider failed
    | NothingRequested
    | TableLimit
    | TokenBudget
    | RoundLimit
    | FromSelector(warning: Select.Warning)

  datatype SchemaBlock = SchemaBlock(text: string, notices: seq<Notice>, usage: TokenUsage, sent: nat, total: nat)

  function Wrap(w: Select.Warning): Notice { FromSelector(w) }

  /** _fallback: the lexical selection, after the reason. */
  function Fallback(tables: seq<TableInfo>, question: string, maxTokens: int, usage: TokenUsage,
                    reason: Notice): SchemaBlock {
    var selected := Select.Selection(tables, question, maxTokens);
    SchemaBlock(selected.text, [reason] + Map(Wrap, selected.warnings), usage, selected.sent, selected.total)
  }

  /** The expanded tables in snapshot order. */
  function ChosenFrom(tables: seq<TableInfo>, keys: set<string>): seq<TableInfo> {
    if tables == [] then []
    else (if Qualified(tables[0]) in keys then [tables[0]] else []) + ChosenFrom(tables[1..], keys)
  }

  function Rounds(maxRounds: int): nat { if maxRounds > 1 then maxRounds else 1 }

  function Listed(notice: Option<Notice>): seq<Notice> { if notice.Some? then [notice.value] else [] }

  /** The model called tools, and neither the tables nor the tokens ran out. */
  ghost predicate MayGoOn(last: ChatOutcome, expanded: seq<TableInfo>, render: Render, maxTables: int, maxTokens: int) {
    CallsIn(last) != [] && |expanded| < maxTables && EstimateTokens(render(expanded)) <= maxTokens
  }

  /** Nothing ends the loop at the last of these replies. */
  ghost predicate AsksAgain(tables: seq<TableInfo>, replies: seq<ChatOutcome>, render: Render, maxTables: int,
                            maxTokens: int) {
    && replies != []
    && MayGoOn(replies[|replies| - 1], Expansion(tables, Granted(tables, replies, maxTables)), render, maxTables, maxTokens)
  }

  /** The loop had no reason to stop at any of the first `n` replies. */
  ghost predicate GoesOn(tables: seq<TableInfo>, replies: seq<ChatOutcome>, n: nat, render: Render, maxTables: int,
                         maxTokens: int)
    requires n <= |replies|
  {
    forall k {:trigger AsksAgain(tables, replies[..k], render, maxTables, maxTokens)} ::
      0 < k <= n ==> AsksAgain(tables, replies[..k], render, maxTables, maxTokens)
  }

  lemma GoesOnStill(tables: seq<TableInfo>, replies: seq<ChatOutcome>, outcome: ChatOutcome, render: Render,
                    maxTables: int, maxTokens: int)
    requires GoesOn(tables, replies, |replies|, render, maxTables, maxTokens)
    ensures GoesOn(tables, replies + [outcome], |replies|, render, maxTables, maxTokens)
  {
    forall k | 0 < k <= |replies| ensures AsksAgain(tables, (replies + [outcome])[..k], render, maxTables, maxTokens) {
      assert AsksAgain(tables, replies[..k], render, maxTables, maxTokens);
      assert (replies + [outcome])[..k] == replies[..k];
    }
  }

  lemma GoesOnNow(tables: seq<TableInfo>, replies: seq<ChatOutcome>, granted: seq<ToolCall>, expanded: seq<TableInfo>,
                  render: Render, maxTables: int, maxTokens: int)
    requires replies != [] && GoesOn(tables, replies, |replies| - 1, render, maxTables, maxTokens)
    requires granted == Granted(tables, replies, maxTables) && Tracks(tables, granted, expanded)
    requires MayGoOn(replies[|replies| - 1], expanded, render, maxTables, maxTokens)
    ensures GoesOn(tables, replies, |replies|, render, maxTables, maxTokens)
  {
    assert expanded == Expansion(tables, Granted(tables, replies, maxTables));
    assert AsksAgain(tables, replies, render, maxTables, maxTokens);
    assert replies[..|replies|] == replies;
  }

  /** Why a loop ended at this reply: the answer in words, the tables, the tokens, or the rounds ran out. */
  ghost predicate EndsWith(last: ChatOutcome, expanded: seq<TableInfo>, render: Render, maxTables: int, maxTokens: int,
                           maxRounds: int, rounds: nat, notices: seq<Notice>)
  {
    if CallsIn(last) == [] then notices == []
    else if |expanded| >= maxTables then notices == [TableLimit]
    else if EstimateTokens(render(expanded)) > maxTokens then notices == [TokenBudget]
    else notices == [RoundLimit] && rounds == (if maxRounds > 1 then maxRounds else 1)
  }

  /** How a discovery run ends, given what the provider replied and which calls were executed. */
  ghost predicate Concludes(tables: seq<TableInfo>, question: string, maxRounds: int, maxTables: int, maxTokens: int,
                            replies: seq<ChatOutcome>, granted: seq<ToolCall>, r: SchemaBlock)
  {
    var expanded := Expansion(tables, granted);
    var chosen := ChosenFrom(tables, QualifiedNames(expanded));
    && r.usage == TotalUsage(replies)
    && if ProviderError in replies then r == Fallback(tables, question, maxTokens, r.usage, Unavailable)
       else if expanded == [] then r == Fallback(tables, question, maxTokens, r.usage, NothingRequested)
       else
         && replies != []
         && r == SchemaBlock(Directory(tables) + "\n\n" + TablesText(chosen), r.notices, r.usage, |chosen|, |tables|)
         && EndsWith(replies[|replies| - 1], expanded, TablesText, maxTables, maxTokens, maxRounds, |replies|, r.notices)
  }

  method HandleCalls(calls: seq<ToolCall>, exploration: Exploration, limit: int) returns (results: seq<ToolResult>)
    requires exploration.Valid()
    modifies exploration
    ensures exploration.Valid() && Answers(calls, results)
    ensures AnswersCalls(exploration.tables, old(exploration.granted), calls, |calls|, limit, exploration.render, results)
    ensures exploration.granted == GrantedFrom(exploration.tables, old(exploration.granted), calls, |calls|, limit)
  {
    results := [];
    ghost var start, tables, render := exploration.granted, exploration.tables, exploration.render;
    for c := 0 to |calls|
      invariant exploration.Valid()
      invariant AnswersCalls(tables, start, calls, c, limit, render, results)
      // wrapped in Some: compared as values, not element by element
      invariant Some(exploration.granted) == Some(GrantedFrom(tables, start, calls, c, limit))
    {
      ghost var before := exploration.granted;
      var r := exploration.HandleDetails(calls[c], limit);
      AnswersCallsNext(tables, start, before, calls, c, limit, render, results, r);
      results := results + [r];
    }
    AnswersCallsById(tables, start, calls, limit, render, results);
  }

  /** What holds between two rounds of a loop that asks the provider, without forcing a text. */
  ghost predicate Asking(provider: ProviderSession, opening: Transcript, due: Due, messages: Transcript, usage: TokenUsage)
    reads provider
  {
    && provider.Conversing(opening, due, messages)
    && |provider.forced| == |provider.asked| && true !in provider.forced
    && ProviderError !in provider.replies
    && usage == TotalUsage(provider.replies)
    && WellFormed(messages) && AllWellFormed(provider.asked)
  }

  /** What holds once a reply came in, whatever it is. */
  ghost predicate Replied(provider: ProviderSession, opening: Transcript, due: Due, usage: TokenUsage)
    reads provider
  {
    && provider.Conversed(opening, due)
    && |provider.forced| == |provider.asked| && true !in provider.forced
    && usage == TotalUsage(provider.replies)
    && AllWellFormed(provider.asked)
  }

  /** One provider call of a loop. */
  method Ask(provider: ProviderSession, messages: Transcript, usage: TokenUsage, ghost opening: Transcript, ghost due: Due)
    returns (outcome: ChatOutcome, usage': TokenUsage)
    requires Asking(provider, opening, due, messages, usage)
    modifies provider
    ensures provider.replies == old(provider.replies) + [outcome] && provider.asked == old(provider.asked) + [messages]
    ensures provider.answers == old(provider.answers)
    ensures Replied(provider, opening, due, usage')
    ensures ProviderError in provider.replies <==> outcome.ProviderError?
  {
    var reply := provider.model(|provider.asked|, messages, false);
    TotalUsageSnoc(provider.replies, reply);
    ConversationAsks(opening, due, provider.asked, provider.replies, provider.answers, messages, reply);
    outcome := provider.Chat(messages, false);
    usage' := if outcome.Turn? then usage.Plus(outcome.turn.usage) else usage;
  }

  /** The answers to the calls of the last reply were appended to what it replied to: the loop goes on with that. */
  ghost method Resume(provider: ProviderSession, opening: Transcript, due: Due, messages: Transcript, usage: TokenUsage,
                      turn: ChatTurn, results: seq<ToolResult>)
    requires Replied(provider, opening, due, usage) && WellFormed(messages) && ProviderError !in provider.replies
    requires |provider.replies| == |provider.answers| + 1
    requires provider.replies[|provider.replies| - 1] == Turn(turn) && provider.asked[|provider.asked| - 1] == messages
    requires turn.toolCalls != [] && Answers(turn.toolCalls, results) && due(provider.replies, results)
    modifies provider`answers
    ensures Asking(provider, opening, due, messages + Exchange(turn, results), usage)
  {
    AppendExchange(messages, turn, results);
    provider.Answer(opening, due, results);
  }

  /** The exploration reflects the calls of these replies. */
  ghost predicate Exploring(exploration: Exploration, replies: seq<ChatOutcome>, limit: int)
    reads exploration
  {
    exploration.Valid() && exploration.granted == Granted(exploration.tables, replies, limit)
  }

  /** One round: ask, and answer every tool call of the reply. */
  method Round(provider: ProviderSession, exploration: Exploration, messages: Transcript, usage: TokenUsage, limit: int,
               ghost opening: Transcript, ghost due: Due)
    returns (outcome: ChatOutcome, messages': Transcript, usage': TokenUsage)
    requires due == DetailsDue(exploration.tables, limit, exploration.render)
    requires Asking(provider, opening, due, messages, usage) && Exploring(exploration, provider.replies, limit)
    modifies provider, exploration
    ensures Exploring(exploration, provider.replies, limit)
    ensures provider.replies == old(provider.replies) + [outcome] && Replied(provider, opening, due, usage')
    ensures CallsIn(outcome) != [] ==> Asking(provider, opening, due, messages', usage')
    ensures ProviderError in provider.replies <==> outcome.ProviderError?
  {
    ghost var before := provider.replies;
    outcome, usage' := Ask(provider, messages, usage, opening, due);
    GrantedSnoc(exploration.tables, before, outcome, limit);
    messages' := messages;
    if outcome.Turn? && outcome.turn.toolCalls != [] {
      var results := HandleCalls(outcome.turn.toolCalls, exploration, limit);
      DetailsAreDue(exploration.tables, before, outcome, limit, exploration.render, results);
      Resume(provider, opening, due, messages, usage', outcome.turn, results);
      messages' := messages + Exchange(outcome.turn, results);
    }
  }

  /** The rounds of discover_schema. */
  method Explore(provider: ProviderSession, exploration: Exploration, question: string,
                 maxRounds: int, maxTables: int, maxTokens: int)
    returns (failed: bool, notice: Option<Notice>, usage: TokenUsage)
    requires provider.Unused()
    requires exploration.Valid() && exploration.granted == []
    modifies provider, exploration
    ensures Exploring(exploration, provider.replies, maxTables)
    ensures Replied(provider, [UserText("Question: " + question)],
                    DetailsDue(exploration.tables, maxTables, exploration.render), usage)
    ensures 1 <= |provider.replies| <= Rounds(maxRounds) && (failed <==> ProviderError in provider.replies)
    ensures !failed ==>
      EndsWith(provider.replies[|provider.replies| - 1], exploration.expanded, exploration.render, maxTables, maxTokens,
               maxRounds, |provider.replies|, Listed(notice))
    ensures GoesOn(exploration.tables, provider.replies, |provider.replies| - 1, exploration.render, maxTables, maxTokens)
  {
    var messages := [UserText("Question: " + question)];
    ghost var opening, due := messages, DetailsDue(exploration.tables, maxTables, exploration.render);
    usage, notice := NO_USAGE, None;
    for round := 0 to Rounds(maxRounds)
      invariant Exploring(exploration, provider.replies, maxTables)
      invariant Asking(provider, opening, due, messages, usage) && |provider.replies| == round
      invariant GoesOn(exploration.tables, provider.replies, round, exploration.render, maxTables, maxTokens)
      invariant round > 0 ==>
        MayGoOn(provider.replies[round - 1], exploration.expanded, exploration.render, maxTables, maxTokens)
    {
      ghost var before := provider.replies;
      var outcome;
      outcome, messages, usage := Round(provider, exploration, messages, usage, maxTables, opening, due);
      GoesOnStill(exploration.tables, before, outcome, exploration.render, maxTables, maxTokens);
      assert provider.replies[round] == outcome;
      if outcome.ProviderError? {
        return true, None, usage;
      }
      if outcome.turn.toolCalls == [] {
        return false, None, usage;
      }
      if |exploration.expanded| >= maxTables {
        return false, Some(TableLimit), usage;
      }
      if EstimateTokens(exploration.render(exploration.expanded)) > maxTokens {
        return false, Some(TokenBudget), usage;
      }
      GoesOnNow(exploration.tables, provider.replies, exploration.granted, exploration.expanded,
                exploration.render, maxTables, maxTokens);
    }
    return false, Some(RoundLimit), usage;
  }

  /** discover_schema, with any model behind the provider. */
  method DiscoverSchema(provider: ProviderSession, tables: seq<TableInfo>, question: string,
                        maxRounds: int, maxTables: int, maxTokens: int)
    returns (r: SchemaBlock, ghost granted: seq<ToolCall>)
    requires provider.Unused()
    modifies provider
    ensures tables == [] ==> provider.asked == [] && r == SchemaBlock(SchemaText([]), [], NO_USAGE, 0, 0)
    ensures |provider.asked| <= (if maxRounds > 1 then maxRounds else 1)
    ensures Replied(provider, [UserText("Question: " + question)], DetailsDue(tables, maxTables, TablesText), r.usage)
    ensures granted == Granted(tables, provider.replies, maxTables)
    ensures tables != [] ==>
      provider.replies != []
      && GoesOn(tables, provider.replies, |provider.replies| - 1, TablesText, maxTables, maxTokens)
    ensures tables != [] ==>
      Concludes(tables, question, maxRounds, maxTables, maxTokens, provider.replies, granted, r)
  {
    granted := [];
    if |tables| == 0 {
      return SchemaBlock(SchemaText([]), [], NO_USAGE, 0, 0), [];
    }
    var exploration := new Exploration(tables, TablesText);
    var failed, notice, usage := Explore(provider, exploration, question, maxRounds, maxTables, maxTokens);
    granted := exploration.granted;
    if failed {
      return Fallback(tables, question, maxTokens, usage, Unavailable), granted;
    }
    if exploration.expanded == [] {
      return Fallback(tables, question, maxTokens, usage, NothingRequested), granted;
    }
    var chosen := ChosenFrom(tables, QualifiedNames(exploration.expanded));
    r := SchemaBlock(Directory(tables) + "\n\n" + TablesText(chosen), Listed(notice), usage, |chosen|, |tables|);
  }
}
