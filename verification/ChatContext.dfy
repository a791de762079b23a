/** Windowing of the chat history (chat_context.py). */
module ChatContext {
  import opened Common

  datatype RowRole = UserRow | AssistantRow | OtherRow

  /** A result sample as the prompt shows it; `EmptySample` is the empty dict, which is falsy. */
  datatype Sample = EmptySample | Sample(context: string)

  /** A stored chat message. `answer` is the rendered `ask_json`, `content == ""` a missing content. */
  datatype Row = Row(role: RowRole, content: string, answer: Option<string>, sample: Option<Sample>)

  datatype Speaker = User | Assistant

  datatype Message = Message(speaker: Speaker, content: string)

  type Pair = (Row, Option<Row>)

  // ---------------------------------------------------------------- pairing

  /** The assistant row answering a question: the first one before the next user row. */
  function Answering(rows: seq<Row>): Option<Row> {
    if rows == [] || rows[0].role.UserRow? then None
    else if rows[0].role.AssistantRow? then Some(rows[0])
    else Answering(rows[1..])
  }

  /** Every user row with the assistant row that answers it, in order. */
  function Pairs(rows: seq<Row>): seq<Pair> {
    if rows == [] then []
    else if rows[0].role.UserRow? then [(rows[0], Answering(rows[1..]))] + Pairs(rows[1..])
    else Pairs(rows[1..])
  }

  /** The pairing loop of build_history_messages. */
  method CollectPairs(rows: seq<Row>) returns (pairs: seq<Pair>)
    ensures pairs == Pairs(rows)
  {
    pairs := [];
    var pendingUser: Option<Row> := None;
    for i := 0 to |rows|
      invariant pendingUser.Some? ==> pendingUser.value.role.UserRow?
      invariant Pairs(rows) == match pendingUser
                case None => pairs + Pairs(rows[i..])
                case Some(user) => pairs + [(user, Answering(rows[i..]))] + Pairs(rows[i..])
    {
      assert rows[i..][1..] == rows[i + 1..];
      var row := rows[i];
      if row.role.UserRow? {
        if pendingUser.Some? {
          pairs := pairs + [(pendingUser.value, None)];
        }
        pendingUser := Some(row);
      } else if row.role.AssistantRow? && pendingUser.Some? {
        pairs := pairs + [(pendingUser.value, Some(row))];
        pendingUser := None;
      }
    }
    if pendingUser.Some? {
      pairs := pairs + [(pendingUser.value, None)];
    }
  }

  // -------------------------------------------------------------- rendering

  function UserTurn(question: string, sample: Option<Sample>): string {
    match sample
    case Some(Sample(context)) => context + "\n\nQuestion: " + question
    case _ => "Question: " + question
  }

  /** What the answer of the preceding pair contributes to the next question. */
  function CarriedSample(previous: Option<Row>, includeSamples: bool): Option<Sample> {
    if includeSamples && previous.Some? then previous.value.sample else None
  }

  function RenderPair(pair: Pair, previous: Option<Row>, includeSamples: bool): seq<Message> {
    [Message(User, UserTurn(pair.0.content, CarriedSample(previous, includeSamples)))]
    + (if pair.1.Some? && pair.1.value.answer.Some? then [Message(Assistant, pair.1.value.answer.value)] else [])
  }

  function RenderAfter(pairs: seq<Pair>, previous: Option<Row>, includeSamples: bool): seq<Message>
    decreases |pairs|
  {
    if pairs == [] then []
    else RenderPair(pairs[0], previous, includeSamples) + RenderAfter(pairs[1..], pairs[0].1, includeSamples)
  }

  /** The rendering of a history that starts with `pairs[0]`. */
  function Rendering(pairs: seq<Pair>, includeSamples: bool): seq<Message> {
    RenderAfter(pairs, None, includeSamples)
  }

  lemma RenderStep(done: seq<Message>, pairs: seq<Pair>, i: nat, previous: Option<Row>, includeSamples: bool)
    requires i < |pairs|
    ensures done + RenderAfter(pairs[i..], previous, includeSamples)
         == done + RenderPair(pairs[i], previous, includeSamples) + RenderAfter(pairs[i + 1..], pairs[i].1, includeSamples)
  {
    assert pairs[i..][1..] == pairs[i + 1..];
  }

  method Render(selected: seq<Pair>, includeSamples: bool) returns (messages: seq<Message>)
    ensures messages == Rendering(selected, includeSamples)
  {
    messages := [];
    var previous: Option<Row> := None;
    for i := 0 to |selected|
      invariant Rendering(selected, includeSamples) == messages + RenderAfter(selected[i..], previous, includeSamples)
    {
      RenderStep(messages, selected, i, previous, includeSamples);
      var (userRow, assistantRow) := selected[i];
      var turn := [Message(User, UserTurn(userRow.content, CarriedSample(previous, includeSamples)))];
      if assistantRow.Some? && assistantRow.value.answer.Some? {
        turn := turn + [Message(Assistant, assistantRow.value.answer.value)];
      }
      assert turn == RenderPair(selected[i], previous, includeSamples);
      messages := messages + turn;
      previous := assistantRow;
    }
  }

  /** `sum(len(m["content"]) for m in messages)`. */
  function Size(messages: seq<Message>): nat {
    if messages == [] then 0 else |messages[0].content| + Size(messages[1..])
  }

  // --------------------------------------------------------------- windowing

  /** Python's `pairs[-maxTurns:]`: for 0 the whole list, for a negative value a suffix from the front. */
  function LastTurns(pairs: seq<Pair>, maxTurns: int): seq<Pair> {
    if maxTurns > 0 then (if |pairs| > maxTurns then pairs[|pairs| - maxTurns..] else pairs)
    else if -maxTurns < |pairs| then pairs[-maxTurns..] else []
  }

  predicate Fits(pairs: seq<Pair>, maxChars: int, includeSamples: bool) {
    pairs == [] || Size(Rendering(pairs, includeSamples)) <= maxChars
  }

  /** The longest suffix that fits. */
  function LongestFitting(pairs: seq<Pair>, maxChars: int, includeSamples: bool): seq<Pair> {
    if Fits(pairs, maxChars, includeSamples) then pairs
    else LongestFitting(pairs[1..], maxChars, includeSamples)
  }

  /** build_history_messages. */
  method BuildHistoryMessages(rows: seq<Row>, maxTurns: int, maxChars: int, includeSamples: bool)
    returns (messages: seq<Message>)
    ensures messages == Rendering(LongestFitting(LastTurns(Pairs(rows), maxTurns), maxChars, includeSamples), includeSamples)
  {
    var pairs := CollectPairs(rows);
    pairs := LastTurns(pairs, maxTurns);
    ghost var goal := LongestFitting(pairs, maxChars, includeSamples);
    messages := Render(pairs, includeSamples);
    while pairs != [] && Size(messages) > maxChars
      invariant messages == Rendering(pairs, includeSamples)
      invariant LongestFitting(pairs, maxChars, includeSamples) == goal
      decreases |pairs|
    {
      pairs := pairs[1..];
      messages := Render(pairs, includeSamples);
    }
  }

  // -------------------------------------------------------------- properties

  lemma {:induction false} SizeConcat(a: seq<Message>, b: seq<Message>)
    ensures Size(a + b) == Size(a) + Size(b)
  {
    if a == [] {
      assert a + b == b;
    } else {
      SizeConcat(a[1..], b);
      assert (a + b)[0] == a[0] && (a + b)[1..] == a[1..] + b;
    }
  }

  /** Without the preceding answer, a rendering never grows: only the first question can lose its sample. */
  lemma ForgettingShrinks(pairs: seq<Pair>, previous: Option<Row>, includeSamples: bool)
    ensures Size(Rendering(pairs, includeSamples)) <= Size(RenderAfter(pairs, previous, includeSamples))
  {
    if pairs != [] {
      var rest := RenderAfter(pairs[1..], pairs[0].1, includeSamples);
      SizeConcat(RenderPair(pairs[0], None, includeSamples), rest);
      SizeConcat(RenderPair(pairs[0], previous, includeSamples), rest);
      var a, b := RenderPair(pairs[0], None, includeSamples), RenderPair(pairs[0], previous, includeSamples);
      assert a[1..] == b[1..];
    }
  }

  /** Dropping the oldest pair strictly shrinks the rendering, although the new first question is re-rendered. */
  lemma DropShrinks(pairs: seq<Pair>, includeSamples: bool)
    requires pairs != []
    ensures Size(Rendering(pairs[1..], includeSamples)) < Size(Rendering(pairs, includeSamples))
  {
    var first := RenderPair(pairs[0], None, includeSamples);
    SizeConcat(first, RenderAfter(pairs[1..], pairs[0].1, includeSamples));
    ForgettingShrinks(pairs[1..], pairs[0].1, includeSamples);
    assert |first[0].content| > 0;
  }

  lemma {:induction false} SuffixShrinks(pairs: seq<Pair>, k: nat, includeSamples: bool)
    requires k <= |pairs|
    ensures Size(Rendering(pairs[k..], includeSamples)) + k <= Size(Rendering(pairs, includeSamples))
  {
    if k > 0 {
      SuffixShrinks(pairs, k - 1, includeSamples);
      DropShrinks(pairs[k - 1..], includeSamples);
      assert pairs[k - 1..][1..] == pairs[k..];
    } else {
      assert pairs[0..] == pairs;
    }
  }

  /** The kept history is a suffix; a suffix fits exactly when it is no longer than the kept one. */
  lemma {:induction false} KeptIsLongestFitting(pairs: seq<Pair>, maxChars: int, includeSamples: bool, k: nat)
    requires k <= |pairs|
    ensures var kept := LongestFitting(pairs, maxChars, includeSamples);
            && |kept| <= |pairs| && kept == pairs[|pairs| - |kept|..]
            && (Fits(pairs[k..], maxChars, includeSamples) <==> |pairs| - k <= |kept|)
  {
    if Fits(pairs, maxChars, includeSamples) {
      SuffixShrinks(pairs, k, includeSamples);
    } else {
      var kept := LongestFitting(pairs[1..], maxChars, includeSamples);
      if k > 0 {
        KeptIsLongestFitting(pairs[1..], maxChars, includeSamples, k - 1);
        assert pairs[1..][k - 1..] == pairs[k..];
      } else {
        KeptIsLongestFitting(pairs[1..], maxChars, includeSamples, 0);
        assert pairs[0..] == pairs;
      }
      assert pairs[1..][|pairs| - 1 - |kept|..] == pairs[|pairs| - |kept|..];
    }
  }

  /** The turn limit holds for every character budget exactly when `maxTurns` is positive,
      or zero with nothing to keep: `pairs[-0:]` is the whole list. */
  lemma TurnLimitHoldsIff(pairs: seq<Pair>, maxTurns: int)
    ensures |LastTurns(pairs, maxTurns)| <= maxTurns <==> maxTurns >= 1 || (maxTurns == 0 && pairs == [])
  {}

  /** A suffix of `n` pairs is within the turn limit: at most that many for a positive limit, any for zero, and for a
      negative one those that leave out that many from the front. */
  ghost predicate WithinTurns(pairs: seq<Pair>, maxTurns: int, n: nat) {
    n <= |pairs| && (n == 0 || maxTurns == 0 || (if maxTurns > 0 then n <= maxTurns else n <= |pairs| + maxTurns))
  }

  /** The turn window is the suffix within which exactly the suffixes that respect the limit are. */
  lemma TurnWindow(pairs: seq<Pair>, maxTurns: int, n: nat)
    ensures var window := LastTurns(pairs, maxTurns);
            && |window| <= |pairs| && window == pairs[|pairs| - |window|..]
            && (WithinTurns(pairs, maxTurns, n) <==> n <= |window|)
  {}

  // What the pairs are, read off the row positions.

  /** Row `j` answers the user row `i`: an assistant row with neither user nor assistant row in between. */
  ghost predicate Answers(rows: seq<Row>, i: nat, j: nat) {
    && i < j < |rows| && rows[j].role.AssistantRow?
    && forall k :: i < k < j ==> rows[k].role.OtherRow?
  }

  ghost predicate PairAt(rows: seq<Row>, i: nat, pair: Pair) {
    && i < |rows| && rows[i].role.UserRow? && pair.0 == rows[i]
    && match pair.1
       case Some(answer) => exists j: nat :: Answers(rows, i, j) && rows[j] == answer
       case None => forall j: nat :: !Answers(rows, i, j)
  }

  lemma {:induction false} AnsweringFinds(rows: seq<Row>, i: nat, from: nat)
    requires i < from <= |rows| && forall k :: i < k < from ==> rows[k].role.OtherRow?
    ensures match Answering(rows[from..])
            case Some(answer) => exists j: nat :: Answers(rows, i, j) && rows[j] == answer
            case None => forall j: nat :: !Answers(rows, i, j)
    decreases |rows| - from
  {
    if from < |rows| {
      assert rows[from..][1..] == rows[from + 1..];
      if rows[from].role.AssistantRow? {
        assert Answers(rows, i, from);
      } else if rows[from].role.OtherRow? {
        AnsweringFinds(rows, i, from + 1);
      }
    }
  }

  /** The positions of the questions from `from` on. */
  function UserRowsFrom(rows: seq<Row>, from: nat): (users: seq<nat>)
    requires from <= |rows|
    ensures forall i :: 0 <= i < |users| ==> from <= users[i] < |rows| && rows[users[i]].role.UserRow?
    ensures forall i, j :: 0 <= i < j < |users| ==> users[i] < users[j]
    decreases |rows| - from
  {
    if from == |rows| then []
    else
      var rest := UserRowsFrom(rows, from + 1);
      if rows[from].role.UserRow? then [from] + rest else rest
  }

  /** The pairs are exactly the user rows, in order, each with the row that answers it. */
  lemma {:induction false} PairsAreAnsweredQuestions(rows: seq<Row>, from: nat)
    requires from <= |rows|
    ensures var pairs, users := Pairs(rows[from..]), UserRowsFrom(rows, from);
            |pairs| == |users| && forall k :: 0 <= k < |pairs| ==> PairAt(rows, users[k], pairs[k])
    decreases |rows| - from
  {
    if from < |rows| {
      assert rows[from..][1..] == rows[from + 1..];
      PairsAreAnsweredQuestions(rows, from + 1);
      if rows[from].role.UserRow? {
        AnsweringFinds(rows, from, from + 1);
        var pair := (rows[from], Answering(rows[from + 1..]));
        var pairs, rest := Pairs(rows[from..]), Pairs(rows[from + 1..]);
        assert PairAt(rows, from, pair);
        assert pairs == [pair] + rest && UserRowsFrom(rows, from) == [from] + UserRowsFrom(rows, from + 1);
        forall k | 0 <= k < |pairs| ensures PairAt(rows, UserRowsFrom(rows, from)[k], pairs[k]) {
          assert k > 0 ==> pairs[k] == rest[k - 1];
        }
      }
    }
  }

  lemma SuffixOfSuffix<T>(s: seq<T>, n: nat, m: nat)
    requires m <= n <= |s|
    ensures s[|s| - n..][n - m..] == s[|s| - m..]
  {}

  /** What is kept of a suffix is a suffix. */
  lemma KeptIsSuffix(pairs: seq<Pair>, w: nat, maxChars: int, includeSamples: bool)
    requires w <= |pairs|
    ensures var kept := LongestFitting(pairs[|pairs| - w..], maxChars, includeSamples);
            |kept| <= w && kept == pairs[|pairs| - |kept|..]
  {
    var window := pairs[|pairs| - w..];
    KeptIsLongestFitting(window, maxChars, includeSamples, 0);
    SuffixOfSuffix(pairs, w, |LongestFitting(window, maxChars, includeSamples)|);
  }

  /** A suffix within the window fits exactly when it is no longer than what is kept. */
  lemma FitsIffKept(pairs: seq<Pair>, w: nat, maxChars: int, includeSamples: bool, n: nat)
    requires n <= w <= |pairs|
    ensures Fits(pairs[|pairs| - n..], maxChars, includeSamples)
       <==> n <= |LongestFitting(pairs[|pairs| - w..], maxChars, includeSamples)|
  {
    KeptIsLongestFitting(pairs[|pairs| - w..], maxChars, includeSamples, w - n);
    SuffixOfSuffix(pairs, w, n);
  }

  /** What the character limit keeps of a window. */
  lemma WindowKeeps(pairs: seq<Pair>, window: seq<Pair>, maxTurns: int, maxChars: int, includeSamples: bool, n: nat)
    requires |window| <= |pairs| && window == pairs[|pairs| - |window|..] && n <= |pairs|
    requires WithinTurns(pairs, maxTurns, n) <==> n <= |window|
    ensures var kept := LongestFitting(window, maxChars, includeSamples);
            && |kept| <= |pairs| && kept == pairs[|pairs| - |kept|..]
            && (WithinTurns(pairs, maxTurns, n)
                && (n == 0 || Size(Rendering(pairs[|pairs| - n..], includeSamples)) <= maxChars)
                <==> n <= |kept|)
  {
    var w := |window|;
    KeptIsSuffix(pairs, w, maxChars, includeSamples);
    if n <= w {
      FitsIffKept(pairs, w, maxChars, includeSamples, n);
      assert pairs[|pairs| - n..] == [] <==> n == 0;
    }
  }

  /** build_history_messages as a whole: what is kept is a suffix of the pairs, and a suffix is within it exactly when it
      respects the turn limit and its text is not too long. */
  lemma HistoryIsLongestWindow(rows: seq<Row>, maxTurns: int, maxChars: int, includeSamples: bool, n: nat)
    requires n <= |Pairs(rows)|
    ensures var pairs := Pairs(rows);
            var kept := LongestFitting(LastTurns(pairs, maxTurns), maxChars, includeSamples);
            && |kept| <= |pairs| && kept == pairs[|pairs| - |kept|..]
            && (WithinTurns(pairs, maxTurns, n)
                && (n == 0 || Size(Rendering(pairs[|pairs| - n..], includeSamples)) <= maxChars)
                <==> n <= |kept|)
  {
    var pairs := Pairs(rows);
    TurnWindow(pairs, maxTurns, n);
    WindowKeeps(pairs, LastTurns(pairs, maxTurns), maxTurns, maxChars, includeSamples, n);
  }

  // ----------------------------------------------------- what the messages say

  function ContentOf(m: Message): string { m.content }

  /** The size of a history is the number of characters of its messages. */
  lemma {:induction false} SizeIsLength(messages: seq<Message>)
    ensures Size(messages) == TotalLength(Map(ContentOf, messages))
  {
    if messages != [] {
      var last := |messages| - 1;
      SizeIsLength(messages[..last]);
      assert messages == messages[..last] + [messages[last]];
      SizeConcat(messages[..last], [messages[last]]);
      MapSnoc(ContentOf, messages, last);
      assert messages[..last + 1] == messages;
      var contents := Map(ContentOf, messages[..last]);
      assert (contents + [messages[last].content])[..last] == contents;
    }
  }

  /** The sample shown in front of a question: the one the answer before it carries, unless that is empty or switched off. */
  function ShownBefore(previous: Option<Row>, includeSamples: bool): string {
    if includeSamples && previous.Some? && previous.value.sample.Some? && previous.value.sample.value.Sample?
    then previous.value.sample.value.context + "\n\n" else ""
  }

  predicate HasAnswer(pair: Pair) { pair.1.Some? && pair.1.value.answer.Some? }

  /** From position `at` on: the question, after the sample it is shown with, and the stored answer if there is one. */
  ghost predicate TurnReads(messages: seq<Message>, at: nat, pair: Pair, previous: Option<Row>, includeSamples: bool) {
    && at < |messages| && messages[at].speaker == User
    && messages[at].content == ShownBefore(previous, includeSamples) + ("Question: " + pair.0.content)
    && (HasAnswer(pair) ==> at + 1 < |messages| && messages[at + 1] == Message(Assistant, pair.1.value.answer.value))
  }

  /** Turn `k` reads so at its position, and the next turn starts right after it. */
  ghost predicate TurnAt(messages: seq<Message>, kept: seq<Pair>, before: Option<Row>, includeSamples: bool, at: seq<nat>,
                         k: nat)
  {
    && k < |kept| && k + 1 < |at|
    && at[k + 1] == at[k] + (if HasAnswer(kept[k]) then 2 else 1)
    && TurnReads(messages, at[k], kept[k], if k == 0 then before else kept[k - 1].1, includeSamples)
  }

  /** The turns of a history stand one after the other in its messages, and nothing else does. */
  ghost predicate HistoryReads(messages: seq<Message>, kept: seq<Pair>, before: Option<Row>, includeSamples: bool,
                               at: seq<nat>)
  {
    && |at| == |kept| + 1 && at[0] == 0 && at[|kept|] == |messages|
    && forall k: nat {:trigger TurnAt(messages, kept, before, includeSamples, at, k)} ::
         k < |kept| ==> TurnAt(messages, kept, before, includeSamples, at, k)
  }

  lemma QuestionReads(question: string, previous: Option<Row>, includeSamples: bool)
    ensures UserTurn(question, CarriedSample(previous, includeSamples))
         == ShownBefore(previous, includeSamples) + ("Question: " + question)
  {
    match CarriedSample(previous, includeSamples)
    case Some(Sample(context)) => assert "\n\n" + "Question: " == "\n\nQuestion: ";
    case _ =>
  }

  lemma PairReads(pair: Pair, previous: Option<Row>, includeSamples: bool, rest: seq<Message>)
    ensures |RenderPair(pair, previous, includeSamples)| == (if HasAnswer(pair) then 2 else 1)
    ensures TurnReads(RenderPair(pair, previous, includeSamples) + rest, 0, pair, previous, includeSamples)
  {
    QuestionReads(pair.0.content, previous, includeSamples);
  }

  lemma TurnReadsLater(first: seq<Message>, rest: seq<Message>, at: nat, pair: Pair, previous: Option<Row>,
                       includeSamples: bool)
    requires TurnReads(rest, at, pair, previous, includeSamples)
    ensures TurnReads(first + rest, |first| + at, pair, previous, includeSamples)
  {}

  /** The positions of the turns. */
  lemma {:induction false} RenderingReads(kept: seq<Pair>, before: Option<Row>, includeSamples: bool) returns (at: seq<nat>)
    ensures HistoryReads(RenderAfter(kept, before, includeSamples), kept, before, includeSamples, at)
  {
    if kept == [] {
      at := [0];
    } else {
      var first := RenderPair(kept[0], before, includeSamples);
      var rest := RenderAfter(kept[1..], kept[0].1, includeSamples);
      PairReads(kept[0], before, includeSamples, rest);
      var later := RenderingReads(kept[1..], kept[0].1, includeSamples);
      at := [0] + Map((n: nat) => |first| + n, later);
      ReadsLater(first, rest, kept, before, includeSamples, later, at);
    }
  }

  lemma ReadsLater(first: seq<Message>, rest: seq<Message>, kept: seq<Pair>, before: Option<Row>, includeSamples: bool,
                   later: seq<nat>, at: seq<nat>)
    requires kept != [] && HistoryReads(rest, kept[1..], kept[0].1, includeSamples, later)
    requires TurnReads(first + rest, 0, kept[0], before, includeSamples) && |first| == (if HasAnswer(kept[0]) then 2 else 1)
    requires |at| == |later| + 1 && at[0] == 0 && forall k :: 0 <= k < |later| ==> at[k + 1] == |first| + later[k]
    ensures HistoryReads(first + rest, kept, before, includeSamples, at)
  {
    forall k: nat | k < |kept| ensures TurnAt(first + rest, kept, before, includeSamples, at, k) {
      if k > 0 {
        assert TurnAt(rest, kept[1..], kept[0].1, includeSamples, later, k - 1);
        assert kept[1..][k - 1] == kept[k] && at[k] == |first| + later[k - 1] && at[k + 1] == |first| + later[k];
        assert k > 1 ==> kept[1..][k - 2] == kept[k - 1];
        TurnReadsLater(first, rest, later[k - 1], kept[k], kept[k - 1].1, includeSamples);
      }
    }
  }

  // ------------------------------------------------------ which sample a turn shows

  /** The answer of the turn before `k`, within the history that is sent. */
  function Previous(kept: seq<Pair>, k: nat): Option<Row>
    requires k < |kept|
  {
    if k == 0 then None else kept[k - 1].1
  }

  /** The last assistant row before position `u` that has a sample. */
  function LatestSampled(rows: seq<Row>, u: nat): Option<nat>
    requires u <= |rows|
  {
    if u == 0 then None
    else if rows[u - 1].role.AssistantRow? && rows[u - 1].sample.Some? then Some(u - 1)
    else LatestSampled(rows, u - 1)
  }

  lemma {:induction false} LatestSampledFinds(rows: seq<Row>, u: nat)
    requires u <= |rows|
    ensures match LatestSampled(rows, u)
            case Some(j) =>
              && j < u && rows[j].role.AssistantRow? && rows[j].sample.Some?
              && forall i :: j < i < u && rows[i].role.AssistantRow? ==> rows[i].sample == None
            case None => forall i :: 0 <= i < u && rows[i].role.AssistantRow? ==> rows[i].sample == None
  {
    if u > 0 {
      LatestSampledFinds(rows, u - 1);
    }
  }

  /** Where the questions of the pairs are. */
  function Questions(rows: seq<Row>): (users: seq<nat>)
    ensures |users| == |Pairs(rows)|
    ensures forall i :: 0 <= i < |users| ==> users[i] < |rows| && rows[users[i]].role.UserRow?
    ensures forall i, j :: 0 <= i < j < |users| ==> users[i] < users[j]
  {
    assert rows[0..] == rows;
    PairsAreAnsweredQuestions(rows, 0);
    UserRowsFrom(rows, 0)
  }

  /** What the latest executed answer before position `u` carries. */
  function LatestSample(rows: seq<Row>, u: nat): Option<Sample>
    requires u <= |rows|
  {
    LatestSampledFinds(rows, u);
    match LatestSampled(rows, u) case Some(j) => rows[j].sample case None => None
  }

  /** The answer to the question at position `i` carries this sample. */
  ghost predicate AnswerCarries(rows: seq<Row>, i: nat, sample: Option<Sample>) {
    exists j: nat :: Answers(rows, i, j) && rows[j].sample == sample
  }

  /** Exactly when a turn of the sent history shows the sample of the latest executed answer before its question: no
      earlier answer has one, or it is not the first turn sent and the answer to the question before it carries that
      sample. `first` is where the sent history starts among the pairs. */
  lemma TurnShowsLatestIff(rows: seq<Row>, first: nat, k: nat)
    requires first + k < |Pairs(rows)|
    ensures var users, kept := Questions(rows), Pairs(rows)[first..];
            var u := users[first + k];
            CarriedSample(Previous(kept, k), true) == LatestSample(rows, u)
            <==> LatestSampled(rows, u) == None || (k > 0 && AnswerCarries(rows, users[first + k - 1], LatestSample(rows, u)))
  {
    var users, pairs := Questions(rows), Pairs(rows);
    var u := users[first + k];
    assert rows[0..] == rows;
    PairsAreAnsweredQuestions(rows, 0);
    LatestSampledFinds(rows, u);
    if k > 0 {
      PreviousAnswer(rows, users[first + k - 1], u, pairs[first + k - 1], LatestSample(rows, u));
    }
  }

  lemma PreviousAnswer(rows: seq<Row>, before: nat, u: nat, pair: Pair, sample: Option<Sample>)
    requires before < u < |rows| && rows[u].role.UserRow? && PairAt(rows, before, pair)
    ensures pair.1.Some? ==> exists j: nat :: j < u && Answers(rows, before, j) && rows[j] == pair.1.value
    ensures sample.Some? ==> (CarriedSample(pair.1, true) == sample <==> AnswerCarries(rows, before, sample))
  {
    if pair.1.Some? {
      var j: nat :| Answers(rows, before, j) && rows[j] == pair.1.value;
      assert j < u;
      forall i: nat | Answers(rows, before, i) ensures i == j {}
    }
  }

  // An executed answer, then a question that was never answered, then another one.
  const EXECUTED := Row(AssistantRow, "", Some("{}"), Some(Sample("rows")))
  const UNANSWERED := [Row(UserRow, "a", None, None), EXECUTED, Row(UserRow, "b", None, None), Row(UserRow, "c", None, None)]

  /** The docstring's "preceding executed assistant turn" is not what is carried: after an unanswered question the
      sample is gone, and the first turn sent never has one. */
  lemma SampleIsDropped()
    ensures Pairs(UNANSWERED) == [(UNANSWERED[0], Some(EXECUTED)), (UNANSWERED[2], None), (UNANSWERED[3], None)]
    ensures LatestSample(UNANSWERED, 3) == Some(Sample("rows"))
    ensures CarriedSample(Previous(Pairs(UNANSWERED), 2), true) == None
    ensures LatestSample(UNANSWERED, 2) == Some(Sample("rows"))
    ensures CarriedSample(Previous(Pairs(UNANSWERED)[1..], 0), true) == None
  {
    var rows := UNANSWERED;
    assert Pairs(rows[4..]) == [] && Answering(rows[4..]) == None;
    assert rows[3..][1..] == rows[4..] && rows[2..][1..] == rows[3..] && rows[1..][1..] == rows[2..];
    assert Pairs(rows[3..]) == [(rows[3], None)];
    assert Pairs(rows[2..]) == [(rows[2], None)] + Pairs(rows[3..]);
    assert Pairs(rows[1..]) == Pairs(rows[2..]);
    assert LatestSampled(rows, 2) == Some(1);
    assert LatestSampled(rows, 3) == Some(1);
  }

  // ------------------------------------------------------------ latest sample

  /** latest_result_sample: the reversed scan finds the last assistant row that carries a sample. */
  method LatestResultSample(rows: seq<Row>, includeSamples: bool) returns (sample: Option<Sample>)
    ensures !includeSamples ==> sample == None
    ensures includeSamples ==> match sample
      case Some(s) => exists i :: 0 <= i < |rows| && rows[i].role.AssistantRow? && rows[i].sample == Some(s)
                                  && forall j :: i < j < |rows| && rows[j].role.AssistantRow? ==> rows[j].sample == None
      case None => forall j :: 0 <= j < |rows| && rows[j].role.AssistantRow? ==> rows[j].sample == None
  {
    if !includeSamples {
      return None;
    }
    for i := |rows| downto 0
      invariant forall j :: i <= j < |rows| && rows[j].role.AssistantRow? ==> rows[j].sample == None
    {
      if rows[i].role.AssistantRow? && rows[i].sample.Some? {
        return rows[i].sample;
      }
    }
    return None;
  }
}
