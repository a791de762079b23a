/** Safety, delivery and progress of the streaming Ask endpoint over every interleaving. */
module AskServerProperties {
  import opened Common
  import opened AskServer

  // ---------------------------------------------------------------- invariant

  function FlowTail(f: FlowState): seq<Entry> {
    if f.Finished? then [Some(FinalResult)] else if f.Failed? then [Some(ErrorEvent)] else []
  }

  predicate PastWait(c: CoordState) { c.AwaitingSender? || c.Finalizing? || c.Closed? }

  function CoordTail(s: State): seq<Entry> {
    if !PastWait(s.coord) then []
    else if !s.cancelRequested then [None]
    else if s.flow.Raised? then []
    else Farewell(s.watcher)
  }

  function Tail(s: State): seq<Entry> { FlowTail(s.flow) + CoordTail(s) }

  /** Progress events only, then exactly `tail`. */
  ghost predicate EndsWith(put: seq<Entry>, tail: seq<Entry>) {
    && |tail| <= |put|
    && put[|put| - |tail|..] == tail
    && forall i :: 0 <= i < |put| - |tail| ==> put[i].Some? && put[i].value.Progress?
  }

  /** The socket output is the start of the queue's history, numbered from 1. */
  ghost predicate NumberedPrefix(sent: seq<(nat, Event)>, put: seq<Entry>) {
    && |sent| <= |put|
    && forall i :: 0 <= i < |sent| ==> sent[i].0 == i + 1 && put[i] == Some(sent[i].1)
  }

  ghost predicate Forwarding(ch: Channel) {
    && |ch.queue| <= |ch.put|
    && ch.queue == ch.put[|ch.put| - |ch.queue|..]
    && NumberedPrefix(ch.sent, ch.put)
    && var taken := |ch.put| - |ch.queue|;
       match ch.sender
       case Idle => ch.count == taken == |ch.sent|
       case Sending(n, e) => ch.count == n == taken == |ch.sent| + 1 && ch.put[|ch.sent|] == Some(e)
       case Drained => taken == |ch.sent| + 1 && ch.put[|ch.sent|] == None
       case Broken => true
  }

  ghost predicate Control(s: State) {
    && (s.coord.Waiting? ==> !s.cancelRequested)
    && (s.coord.Joining? || s.coord.Undoing? ==> s.cancelRequested)
    && (s.coord.Undoing? ==> s.flow.Aborted?)
    && (s.cancelRequested ==> s.watcher.Some? && !s.flow.Finished? && !s.flow.Failed?)
    && (PastWait(s.coord) ==> FlowDone(s.flow))
    && (s.coord.AwaitingSender? && s.cancelRequested ==> s.flow.Aborted?)
    && (s.flow.Aborted? ==> s.cancelRequested)
    && (s.txn.Committed? <==> s.flow.Finished?)
    && (s.flow.Failed? ==> s.txn.RolledBack?)
    && (PastWait(s.coord) && s.flow.Aborted? ==> s.txn.RolledBack? || s.undoRaised)
    && (s.coord.Closed? ==> s.ch.sender.Drained? || s.ch.sender.Broken?)
  }

  ghost predicate Inv(s: State) { Forwarding(s.ch) && EndsWith(s.ch.put, Tail(s)) && Control(s) }

  lemma PutKeepsForwarding(ch: Channel, items: seq<Entry>)
    requires Forwarding(ch)
    ensures Forwarding(Put(ch, items))
  {
    assert |Put(ch, items).put| - |Put(ch, items).queue| == |ch.put| - |ch.queue|;
  }

  lemma ExtendTail(put: seq<Entry>, tail: seq<Entry>, more: seq<Entry>)
    requires EndsWith(put, tail)
    ensures EndsWith(put + more, tail + more)
  {}

  lemma SenderKeepsForwarding(ch: Channel, a: SenderAction)
    requires Forwarding(ch) && SenderEnabled(ch, a)
    ensures Forwarding(SenderStep(ch, a))
  {
    if a.Take? {
      assert ch.queue[0] == ch.put[|ch.put| - |ch.queue|];
      assert ch.queue[1..] == ch.put[|ch.put| - |ch.queue| + 1..];
    }
  }

  lemma FlowKeepsControl(s: State, a: FlowAction)
    requires Control(s) && FlowEnabled(s, a)
    ensures Control(FlowStep(s, a)) && CoordTail(s) == CoordTail(FlowStep(s, a)) == [] && FlowTail(s.flow) == []
  {}

  /** What a flow action enqueues. */
  function FlowPuts(a: FlowAction): seq<Entry> {
    match a
    case Emit(note) => [Some(Progress(note))]
    case Commit => [Some(FinalResult)]
    case RollbackDone => [Some(ErrorEvent)]
    case _ => []
  }

  lemma FlowExtends(s: State, a: FlowAction)
    requires Control(s) && FlowEnabled(s, a) && EndsWith(s.ch.put, [])
    ensures EndsWith(s.ch.put + FlowPuts(a), FlowTail(FlowStep(s, a).flow))
  {
    ExtendTail(s.ch.put, [], FlowPuts(a));
  }

  lemma FlowKeepsInv(s: State, a: FlowAction)
    requires Inv(s) && FlowEnabled(s, a)
    ensures Inv(FlowStep(s, a))
  {
    FlowKeepsControl(s, a);
    FlowExtends(s, a);
    PutKeepsForwarding(s.ch, FlowPuts(a));
    assert s.ch.put + [] == s.ch.put && s.ch.queue + [] == s.ch.queue;
    assert FlowStep(s, a).ch == Put(s.ch, FlowPuts(a));
  }

  lemma WakeKeepsInv(s: State)
    requires Inv(s) && CoordEnabled(s, Wake)
    ensures Inv(CoordStep(s, Wake))
  {
    if FlowDone(s.flow) {
      PutKeepsForwarding(s.ch, [None]);
      ExtendTail(s.ch.put, FlowTail(s.flow), [None]);
      assert CoordTail(s) == [];
    }
  }

  lemma UndoKeepsInv(s: State, ok: bool)
    requires Inv(s) && CoordEnabled(s, Undo(ok))
    ensures Inv(CoordStep(s, Undo(ok)))
  {
    PutKeepsForwarding(s.ch, Farewell(s.watcher));
    ExtendTail(s.ch.put, [], Farewell(s.watcher));
  }

  lemma CoordKeepsInv(s: State, a: CoordAction)
    requires Inv(s) && CoordEnabled(s, a)
    ensures Inv(CoordStep(s, a))
  {
    match a
    case Wake => WakeKeepsInv(s);
    case Undo(ok) => UndoKeepsInv(s, ok);
    case _ => assert CoordStep(s, a).ch.put == s.ch.put;
  }

  lemma SenderKeepsInv(s: State, a: SenderAction)
    requires Inv(s) && SenderEnabled(s.ch, a)
    ensures Inv(s.(ch := SenderStep(s.ch, a)))
  {
    SenderKeepsForwarding(s.ch, a);
    assert SenderStep(s.ch, a).put == s.ch.put;
  }

  lemma WatcherKeepsInv(s: State, report: Report)
    requires Inv(s) && s.watcher.None?
    ensures Inv(s.(watcher := Some(report)))
  {
    assert Tail(s.(watcher := Some(report))) == Tail(s);
  }

  lemma StepKeepsInv(s: State, a: Action)
    requires Inv(s) && Enabled(s, a)
    ensures Inv(Apply(s, a))
  {
    match a
    case Flow(f) => FlowKeepsInv(s, f);
    case Client(report) => WatcherKeepsInv(s, report);
    case Send(x) => SenderKeepsInv(s, x);
    case Coordinate(c) => CoordKeepsInv(s, c);
  }

  lemma {:induction false} RunKeepsInv(s: State, schedule: seq<Action>)
    requires Inv(s) && Schedulable(s, schedule)
    ensures Inv(Run(s, schedule))
    decreases |schedule|
  {
    if schedule != [] {
      StepKeepsInv(s, schedule[0]);
      RunKeepsInv(Apply(s, schedule[0]), schedule[1..]);
    }
  }

  // ------------------------------------------------------------------- safety

  predicate Terminal(e: Entry) { e.Some? && !e.value.Progress? }

  /** One terminal event at most, only the sentinel after it, nothing after the sentinel. */
  ghost predicate WellClosed(put: seq<Entry>) {
    && (forall i, j :: 0 <= i < j < |put| && Terminal(put[i]) ==> put[j] == None)
    && (forall i :: 0 <= i < |put| && put[i] == None ==> i == |put| - 1)
  }

  /** The terminal event tells the truth about the transaction. */
  ghost predicate Truthful(s: State) {
    && (Some(FinalResult) in s.ch.put <==> s.txn == Committed)
    && (Some(ErrorEvent) in s.ch.put ==> s.txn == RolledBack)
    && (Some(Cancelled) in s.ch.put ==> s.txn == RolledBack || s.undoRaised)
  }

  ghost predicate Safe(s: State) {
    WellClosed(s.ch.put) && Truthful(s) && NumberedPrefix(s.ch.sent, s.ch.put)
  }

  lemma TailMembers(put: seq<Entry>, tail: seq<Entry>, e: Entry)
    requires EndsWith(put, tail) && (e == None || Terminal(e))
    ensures e in put <==> e in tail
  {
    var n := |put| - |tail|;
    assert put == put[..n] + tail;
  }

  lemma TailIsWellClosed(s: State)
    requires Control(s)
    ensures WellClosed(Tail(s))
  {}

  lemma PutIsWellClosed(put: seq<Entry>, tail: seq<Entry>)
    requires EndsWith(put, tail) && WellClosed(tail)
    ensures WellClosed(put)
  {
    var n := |put| - |tail|;
    assert forall i :: n <= i < |put| ==> put[i] == tail[i - n];
  }

  lemma InvIsTruthful(s: State)
    requires Inv(s)
    ensures Truthful(s)
  {
    var put, tail := s.ch.put, Tail(s);
    TailMembers(put, tail, Some(FinalResult));
    TailMembers(put, tail, Some(ErrorEvent));
    TailMembers(put, tail, Some(Cancelled));
    if s.flow.Finished? {
      assert tail[0] == Some(FinalResult);
    }
  }

  lemma InvIsSafe(s: State)
    requires Inv(s)
    ensures Safe(s)
  {
    TailIsWellClosed(s);
    PutIsWellClosed(s.ch.put, Tail(s));
    InvIsTruthful(s);
  }

  lemma FreshForwarding(ch: Channel)
    requires ch.put == ch.queue == [] && ch.sent == [] && ch.count == 0 && ch.sender.Idle?
    ensures Forwarding(ch)
  {
    assert ch.put[0..] == [];
  }

  lemma FreshTail(s: State)
    requires s.flow.Running? && s.coord.Waiting?
    ensures Tail(s) == []
  {}

  lemma NothingEnds(put: seq<Entry>)
    requires put == []
    ensures EndsWith(put, [])
  {
    assert put[0..] == [];
  }

  lemma FreshInv(s: State)
    requires s.ch.put == s.ch.queue == [] && s.ch.sent == [] && s.ch.count == 0 && s.ch.sender.Idle?
    requires s.txn.Open? && s.flow.Running? && s.watcher.None? && s.coord.Waiting? && !s.cancelRequested
    ensures Inv(s)
  {
    FreshForwarding(s.ch);
    FreshTail(s);
    NothingEnds(s.ch.put);
  }

  lemma StartInv()
    ensures Inv(START)
  {
    FreshInv(START);
  }

  /** Safety in every state of every interleaving. */
  lemma Safety(schedule: seq<Action>)
    requires Schedulable(START, schedule)
    ensures Safe(Run(START, schedule))
  {
    StartInv();
    RunKeepsInv(START, schedule);
    InvIsSafe(Run(START, schedule));
  }

  // ---------------------------------------- what the schedule says about the end

  /** What has happened so far: every action, and whether a rollback inside run_flow raised after the coordinator woke up. */
  datatype Past = Past(seen: set<Action>, cut: bool)

  function Note(past: Past, a: Action): Past {
    Past(past.seen + {a}, past.cut || (a == Flow(RollbackRaises) && Coordinate(Wake) in past.seen))
  }

  function NoteAll(past: Past, schedule: seq<Action>): Past
    decreases |schedule|
  {
    if schedule == [] then past else NoteAll(Note(past, schedule[0]), schedule[1..])
  }

  /** A rollback inside run_flow raised after the coordinator woke up. */
  ghost predicate CutShort(schedule: seq<Action>) {
    exists i, j :: 0 <= i < j < |schedule| && schedule[i] == Coordinate(Wake) && schedule[j] == Flow(RollbackRaises)
  }

  lemma {:induction false} NoteAllMeans(past: Past, schedule: seq<Action>)
    ensures var all := NoteAll(past, schedule);
            && (forall a :: a in all.seen <==> a in past.seen || a in schedule)
            && (all.cut <==> past.cut || CutShort(schedule)
                             || (Coordinate(Wake) in past.seen && Flow(RollbackRaises) in schedule))
    decreases |schedule|
  {
    if schedule != [] {
      var rest := schedule[1..];
      NoteAllMeans(Note(past, schedule[0]), rest);
      CutShortFirst(schedule);
    }
  }

  lemma CutShortFirst(schedule: seq<Action>)
    requires schedule != []
    ensures CutShort(schedule)
       <==> CutShort(schedule[1..]) || (schedule[0] == Coordinate(Wake) && Flow(RollbackRaises) in schedule[1..])
  {
    var rest := schedule[1..];
    if i, j :| 0 <= i < j < |rest| && rest[i] == Coordinate(Wake) && rest[j] == Flow(RollbackRaises) {
      assert schedule[i + 1] == Coordinate(Wake) && schedule[j + 1] == Flow(RollbackRaises);
    }
    if i, j :| 0 <= i < j < |schedule| && schedule[i] == Coordinate(Wake) && schedule[j] == Flow(RollbackRaises) {
      assert rest[j - 1] == Flow(RollbackRaises);
      assert i > 0 ==> rest[i - 1] == Coordinate(Wake);
    }
  }

  /** The past explains the flow, the watcher and the coordinator ... */
  ghost predicate Explained(s: State, past: Past) {
    && (s.flow.Finished? <==> Flow(Commit) in past.seen)
    && (s.flow.Failed? <==> Flow(RollbackDone) in past.seen)
    && (s.flow.Raised? <==> Flow(CommitRaises) in past.seen || Flow(RollbackRaises) in past.seen)
    && (s.flow.Aborted? <==> Flow(Unwind) in past.seen)
    && (s.watcher == Some(CancelMessage) <==> Client(CancelMessage) in past.seen)
    && (s.watcher == Some(Disconnect) <==> Client(Disconnect) in past.seen)
    && (s.coord.Waiting? <==> Coordinate(Wake) !in past.seen)
    && (past.cut <==> s.flow.Raised? && s.cancelRequested)
  }

  /** ... and why the sender is where it is. */
  ghost predicate SenderExplained(s: State, past: Past) {
    && (Send(SendFails) in past.seen ==> s.ch.sender.Broken? && |s.ch.sent| < |s.ch.put| && s.ch.put[|s.ch.sent|].Some?)
    && (s.ch.sender.Broken? && Send(SendFails) !in past.seen ==> s.coord.Closed?)
    && (s.coord.Finalizing? || s.coord.Closed? ==> s.ch.sender.Drained? || Send(SendFails) in past.seen || past.cut)
  }

  lemma FlowExplained(s: State, f: FlowAction, past: Past)
    requires Control(s) && FlowEnabled(s, f) && Explained(s, past)
    ensures Explained(FlowStep(s, f), Note(past, Flow(f)))
  {}

  lemma CoordExplained(s: State, c: CoordAction, past: Past)
    requires Control(s) && CoordEnabled(s, c) && Explained(s, past)
    ensures Explained(CoordStep(s, c), Note(past, Coordinate(c)))
  {}

  lemma StepExplained(s: State, a: Action, past: Past)
    requires Control(s) && Enabled(s, a) && Explained(s, past)
    ensures Explained(Apply(s, a), Note(past, a))
  {
    match a
    case Flow(f) => FlowExplained(s, f, past);
    case Client(_) =>
    case Send(_) =>
    case Coordinate(c) => CoordExplained(s, c, past);
  }

  lemma SendExplained(s: State, x: SenderAction, past: Past)
    requires Forwarding(s.ch) && SenderEnabled(s.ch, x) && SenderExplained(s, past)
    ensures SenderExplained(s.(ch := SenderStep(s.ch, x)), Note(past, Send(x)))
  {}

  lemma CoordSenderExplained(s: State, c: CoordAction, past: Past)
    requires Inv(s) && CoordEnabled(s, c) && Explained(s, past) && SenderExplained(s, past)
    ensures SenderExplained(CoordStep(s, c), Note(past, Coordinate(c)))
  {}

  lemma StepSenderExplained(s: State, a: Action, past: Past)
    requires Inv(s) && Enabled(s, a) && Explained(s, past) && SenderExplained(s, past)
    ensures SenderExplained(Apply(s, a), Note(past, a))
  {
    match a
    case Flow(f) =>
    case Client(_) =>
    case Send(x) => SendExplained(s, x, past);
    case Coordinate(c) => CoordSenderExplained(s, c, past);
  }

  lemma {:induction false} RunExplained(s: State, schedule: seq<Action>, past: Past)
    requires Inv(s) && Schedulable(s, schedule) && Explained(s, past) && SenderExplained(s, past)
    ensures var end, all := Run(s, schedule), NoteAll(past, schedule);
            Inv(end) && Explained(end, all) && SenderExplained(end, all)
    decreases |schedule|
  {
    if schedule != [] {
      StepKeepsInv(s, schedule[0]);
      StepExplained(s, schedule[0], past);
      StepSenderExplained(s, schedule[0], past);
      RunExplained(Apply(s, schedule[0]), schedule[1..], Note(past, schedule[0]));
    }
  }

  const NOTHING := Past({}, false)

  lemma StartExplained(s: State, past: Past)
    requires s.flow.Running? && s.watcher.None? && s.coord.Waiting? && s.ch.sender.Idle?
    requires past.seen == {} && !past.cut
    ensures Explained(s, past) && SenderExplained(s, past)
  {}

  lemma NotedFromStart(past: Past, schedule: seq<Action>)
    requires past == NOTHING
    ensures var all := NoteAll(past, schedule);
            (forall a :: a in all.seen <==> a in schedule) && (all.cut <==> CutShort(schedule))
  {
    NoteAllMeans(past, schedule);
  }

  lemma RunExplainedFrom(s: State, nothing: Past, schedule: seq<Action>)
    requires s == START && nothing == NOTHING && Schedulable(s, schedule)
    ensures var end, past := Run(s, schedule), NoteAll(nothing, schedule);
            Inv(end) && Explained(end, past) && SenderExplained(end, past)
  {
    StartInv();
    StartExplained(s, nothing);
    RunExplained(s, schedule, nothing);
  }

  lemma StartedRunExplained(schedule: seq<Action>) returns (past: Past)
    requires Schedulable(START, schedule)
    ensures var end := Run(START, schedule); Inv(end) && Explained(end, past) && SenderExplained(end, past)
    ensures (forall a :: a in past.seen <==> a in schedule) && (past.cut <==> CutShort(schedule))
  {
    past := NoteAll(NOTHING, schedule);
    RunExplainedFrom(START, NOTHING, schedule);
    NotedFromStart(NOTHING, schedule);
  }

  /** Which terminal event is queued: final_result exactly when the flow committed, error exactly when it finished its
      rollback, and, past the wait, cancelled exactly when it was unwound for a client that asked to cancel. */
  lemma TerminalIff(schedule: seq<Action>)
    requires Schedulable(START, schedule)
    ensures var s := Run(START, schedule);
            && (Some(FinalResult) in s.ch.put <==> Flow(Commit) in schedule)
            && (Some(ErrorEvent) in s.ch.put <==> Flow(RollbackDone) in schedule)
            && (PastWait(s.coord) ==>
                  (Some(Cancelled) in s.ch.put <==> Flow(Unwind) in schedule && Client(CancelMessage) in schedule))
  {
    var past := StartedRunExplained(schedule);
    TerminalsInTail(Run(START, schedule));
  }

  lemma TerminalsInTail(s: State)
    requires Inv(s)
    ensures Some(FinalResult) in s.ch.put <==> s.flow.Finished?
    ensures Some(ErrorEvent) in s.ch.put <==> s.flow.Failed?
    ensures PastWait(s.coord) ==> (Some(Cancelled) in s.ch.put <==> s.flow.Aborted? && s.watcher == Some(CancelMessage))
  {
    TailMembers(s.ch.put, Tail(s), Some(FinalResult));
    TailMembers(s.ch.put, Tail(s), Some(ErrorEvent));
    TailMembers(s.ch.put, Tail(s), Some(Cancelled));
    InTail(s, Some(FinalResult));
    InTail(s, Some(ErrorEvent));
    InTail(s, Some(Cancelled));
  }

  lemma InTail(s: State, e: Entry)
    ensures e in Tail(s) <==> e in FlowTail(s.flow) || e in CoordTail(s)
  {
    InConcat(FlowTail(s.flow), CoordTail(s), e);
  }

  /** The client does not go away, and neither commit nor rollback raises. */
  predicate Undisturbed(schedule: seq<Action>) {
    Client(Disconnect) !in schedule && Flow(CommitRaises) !in schedule && Flow(RollbackRaises) !in schedule
  }

  /** Progress events, one terminal event, the sentinel. */
  ghost predicate EndsOnce(put: seq<Entry>) {
    && |put| >= 2 && put[|put| - 1] == None && Terminal(put[|put| - 2])
    && forall i :: 0 <= i < |put| - 2 ==> put[i].Some? && put[i].value.Progress?
  }

  lemma TailIsPair(s: State)
    requires Control(s) && PastWait(s.coord) && !s.flow.Raised? && s.watcher != Some(Disconnect)
    ensures |Tail(s)| == 2 && Terminal(Tail(s)[0]) && Tail(s)[1] == None
  {
    if s.cancelRequested {
      assert s.watcher.value.CancelMessage?;
      assert Tail(s) == [Some(Cancelled), None];
    } else {
      assert CoordTail(s) == [None];
    }
  }

  lemma PairEndsOnce(put: seq<Entry>, tail: seq<Entry>)
    requires EndsWith(put, tail) && |tail| == 2 && Terminal(tail[0]) && tail[1] == None
    ensures EndsOnce(put)
  {
    assert put[|put| - 2] == tail[0] && put[|put| - 1] == tail[1];
  }

  /** In every schedule without a disconnect and without a raising commit or rollback: once the coordinator is past
      its wait exactly one terminal event was queued, last before the sentinel. */
  lemma ExactlyOneTerminal(schedule: seq<Action>)
    requires Schedulable(START, schedule) && Undisturbed(schedule) && PastWait(Run(START, schedule).coord)
    ensures EndsOnce(Run(START, schedule).ch.put)
  {
    var past := StartedRunExplained(schedule);
    TailIsPair(Run(START, schedule));
    PairEndsOnce(Run(START, schedule).ch.put, Tail(Run(START, schedule)));
  }

  ghost predicate SentAll(ch: Channel) {
    NumberedPrefix(ch.sent, ch.put) && |ch.sent| == |ch.put| - 1 && ch.put[|ch.sent|] == None
  }

  lemma NoSentinelAfterCut(s: State)
    requires Inv(s) && PastWait(s.coord) && s.flow.Raised? && s.cancelRequested
    ensures None !in s.ch.put
  {
    assert Tail(s) == [];
  }

  /** A closed connection has sent every event ever queued, in order, exactly when no send failed and no rollback
      inside run_flow raised after the coordinator woke up. */
  lemma DeliversEverythingIff(schedule: seq<Action>)
    requires Schedulable(START, schedule) && Run(START, schedule).coord.Closed?
    ensures SentAll(Run(START, schedule).ch) <==> Send(SendFails) !in schedule && !CutShort(schedule)
  {
    var s := Run(START, schedule);
    var past := StartedRunExplained(schedule);
    if s.flow.Raised? && s.cancelRequested {
      NoSentinelAfterCut(s);
    } else if Send(SendFails) !in schedule {
      InvIsSafe(s);
    }
  }

  /** All numbered from 1, progress first, the terminal event last. */
  ghost predicate SentEndsOnce(sent: seq<(nat, Event)>) {
    && sent != [] && !sent[|sent| - 1].1.Progress?
    && (forall i :: 0 <= i < |sent| - 1 ==> sent[i].1.Progress?)
    && forall i :: 0 <= i < |sent| ==> sent[i].0 == i + 1
  }

  /** When in addition no send fails, the client of a closed connection was sent exactly one terminal event, last. */
  lemma DeliversTheEnding(schedule: seq<Action>)
    requires Schedulable(START, schedule) && Run(START, schedule).coord.Closed?
    requires Undisturbed(schedule) && Send(SendFails) !in schedule
    ensures SentEndsOnce(Run(START, schedule).ch.sent)
  {
    var ch := Run(START, schedule).ch;
    var past := StartedRunExplained(schedule);
    DeliversEverythingIff(schedule);
    ExactlyOneTerminal(schedule);
    assert ch.put[|ch.sent| - 1] == Some(ch.sent[|ch.sent| - 1].1);
    forall i | 0 <= i < |ch.sent| - 1 ensures ch.sent[i].1.Progress? {
      assert ch.put[i] == Some(ch.sent[i].1);
    }
  }

  // --------------------------------------------------- what reaches the queue

  /** The progress events a schedule emits, in order. */
  function Notes(schedule: seq<Action>): seq<string> {
    if schedule == [] then []
    else (match schedule[0] case Flow(Emit(note)) => [note] case _ => []) + Notes(schedule[1..])
  }

  /** The queue holds these progress events first, in order, and no others. */
  ghost predicate HoldsNotes(put: seq<Entry>, notes: seq<string>) {
    && |notes| <= |put|
    && (forall i {:trigger notes[i]} :: 0 <= i < |notes| ==> put[i] == Some(Progress(notes[i])))
    && forall i {:trigger put[i]} :: |notes| <= i < |put| ==> put[i] == None || Terminal(put[i])
  }

  lemma NoteEmitted(put: seq<Entry>, notes: seq<string>, note: string)
    requires HoldsNotes(put, notes) && EndsWith(put, [])
    ensures HoldsNotes(put + [Some(Progress(note))], notes + [note])
  {
    assert |notes| < |put| ==> put[|notes|] == None || Terminal(put[|notes|]);
  }

  lemma OthersQueued(put: seq<Entry>, notes: seq<string>, more: seq<Entry>)
    requires HoldsNotes(put, notes) && forall e :: e in more ==> e == None || Terminal(e)
    ensures HoldsNotes(put + more, notes)
  {
    forall i | |notes| <= i < |put + more| ensures (put + more)[i] == None || Terminal((put + more)[i]) {
      if i < |put| {
        assert put[i] == None || Terminal(put[i]);
      } else {
        assert more[i - |put|] in more;
      }
    }
  }

  /** The notes after one more action. */
  function NoteOf(notes: seq<string>, a: Action): seq<string> {
    match a case Flow(Emit(note)) => notes + [note] case _ => notes
  }

  lemma FlowHoldsNotes(s: State, f: FlowAction, notes: seq<string>)
    requires Inv(s) && FlowEnabled(s, f) && HoldsNotes(s.ch.put, notes)
    ensures HoldsNotes(FlowStep(s, f).ch.put, NoteOf(notes, Flow(f)))
  {
    FlowKeepsControl(s, f);
    if f.Emit? {
      NoteEmitted(s.ch.put, notes, f.note);
    } else {
      OthersQueued(s.ch.put, notes, FlowPuts(f));
      assert s.ch.put + [] == s.ch.put;
    }
  }

  lemma CoordHoldsNotes(s: State, c: CoordAction, notes: seq<string>)
    requires CoordEnabled(s, c) && HoldsNotes(s.ch.put, notes)
    ensures HoldsNotes(CoordStep(s, c).ch.put, notes)
  {
    OthersQueued(s.ch.put, notes, [None]);
    OthersQueued(s.ch.put, notes, Farewell(s.watcher));
  }

  lemma StepHoldsNotes(s: State, a: Action, notes: seq<string>)
    requires Inv(s) && Enabled(s, a) && HoldsNotes(s.ch.put, notes)
    ensures HoldsNotes(Apply(s, a).ch.put, NoteOf(notes, a))
  {
    match a
    case Flow(f) => FlowHoldsNotes(s, f, notes);
    case Client(_) =>
    case Send(x) => assert SenderStep(s.ch, x).put == s.ch.put;
    case Coordinate(c) => CoordHoldsNotes(s, c, notes);
  }

  function NotesFrom(notes: seq<string>, schedule: seq<Action>): seq<string>
    decreases |schedule|
  {
    if schedule == [] then notes else NotesFrom(NoteOf(notes, schedule[0]), schedule[1..])
  }

  lemma {:induction false} NotesFromAppends(notes: seq<string>, schedule: seq<Action>)
    ensures NotesFrom(notes, schedule) == notes + Notes(schedule)
    decreases |schedule|
  {
    if schedule != [] {
      NotesFromAppends(NoteOf(notes, schedule[0]), schedule[1..]);
    }
  }

  lemma {:induction false} RunHoldsNotes(s: State, schedule: seq<Action>, notes: seq<string>)
    requires Inv(s) && Schedulable(s, schedule) && HoldsNotes(s.ch.put, notes)
    ensures HoldsNotes(Run(s, schedule).ch.put, NotesFrom(notes, schedule))
    decreases |schedule|
  {
    if schedule != [] {
      StepKeepsInv(s, schedule[0]);
      StepHoldsNotes(s, schedule[0], notes);
      RunHoldsNotes(Apply(s, schedule[0]), schedule[1..], NoteOf(notes, schedule[0]));
    }
  }

  /** Everything emitted is queued, in order and before everything else; nothing else is. */
  lemma QueueHoldsTheNotes(schedule: seq<Action>)
    requires Schedulable(START, schedule)
    ensures HoldsNotes(Run(START, schedule).ch.put, Notes(schedule))
  {
    StartInv();
    EmptyRunHoldsNotes(START, schedule);
  }

  lemma EmptyRunHoldsNotes(s: State, schedule: seq<Action>)
    requires Inv(s) && s.ch.put == [] && Schedulable(s, schedule)
    ensures HoldsNotes(Run(s, schedule).ch.put, Notes(schedule))
  {
    RunHoldsNotes(s, schedule, []);
    NotesFromAppends([], schedule);
    assert [] + Notes(schedule) == Notes(schedule);
  }

  /** The socket has seen the emitted events in order, numbered from 1, and only then anything else. */
  ghost predicate SentInOrder(sent: seq<(nat, Event)>, notes: seq<string>) {
    forall i :: 0 <= i < |sent| ==>
      if i < |notes| then sent[i] == (i + 1, Progress(notes[i])) else sent[i].0 == i + 1 && !sent[i].1.Progress?
  }

  lemma SendsTheNotes(schedule: seq<Action>)
    requires Schedulable(START, schedule)
    ensures SentInOrder(Run(START, schedule).ch.sent, Notes(schedule))
  {
    var ch, notes := Run(START, schedule).ch, Notes(schedule);
    Safety(schedule);
    QueueHoldsTheNotes(schedule);
    forall i | 0 <= i < |ch.sent|
      ensures if i < |notes| then ch.sent[i] == (i + 1, Progress(notes[i])) else ch.sent[i].0 == i + 1 && !ch.sent[i].1.Progress?
    {
      assert ch.put[i] == Some(ch.sent[i].1);
      if i < |notes| { assert ch.put[i] == Some(Progress(notes[i])); }
    }
  }

  /** A closed connection without failed sends, whose rollback did not raise after the coordinator woke up, has sent
      every event the flow emitted. */
  lemma SendsAllTheNotes(schedule: seq<Action>)
    requires Schedulable(START, schedule) && Run(START, schedule).coord.Closed?
    requires Send(SendFails) !in schedule && !CutShort(schedule)
    ensures SentInOrder(Run(START, schedule).ch.sent, Notes(schedule))
    ensures |Run(START, schedule).ch.sent| >= |Notes(schedule)|
  {
    var ch, notes := Run(START, schedule).ch, Notes(schedule);
    SendsTheNotes(schedule);
    DeliversEverythingIff(schedule);
    QueueHoldsTheNotes(schedule);
    forall i | 0 <= i < |notes| ensures ch.put[i].Some? {
      assert ch.put[i] == Some(Progress(notes[i]));
    }
  }

  /** How an undisturbed run ends, by what its schedule did. */
  function Ending(schedule: seq<Action>): Event {
    if Flow(Commit) in schedule then FinalResult else if Flow(RollbackDone) in schedule then ErrorEvent else Cancelled
  }

  lemma LastQueuedIs(schedule: seq<Action>)
    requires Schedulable(START, schedule) && Undisturbed(schedule) && PastWait(Run(START, schedule).coord)
    ensures var put := Run(START, schedule).ch.put; |put| >= 2 && put[|put| - 2] == Some(Ending(schedule))
  {
    ExactlyOneTerminal(schedule);
    TerminalIff(schedule);
    OnlyTerminal(Run(START, schedule).ch.put, Some(FinalResult));
    OnlyTerminal(Run(START, schedule).ch.put, Some(ErrorEvent));
  }

  lemma OnlyTerminal(put: seq<Entry>, e: Entry)
    requires EndsOnce(put) && Terminal(e)
    ensures e in put <==> put[|put| - 2] == e
  {}

  lemma EndingComesLast(sent: seq<(nat, Event)>, notes: seq<string>)
    requires SentInOrder(sent, notes) && SentEndsOnce(sent)
    ensures |sent| == |notes| + 1
  {
    var last := |sent| - 1;
    assert sent[last].0 == last + 1;
    if last > 0 {
      assert sent[last - 1].1.Progress?;
    }
  }

  /** Everything an undisturbed, fully sent connection put on the socket: what the flow emitted, then its ending. */
  lemma SentExactly(schedule: seq<Action>)
    requires Schedulable(START, schedule) && Run(START, schedule).coord.Closed?
    requires Undisturbed(schedule) && Send(SendFails) !in schedule
    ensures var sent, notes := Run(START, schedule).ch.sent, Notes(schedule);
            && |sent| == |notes| + 1 && sent[|notes|] == (|notes| + 1, Ending(schedule))
            && forall i :: 0 <= i < |notes| ==> sent[i] == (i + 1, Progress(notes[i]))
  {
    var ch, notes := Run(START, schedule).ch, Notes(schedule);
    DeliversTheEnding(schedule);
    DeliversEverythingIff(schedule);
    SendsTheNotes(schedule);
    LastQueuedIs(schedule);
    assert ch.put[|ch.sent| - 1] == Some(ch.sent[|ch.sent| - 1].1);
    EndingComesLast(ch.sent, notes);
  }

  // ----------------------------------------------------------------- progress

  function FlowRank(f: FlowState): nat {
    match f case Running => 4 case RollingBack => 3 case _ => 0
  }

  function CoordRank(c: CoordState): nat {
    match c
    case Waiting => 9
    case Joining => 8
    case Undoing => 7
    case AwaitingSender => 2
    case Finalizing => 1
    case Closed => 0
  }

  /** Steps still to come, future emits aside. */
  function Rank(s: State): nat {
    FlowRank(s.flow) + CoordRank(s.coord) + (if s.watcher.None? then 1 else 0)
    + (if s.ch.sender.Sending? then 1 else 0) + 2 * |s.ch.queue|
  }

  function IsEmit(a: Action): nat { if a.Flow? && a.f.Emit? then 1 else 0 }

  function Emits(schedule: seq<Action>): nat {
    if schedule == [] then 0 else IsEmit(schedule[0]) + Emits(schedule[1..])
  }

  lemma FlowLowersRank(s: State, f: FlowAction)
    requires FlowEnabled(s, f)
    ensures Rank(FlowStep(s, f)) + 1 <= Rank(s) + 3 * IsEmit(Flow(f))
  {}

  lemma CoordLowersRank(s: State, c: CoordAction)
    requires CoordEnabled(s, c)
    ensures Rank(CoordStep(s, c)) + 1 <= Rank(s)
  {}

  lemma StepLowersRank(s: State, a: Action)
    requires Enabled(s, a)
    ensures Rank(Apply(s, a)) + 1 <= Rank(s) + 3 * IsEmit(a)
  {
    match a
    case Flow(f) => FlowLowersRank(s, f);
    case Client(_) =>
    case Send(x) =>
    case Coordinate(c) => CoordLowersRank(s, c);
  }

  lemma {:induction false} RankBoundsRun(s: State, schedule: seq<Action>)
    requires Schedulable(s, schedule)
    ensures |schedule| + Rank(Run(s, schedule)) <= Rank(s) + 3 * Emits(schedule)
    decreases |schedule|
  {
    if schedule != [] {
      StepLowersRank(s, schedule[0]);
      RankBoundsRun(Apply(s, schedule[0]), schedule[1..]);
    }
  }

  /** Some task can move on its own: neither the client nor a new progress event is needed. */
  ghost predicate CanMove(s: State) {
    || (exists f: FlowAction :: !f.Emit? && FlowEnabled(s, f))
    || (exists x: SenderAction :: SenderEnabled(s.ch, x))
    || (exists c: CoordAction :: CoordEnabled(s, c))
  }

  lemma FlowCanMove(s: State)
    requires !FlowDone(s.flow)
    ensures CanMove(s)
  {
    if s.cancelRequested {
      assert FlowEnabled(s, Unwind);
    } else if s.flow.Running? {
      assert FlowEnabled(s, Fail);
    } else {
      assert FlowEnabled(s, RollbackDone);
    }
  }

  lemma SenderCanMove(s: State)
    requires Inv(s) && s.coord.AwaitingSender?
    ensures CanMove(s)
  {
    if s.ch.sender.Sending? {
      assert SenderEnabled(s.ch, SendOk);
    } else if s.ch.sender.Idle? {
      SentinelQueued(s);
      assert SenderEnabled(s.ch, Take);
    } else {
      assert CoordEnabled(s, Leave);
    }
  }

  lemma LastOfTail(put: seq<Entry>, tail: seq<Entry>)
    requires EndsWith(put, tail) && tail != []
    ensures put != [] && put[|put| - 1] == tail[|tail| - 1]
  {
    var start := |put| - |tail|;
    assert put[start..][|tail| - 1] == put[start + |tail| - 1];
  }

  lemma TailEndsWithSentinel(s: State)
    requires Control(s) && s.coord.AwaitingSender?
    ensures Tail(s) != [] && Tail(s)[|Tail(s)| - 1] == None
  {
    assert CoordTail(s) != [] && CoordTail(s)[|CoordTail(s)| - 1] == None;
  }

  lemma AllTakenAllSent(ch: Channel)
    requires Forwarding(ch) && ch.sender.Idle? && ch.queue == []
    ensures forall i :: 0 <= i < |ch.put| ==> ch.put[i].Some?
  {
    assert |ch.sent| == |ch.put|;
  }

  lemma SentinelQueued(s: State)
    requires Inv(s) && s.coord.AwaitingSender? && s.ch.sender.Idle?
    ensures s.ch.queue != []
  {
    TailEndsWithSentinel(s);
    LastOfTail(s.ch.put, Tail(s));
    if s.ch.queue == [] {
      AllTakenAllSent(s.ch);
    }
  }

  lemma InvCanMove(s: State)
    requires Inv(s) && !s.coord.Closed?
    ensures CanMove(s)
  {
    match s.coord
    case Waiting => if FlowDone(s.flow) { assert CoordEnabled(s, Wake); } else { FlowCanMove(s); }
    case Joining => if FlowDone(s.flow) { assert CoordEnabled(s, Join); } else { FlowCanMove(s); }
    case Undoing => assert CoordEnabled(s, Undo(true));
    case AwaitingSender => SenderCanMove(s);
    case Finalizing => assert CoordEnabled(s, Close);
  }

  /** Every run ends with the socket closed: before that some task can move, and a run that
      emits k progress events takes at most 14 + 3k steps. */
  lemma Progresses(schedule: seq<Action>)
    requires Schedulable(START, schedule)
    ensures |schedule| <= 14 + 3 * Emits(schedule)
    ensures Run(START, schedule).coord.Closed? || CanMove(Run(START, schedule))
  {
    StartInv();
    RunKeepsInv(START, schedule);
    assert Rank(START) == 14;
    RankBoundsRun(START, schedule);
    var s := Run(START, schedule);
    if !s.coord.Closed? {
      InvCanMove(s);
    }
  }
}
