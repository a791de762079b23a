/** The streaming Ask endpoint (ask_ws.py) as a machine: flow, watcher, sender and coordinator tasks interleaved
    over one queue and one transaction. One action is one stretch between two awaits. */
module AskServer {
  import opened Common

  datatype Event = Progress(note: string) | FinalResult | ErrorEvent | Cancelled

  /** A queue entry; `None` is the sentinel. */
  type Entry = Option<Event>

  datatype Txn = Open | Committed | RolledBack

  /** `Raised`: commit or rollback raised inside run_flow. `Aborted`: CancelledError unwound it. */
  datatype FlowState = Running | RollingBack | Finished | Failed | Raised | Aborted

  datatype Report = CancelMessage | Disconnect

  datatype SenderState = Idle | Sending(number: nat, event: Event) | Drained | Broken

  datatype CoordState = Waiting | Joining | Undoing | AwaitingSender | Finalizing | Closed

  /** The queue and the sender: `put` is everything ever enqueued, `sent` what went out on the socket. */
  datatype Channel = Channel(
    put: seq<Entry>, queue: seq<Entry>, sent: seq<(nat, Event)>, count: nat, sender: SenderState)

  datatype State = State(
    ch: Channel, txn: Txn, flow: FlowState, watcher: Option<Report>, coord: CoordState,
    cancelRequested: bool, undoRaised: bool)

  const START := State(Channel([], [], [], 0, Idle), Open, Running, None, Waiting, false, false)

  datatype FlowAction =
    | Emit(note: string)     // await emit(...)
    | Commit                 // session.commit() and the put of final_result
    | CommitRaises
    | Fail                   // an exception is caught, rollback starts
    | RollbackDone           // rollback returned, the error event is put
    | RollbackRaises
    | Unwind                 // CancelledError delivered at the pending await

  datatype SenderAction =
    | Take                   // queue.get() returned
    | SendOk                 // send_json returned
    | SendFails

  datatype CoordAction =
    | Wake                   // asyncio.wait returned
    | Join                   // await flow returned or raised
    | Undo(ok: bool)         // its own rollback returned or raised
    | Leave                  // await sender returned
    | Close                  // the finally block

  datatype Action =
    | Flow(f: FlowAction)
    | Client(report: Report) // watcher: cancel message or dead socket
    | Send(x: SenderAction)
    | Coordinate(c: CoordAction)

  predicate FlowDone(f: FlowState) { f.Finished? || f.Failed? || f.Raised? || f.Aborted? }

  function Put(ch: Channel, items: seq<Entry>): Channel {
    ch.(put := ch.put + items, queue := ch.queue + items)
  }

  // --------------------------------------------------------------- run_flow

  predicate FlowEnabled(s: State, a: FlowAction) {
    match a
    case Emit(_) | Commit | CommitRaises | Fail => s.flow.Running? && !s.cancelRequested
    case RollbackDone => s.flow.RollingBack? && !s.cancelRequested
    case RollbackRaises => s.flow.RollingBack?
    case Unwind => !FlowDone(s.flow) && s.cancelRequested
  }

  function FlowStep(s: State, a: FlowAction): State {
    match a
    case Emit(note) => s.(ch := Put(s.ch, [Some(Progress(note))]))
    case Commit => s.(ch := Put(s.ch, [Some(FinalResult)]), txn := Committed, flow := Finished)
    case CommitRaises => s.(flow := Raised)
    case Fail => s.(flow := RollingBack)
    case RollbackDone => s.(ch := Put(s.ch, [Some(ErrorEvent)]), txn := RolledBack, flow := Failed)
    case RollbackRaises => s.(flow := Raised)
    case Unwind => s.(flow := Aborted)
  }

  // ---------------------------------------------------------- forward_events

  predicate SenderEnabled(ch: Channel, a: SenderAction) {
    match a
    case Take => ch.sender.Idle? && ch.queue != []
    case SendOk | SendFails => ch.sender.Sending?
  }

  function SenderStep(ch: Channel, a: SenderAction): Channel
    requires SenderEnabled(ch, a)
  {
    match a
    case Take =>
      if ch.queue[0].None? then ch.(queue := ch.queue[1..], sender := Drained)
      else ch.(queue := ch.queue[1..], count := ch.count + 1, sender := Sending(ch.count + 1, ch.queue[0].value))
    case SendOk => ch.(sent := ch.sent + [(ch.sender.number, ch.sender.event)], sender := Idle)
    case SendFails => ch.(sender := Broken)
  }

  // ----------------------------------------------------------- coordinator

  predicate CoordEnabled(s: State, a: CoordAction) {
    match a
    case Wake => s.coord.Waiting? && (FlowDone(s.flow) || s.watcher.Some?)
    case Join => s.coord.Joining? && FlowDone(s.flow)
    case Undo(_) => s.coord.Undoing?
    case Leave => s.coord.AwaitingSender? && (s.ch.sender.Drained? || s.ch.sender.Broken?)
    case Close => s.coord.Finalizing?
  }

  /** What the coordinator enqueues after stopping the flow. */
  function Farewell(watcher: Option<Report>): seq<Entry> {
    if watcher == Some(CancelMessage) then [Some(Cancelled), None] else [None]
  }

  function CoordStep(s: State, a: CoordAction): State {
    match a
    case Wake =>
      if FlowDone(s.flow) then s.(ch := Put(s.ch, [None]), coord := AwaitingSender)
      else s.(cancelRequested := true, coord := Joining)
    case Join => s.(coord := if s.flow.Raised? then Finalizing else Undoing)
    case Undo(ok) =>
      s.(ch := Put(s.ch, Farewell(s.watcher)), coord := AwaitingSender,
         txn := if ok then RolledBack else s.txn, undoRaised := !ok)
    case Leave => s.(coord := Finalizing)
    case Close => s.(coord := Closed, ch := s.ch.(sender := if s.ch.sender.Drained? then Drained else Broken))
  }

  // ------------------------------------------------------------------- runs

  predicate Enabled(s: State, a: Action) {
    match a
    case Flow(f) => FlowEnabled(s, f)
    case Client(_) => s.watcher.None? && !s.coord.Closed?
    case Send(x) => SenderEnabled(s.ch, x)
    case Coordinate(c) => CoordEnabled(s, c)
  }

  function Apply(s: State, a: Action): State
    requires Enabled(s, a)
  {
    match a
    case Flow(f) => FlowStep(s, f)
    case Client(report) => s.(watcher := Some(report))
    case Send(x) => s.(ch := SenderStep(s.ch, x))
    case Coordinate(c) => CoordStep(s, c)
  }

  /** A schedule is an interleaving: every action is enabled when its turn comes. */
  predicate Schedulable(s: State, schedule: seq<Action>)
    decreases |schedule|
  {
    schedule == [] || (Enabled(s, schedule[0]) && Schedulable(Apply(s, schedule[0]), schedule[1..]))
  }

  function Run(s: State, schedule: seq<Action>): State
    requires Schedulable(s, schedule)
    decreases |schedule|
  {
    if schedule == [] then s else Run(Apply(s, schedule[0]), schedule[1..])
  }
}
