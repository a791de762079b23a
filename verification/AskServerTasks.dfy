/** The objects and tasks of one streaming Ask connection (ask_ws.py), performing the machine's actions in place. */
module AskServerTasks {
  import opened Common
  import opened AskServer
  import opened AskServerProperties

  /** The objects the four tasks share, updated in place one stretch at a time. */
  class AskConnection {
    ghost var put: seq<Entry>
    var queue: seq<Entry>
    var sent: seq<(nat, Event)>
    var count: nat
    var sender: SenderState
    var txn: Txn
    var flow: FlowState
    var watcher: Option<Report>
    var coord: CoordState
    var cancelRequested: bool
    var undoRaised: bool

    ghost function View(): State
      reads this
    {
      State(Channel(put, queue, sent, count, sender), txn, flow, watcher, coord, cancelRequested, undoRaised)
    }

    ghost predicate Valid()
      reads this
    {
      Inv(View())
    }

    constructor ()
      ensures Valid() && View() == START
    {
      put, queue, sent, count, sender := [], [], [], 0, Idle;
      txn, flow, watcher, coord := Open, Running, None, Waiting;
      cancelRequested, undoRaised := false, false;
      new;
      FreshInv(View());
    }

    /** queue.put on the unbounded queue: never suspends. */
    method Enqueue(items: seq<Entry>)
      modifies this`queue, this`put
      ensures queue == old(queue) + items && put == old(put) + items
    {
      queue := queue + items;
      put := put + items;
    }

    /** run_flow, one stretch. */
    method RunFlow(a: FlowAction)
      requires FlowEnabled(View(), a)
      modifies this
      ensures View() == FlowStep(old(View()), a)
    {
      match a
      case Emit(note) =>
        Enqueue([Some(Progress(note))]);
      case Commit =>
        txn := Committed;
        Enqueue([Some(FinalResult)]);
        flow := Finished;
      case CommitRaises | RollbackRaises =>
        flow := Raised;
      case Fail =>
        flow := RollingBack;
      case RollbackDone =>
        txn := RolledBack;
        Enqueue([Some(ErrorEvent)]);
        flow := Failed;
      case Unwind =>
        flow := Aborted;
    }

    /** watch_client returns. */
    method WatchClient(report: Report)
      requires watcher.None? && !coord.Closed?
      modifies this`watcher
      ensures View() == old(View()).(watcher := Some(report))
    {
      watcher := Some(report);
    }

    /** forward_events, one stretch. */
    method ForwardEvents(a: SenderAction)
      requires SenderEnabled(View().ch, a)
      modifies this
      ensures View() == old(View()).(ch := SenderStep(old(View()).ch, a))
    {
      match a
      case Take =>
        var event := queue[0];
        queue := queue[1..];
        if event.None? {
          sender := Drained;
        } else {
          count := count + 1;
          sender := Sending(count, event.value);
        }
      case SendOk =>
        sent := sent + [(sender.number, sender.event)];
        sender := Idle;
      case SendFails =>
        sender := Broken;
    }

    /** The body of ask_ws after the three tasks are created, one stretch. */
    method Coordinator(a: CoordAction)
      requires CoordEnabled(View(), a)
      modifies this
      ensures View() == CoordStep(old(View()), a)
    {
      match a
      case Wake =>
        if FlowDone(flow) {
          Enqueue([None]);
          coord := AwaitingSender;
        } else {
          cancelRequested := true;
          coord := Joining;
        }
      case Join =>
        coord := if flow.Raised? then Finalizing else Undoing;
      case Undo(ok) =>
        if ok {
          txn := RolledBack;
        }
        undoRaised := !ok;
        Enqueue(Farewell(watcher));
        coord := AwaitingSender;
      case Leave =>
        coord := Finalizing;
      case Close =>
        if !sender.Drained? {
          sender := Broken;
        }
        coord := Closed;
    }

    /** One stretch of whichever task is next keeps the connection valid, and with that safe. */
    method Perform(a: Action)
      requires Valid() && Enabled(View(), a)
      modifies this
      ensures Valid() && Safe(View()) && View() == Apply(old(View()), a)
    {
      StepKeepsInv(View(), a);
      InvIsSafe(Apply(View(), a));
      match a
      case Flow(f) => RunFlow(f);
      case Client(report) => WatchClient(report);
      case Send(x) => ForwardEvents(x);
      case Coordinate(c) => Coordinator(c);
    }

    /** The event loop picks the next task; any schedule may happen. Whatever it is, the connection stays safe: one
        terminal event at most, truthful about the transaction, and the socket saw a numbered start of the queue. A new
        connection queues exactly what the flow emitted, in order, then the ending, and sends it so. A whole connection
        that nothing disturbed has sent exactly one terminal event, last. */
    method Serve(schedule: seq<Action>)
      requires Valid() && Schedulable(View(), schedule)
      modifies this
      ensures Valid() && View() == Run(old(View()), schedule)
      ensures Safe(View())
      ensures old(View()) == START ==> HoldsNotes(put, Notes(schedule)) && SentInOrder(sent, Notes(schedule))
      ensures old(View()) == START && coord.Closed? && Send(SendFails) !in schedule && !CutShort(schedule) ==>
        |sent| >= |Notes(schedule)|
      ensures old(View()) == START && coord.Closed? && Undisturbed(schedule) && Send(SendFails) !in schedule ==>
        SentEndsOnce(sent)
    {
      for i := 0 to |schedule|
        invariant Valid() && Schedulable(View(), schedule[i..])
        invariant Run(View(), schedule[i..]) == Run(old(View()), schedule)
      {
        Perform(schedule[i]);
      }
      InvIsSafe(View());
      if old(View()) == START {
        QueueHoldsTheNotes(schedule);
        SendsTheNotes(schedule);
        if coord.Closed? && Send(SendFails) !in schedule && !CutShort(schedule) {
          SendsAllTheNotes(schedule);
        }
      }
      if old(View()) == START && coord.Closed? && Undisturbed(schedule) && Send(SendFails) !in schedule {
        DeliversTheEnding(schedule);
      }
    }
  }
}
