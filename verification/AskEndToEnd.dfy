/** Server and browser together: what the page's handler sees of any server run. */
module AskEndToEnd {
  import opened Common
  import AskServer
  import AskServerProperties
  import opened AskClient

  function EventsOf(sent: seq<(nat, AskServer.Event)>): seq<AskServer.Event> {
    seq(|sent|, i requires 0 <= i < |sent| => sent[i].1)
  }

  /** The frames arrive in order and the connection then closes. */
  function Frames(events: seq<AskServer.Event>): seq<Input> {
    if events == [] then [ClosedBySocket] else [Message(events[0])] + Frames(events[1..])
  }

  function Deliveries(events: seq<AskServer.Event>): seq<Delivery> {
    seq(|events|, i requires 0 <= i < |events| => FromServer(events[i]))
  }

  /** At most the last event is terminal. */
  ghost predicate TerminalLast(events: seq<AskServer.Event>) {
    forall i :: 0 <= i < |events| - 1 ==> events[i].Progress?
  }

  predicate Ended(events: seq<AskServer.Event>) { events != [] && !events[|events| - 1].Progress? }

  function Ending(events: seq<AskServer.Event>): seq<Delivery> {
    if Ended(events) then [] else [ConnectionLost]
  }

  function Shown(events: seq<AskServer.Event>): seq<Delivery> { Deliveries(events) + Ending(events) }

  lemma ShownStep(events: seq<AskServer.Event>)
    requires events != [] && TerminalLast(events)
    ensures Shown(events) == [FromServer(events[0])] + (if events[0].Progress? then Shown(events[1..]) else [])
  {
    assert Deliveries(events) == [FromServer(events[0])] + Deliveries(events[1..]);
  }

  lemma CloseEnds(s: ClientState)
    requires s.started && !s.closed
    ensures LegalRun(s, [ClosedBySocket])
    ensures HandleAll(s, [ClosedBySocket]).delivered == s.delivered + (if s.finished then [] else [ConnectionLost])
  {
    assert [ClosedBySocket][1..] == [];
    assert HandleAll(s, [ClosedBySocket]) == HandleAll(Step(s, ClosedBySocket), []);
  }

  lemma FrameStep(s: ClientState, events: seq<AskServer.Event>)
    requires events != [] && s.started && !s.closed && !s.closing && !s.finished
    ensures Legal(s, Message(events[0]))
    ensures var next := Step(s, Message(events[0]));
            && next.started && !next.closed && next.delivered == s.delivered + [FromServer(events[0])]
            && next.finished == next.closing == !events[0].Progress?
            && (LegalRun(next, Frames(events[1..])) ==> LegalRun(s, Frames(events)))
            && (LegalRun(next, Frames(events[1..])) ==> HandleAll(s, Frames(events)) == HandleAll(next, Frames(events[1..])))
  {
    assert Frames(events)[1..] == Frames(events[1..]);
  }

  lemma {:induction false} FeedStarted(s: ClientState, events: seq<AskServer.Event>)
    requires s.started && !s.closed && !s.closing && !s.finished && TerminalLast(events)
    ensures LegalRun(s, Frames(events))
    ensures HandleAll(s, Frames(events)).delivered == s.delivered + Shown(events)
    decreases |events|
  {
    if events == [] {
      CloseEnds(s);
    } else {
      var next := Step(s, Message(events[0]));
      FrameStep(s, events);
      ShownStep(events);
      if events[0].Progress? {
        FeedStarted(next, events[1..]);
      } else {
        assert events[1..] == [];
        CloseEnds(next);
      }
    }
  }

  lemma SentTerminalLast(s: AskServer.State, k: nat)
    requires AskServerProperties.Safe(s) && k <= |s.ch.sent|
    ensures TerminalLast(EventsOf(s.ch.sent[..k]))
  {
    forall i | 0 <= i < k - 1 ensures s.ch.sent[i].1.Progress? {
      assert s.ch.put[i + 1] == Some(s.ch.sent[i + 1].1);
      assert s.ch.put[i] == Some(s.ch.sent[i].1);
    }
  }

  /** Whatever the interleaving on the server and however much of its output arrived, a browser that saw
      run_started hands over exactly the events that arrived, and closes the turn with `connection_lost`
      exactly when the server's own terminal event is not among them. */
  lemma HandlerSeesTheRun(schedule: seq<AskServer.Action>, k: nat)
    requires AskServer.Schedulable(AskServer.START, schedule)
    requires 1 <= k <= |AskServer.Run(AskServer.START, schedule).ch.sent|
    requires AskServer.Run(AskServer.START, schedule).ch.sent[0].1 == RUN_STARTED
    ensures var events := EventsOf(AskServer.Run(AskServer.START, schedule).ch.sent[..k]);
            && LegalRun(FRESH, Frames(events))
            && HandleAll(FRESH, Frames(events)).delivered == Shown(events)
  {
    var s := AskServer.Run(AskServer.START, schedule);
    AskServerProperties.Safety(schedule);
    SentTerminalLast(s, k);
    StartAndFeed(FRESH, EventsOf(s.ch.sent[..k]));
  }

  lemma StartAndFeed(s: ClientState, events: seq<AskServer.Event>)
    requires !s.started && !s.settled && !s.finished && !s.closing && !s.closed && s.delivered == []
    requires events != [] && events[0] == RUN_STARTED && TerminalLast(events)
    ensures LegalRun(s, Frames(events))
    ensures HandleAll(s, Frames(events)).delivered == Shown(events)
  {
    var inputs, started := Frames(events), Step(s, Message(RUN_STARTED));
    assert inputs[0] == Message(RUN_STARTED) && inputs[1..] == Frames(events[1..]);
    FeedStarted(started, events[1..]);
    ShownStep(events);
  }

  /** When nothing disturbed the run, every frame arrived and the flow emitted run_started first, the handler is given
      exactly what the flow emitted, in order, and then the ending its schedule earned. */
  lemma HandlerSeesTheEnding(schedule: seq<AskServer.Action>)
    requires AskServer.Schedulable(AskServer.START, schedule)
    requires AskServer.Run(AskServer.START, schedule).coord.Closed?
    requires AskServerProperties.Undisturbed(schedule) && AskServer.Send(AskServer.SendFails) !in schedule
    requires AskServerProperties.Notes(schedule) != [] && AskServerProperties.Notes(schedule)[0] == "run_started"
    ensures var notes := AskServerProperties.Notes(schedule);
            var shown := HandleAll(FRESH, Frames(EventsOf(AskServer.Run(AskServer.START, schedule).ch.sent))).delivered;
            && |shown| == |notes| + 1 && shown[|notes|] == FromServer(AskServerProperties.Ending(schedule))
            && forall i :: 0 <= i < |notes| ==> shown[i] == FromServer(AskServer.Progress(notes[i]))
  {
    var sent := AskServer.Run(AskServer.START, schedule).ch.sent;
    AskServerProperties.SentExactly(schedule);
    HandlerSeesTheRun(schedule, |sent|);
    assert sent[..|sent|] == sent;
  }

  /** A first frame that is not run_started, or no frame at all: the promise is rejected and nothing is handed over.
      The client closes the socket, so no later frame reaches it. */
  lemma RefusedRunDeliversNothing(events: seq<AskServer.Event>)
    requires events != [] ==> events[0] != RUN_STARTED
    ensures var inputs := (if events == [] then [] else [Message(events[0])]) + [ClosedBySocket];
            && LegalRun(FRESH, inputs)
            && HandleAll(FRESH, inputs).settlements == [Rejected] && HandleAll(FRESH, inputs).delivered == []
            && (events != [] ==> forall e :: !Legal(Step(FRESH, Message(events[0])), Message(e)))
  {
    if events == [] {
      assert [] + [ClosedBySocket] == [ClosedBySocket];
      RejectedByClose(FRESH);
    } else {
      var s, inputs := Step(FRESH, Message(events[0])), [Message(events[0])] + [ClosedBySocket];
      assert inputs[1..] == [ClosedBySocket];
      RejectedByClose(s);
      assert HandleAll(FRESH, inputs) == HandleAll(s, [ClosedBySocket]);
    }
  }

  lemma RejectedByClose(s: ClientState)
    requires !s.started && !s.closed && s.delivered == []
    requires s.settlements == if s.settled then [Rejected] else []
    ensures LegalRun(s, [ClosedBySocket])
    ensures HandleAll(s, [ClosedBySocket]).settlements == [Rejected] && HandleAll(s, [ClosedBySocket]).delivered == []
  {
    assert [ClosedBySocket][1..] == [];
    assert HandleAll(s, [ClosedBySocket]) == HandleAll(Step(s, ClosedBySocket), []);
  }
}
