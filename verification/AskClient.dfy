/** The browser side of the streaming Ask (askSocket.ts): a promise driven by socket events. */
module AskClient {
  import opened AskServer

  /** What the handler receives: a server event, or the synthetic `connection_lost` error. */
  datatype Delivery = FromServer(event: Event) | ConnectionLost

  datatype Settlement = Resolved | Rejected

  datatype Input =
    | Errored                 // onerror
    | ClosedBySocket          // onclose
    | Garbage                 // onmessage, not JSON
    | Message(event: Event)   // onmessage
    | TimedOut                // the start timer fires

  /** `closing`: the client called socket.close(). `settlements` records every resolve/reject call. */
  datatype ClientState = ClientState(
    started: bool, settled: bool, finished: bool, timer: bool, closing: bool, closed: bool,
    settlements: seq<Settlement>, delivered: seq<Delivery>)

  const FRESH := ClientState(false, false, false, true, false, false, [], [])
  const RUN_STARTED := Progress("run_started")

  function Failure(s: ClientState): ClientState {
    if s.settled then s
    else s.(settled := true, timer := false, closing := true, settlements := s.settlements + [Rejected])
  }

  function Deliver(s: ClientState, e: Event): ClientState {
    if s.finished then s
    else if e.Progress? then s.(delivered := s.delivered + [FromServer(e)])
    else s.(delivered := s.delivered + [FromServer(e)], finished := true, closing := true)
  }

  function Step(s: ClientState, i: Input): ClientState {
    match i
    case Errored => if s.started then s else Failure(s)
    case ClosedBySocket =>
      var s := s.(closed := true);
      if !s.started then Failure(s)
      else if s.finished then s
      else s.(finished := true, delivered := s.delivered + [ConnectionLost])
    case Garbage => s
    case Message(e) =>
      if s.started then Deliver(s, e)
      else if e == RUN_STARTED then
        Deliver(s.(started := true, settled := true, timer := false, settlements := s.settlements + [Resolved]), e)
      else Failure(s)
    case TimedOut => Failure(s.(timer := false))
  }

  /** What a browser may report: nothing from the socket after onclose, and no message once close() was called.
      The start timer may fire at any time. */
  predicate Legal(s: ClientState, i: Input) {
    match i
    case Errored | ClosedBySocket => !s.closed
    case Garbage | Message(_) => !s.closed && !s.closing
    case TimedOut => true
  }

  predicate LegalRun(s: ClientState, inputs: seq<Input>)
    decreases |inputs|
  {
    inputs == [] || (Legal(s, inputs[0]) && LegalRun(Step(s, inputs[0]), inputs[1..]))
  }

  function HandleAll(s: ClientState, inputs: seq<Input>): ClientState
    decreases |inputs|
  {
    if inputs == [] then s else HandleAll(Step(s, inputs[0]), inputs[1..])
  }

  // --------------------------------------------------------------- contract

  /** The parsed messages among the inputs. */
  function Received(inputs: seq<Input>): seq<Delivery> {
    if inputs == [] then []
    else Received(inputs[..|inputs| - 1]) + Arrival(inputs[|inputs| - 1])
  }

  predicate IsTerminal(d: Delivery) { d.ConnectionLost? || !d.event.Progress? }

  /** Everything but the last delivery is progress; the last one is terminal iff the run is over. */
  ghost predicate OneEnding(delivered: seq<Delivery>, over: bool) {
    && delivered != []
    && (forall i :: 0 <= i < |delivered| - 1 ==> !IsTerminal(delivered[i]))
    && (IsTerminal(delivered[|delivered| - 1]) <==> over)
  }

  /** `received` is what arrived so far. */
  ghost predicate Inv(s: ClientState, received: seq<Delivery>) {
    && (s.settled <==> s.settlements != [])
    && (!s.settled ==> !s.started && !s.closed && !s.closing && received == [])
    && (s.timer ==> !s.settled)
    && (s.settled && !s.started ==> s.settlements == [Rejected] && s.closing)
    && (!s.started ==> s.delivered == [] && !s.finished)
    && (s.started ==>
          && s.settlements == [Resolved]
          && OneEnding(s.delivered, s.finished)
          && s.delivered[0] == FromServer(RUN_STARTED)
          && (s.closed ==> s.finished)
          && (s.finished ==> s.closed || s.closing)
          && s.delivered == received + (if ConnectionLost in s.delivered then [ConnectionLost] else []))
  }

  function Arrival(i: Input): seq<Delivery> { if i.Message? then [FromServer(i.event)] else [] }

  lemma DeliverKeepsInv(s: ClientState, e: Event, received: seq<Delivery>)
    requires Inv(s, received) && s.started && !s.closed && !s.closing
    ensures Inv(Deliver(s, e), received + [FromServer(e)])
  {
    assert !IsTerminal(s.delivered[|s.delivered| - 1]);
    var delivered := s.delivered + [FromServer(e)];
    assert delivered[|delivered| - 1] == FromServer(e);
    forall k | 0 <= k < |delivered| - 1 ensures !IsTerminal(delivered[k]) {}
    assert ConnectionLost !in s.delivered;
    assert ConnectionLost !in delivered;
  }

  lemma CloseKeepsInv(s: ClientState, received: seq<Delivery>)
    requires Inv(s, received) && s.started && !s.closed && !s.finished
    ensures Inv(Step(s, ClosedBySocket), received)
  {
    var delivered := s.delivered + [ConnectionLost];
    assert delivered[|delivered| - 1] == ConnectionLost;
    assert ConnectionLost in delivered && ConnectionLost !in s.delivered;
    forall k | 0 <= k < |delivered| - 1 ensures !IsTerminal(delivered[k]) {}
  }

  lemma StepKeepsInv(s: ClientState, i: Input, received: seq<Delivery>)
    requires Inv(s, received) && Legal(s, i)
    ensures Inv(Step(s, i), received + Arrival(i))
  {
    assert received + [] == received;
    if s.started {
      match i
      case Message(e) => DeliverKeepsInv(s, e, received);
      case ClosedBySocket => if !s.finished { CloseKeepsInv(s, received); }
      case _ =>
    } else if i == Message(RUN_STARTED) {
      assert Step(s, i).delivered == [FromServer(RUN_STARTED)];
    }
  }

  lemma {:induction false} RunKeepsInv(s: ClientState, inputs: seq<Input>, received: seq<Delivery>)
    requires Inv(s, received) && LegalRun(s, inputs)
    ensures Inv(HandleAll(s, inputs), received + Received(inputs))
    decreases |inputs|
  {
    if inputs == [] {
      assert received + [] == received;
    } else {
      StepKeepsInv(s, inputs[0], received);
      RunKeepsInv(Step(s, inputs[0]), inputs[1..], received + Arrival(inputs[0]));
      ReceivedAppend(received, inputs);
    }
  }

  lemma ReceivedAppend(received: seq<Delivery>, inputs: seq<Input>)
    requires inputs != []
    ensures received + Received(inputs) == received + Arrival(inputs[0]) + Received(inputs[1..])
  {
    ReceivedSplit(inputs);
  }

  lemma {:induction false} ReceivedSplit(inputs: seq<Input>)
    requires inputs != []
    ensures Received(inputs)
         == Arrival(inputs[0]) + Received(inputs[1..])
  {
    if |inputs| > 1 {
      ReceivedSplit(inputs[..|inputs| - 1]);
      assert inputs[..|inputs| - 1][1..] == inputs[1..][..|inputs| - 2];
    }
  }

  lemma ReceivedNext(received: seq<Delivery>, inputs: seq<Input>, k: nat)
    requires k < |inputs|
    ensures received + Received(inputs[..k + 1]) == received + Received(inputs[..k]) + Arrival(inputs[k])
  {
    assert inputs[..k + 1][..k] == inputs[..k];
  }

  /** The fallback contract of a connection whose close was reported, after the messages `received`. */
  ghost predicate HonoursContract(s: ClientState, received: seq<Delivery>) {
    && |s.settlements| == 1
    && (s.settlements == [Rejected] ==> s.delivered == [])
    && (s.settlements == [Resolved] ==>
          && s.delivered != [] && s.delivered[0] == FromServer(RUN_STARTED)
          && OneEnding(s.delivered, true)
          && (s.delivered == received || s.delivered == received + [ConnectionLost]))
  }

  lemma InvHonoursContract(s: ClientState, received: seq<Delivery>)
    requires Inv(s, received) && s.closed
    ensures HonoursContract(s, received)
  {
    assert received + [] == received;
  }

  /** The contract holds for every legal order of events that ends with the close report. */
  lemma Contract(inputs: seq<Input>)
    requires LegalRun(FRESH, inputs) && HandleAll(FRESH, inputs).closed
    ensures HonoursContract(HandleAll(FRESH, inputs), Received(inputs))
  {
    RunKeepsInv(FRESH, inputs, []);
    assert [] + Received(inputs) == Received(inputs);
    InvHonoursContract(HandleAll(FRESH, inputs), Received(inputs));
  }

  /** Why messages after close() are outside the legal orders: were a browser to report one, the handler would
      receive events of a run whose promise was rejected. */
  lemma LateStartBreaksContract()
    ensures var inputs := [TimedOut, Message(RUN_STARTED)];
            && !LegalRun(FRESH, inputs)
            && Rejected in HandleAll(FRESH, inputs).settlements
            && HandleAll(FRESH, inputs).delivered == [FromServer(RUN_STARTED)]
  {
    var inputs := [TimedOut, Message(RUN_STARTED)];
    var s := Step(FRESH, TimedOut);
    assert inputs[1..] == [Message(RUN_STARTED)] && inputs[1..][1..] == [];
    assert s.settlements == [Rejected];
    assert HandleAll(s, inputs[1..]) == HandleAll(Step(s, Message(RUN_STARTED)), []);
    assert Step(s, Message(RUN_STARTED)).settlements == [Rejected, Resolved];
  }

  /** The closure variables of askViaSocket and its event handlers. */
  class AskSocket {
    var started: bool
    var settled: bool
    var finished: bool
    var timer: bool
    var closing: bool
    var closed: bool
    var settlements: seq<Settlement>
    var delivered: seq<Delivery>
    ghost var received: seq<Delivery>    // the messages reported so far

    function View(): ClientState
      reads this
    {
      ClientState(started, settled, finished, timer, closing, closed, settlements, delivered)
    }

    ghost predicate Valid()
      reads this
    {
      Inv(View(), received)
    }

    constructor ()
      ensures Valid() && View() == FRESH && received == []
    {
      started, settled, finished, timer, closing, closed := false, false, false, true, false, false;
      settlements, delivered, received := [], [], [];
    }

    method Fail()
      modifies this
      ensures View() == Failure(old(View())) && received == old(received)
    {
      if settled { return; }
      settled := true;
      timer := false;
      closing := true;
      settlements := settlements + [Rejected];
    }

    method OnError()
      requires Valid() && Legal(View(), Errored)
      modifies this
      ensures Valid() && View() == Step(old(View()), Errored) && received == old(received)
    {
      StepKeepsInv(View(), Errored, received);
      assert received + [] == received;
      if !started { Fail(); }
    }

    method OnClose()
      requires Valid() && Legal(View(), ClosedBySocket)
      modifies this
      ensures Valid() && View() == Step(old(View()), ClosedBySocket) && received == old(received)
    {
      StepKeepsInv(View(), ClosedBySocket, received);
      assert received + [] == received;
      closed := true;
      if !started {
        Fail();
      } else if !finished {
        finished := true;
        delivered := delivered + [ConnectionLost];
      }
    }

    method OnTimeout()
      requires Valid() && Legal(View(), TimedOut)
      modifies this
      ensures Valid() && View() == Step(old(View()), TimedOut) && received == old(received)
    {
      StepKeepsInv(View(), TimedOut, received);
      assert received + [] == received;
      timer := false;
      Fail();
    }

    method OnMessage(event: Event)
      requires Valid() && Legal(View(), Message(event))
      modifies this
      ensures Valid() && View() == Step(old(View()), Message(event))
      ensures received == old(received) + [FromServer(event)]
    {
      StepKeepsInv(View(), Message(event), received);
      received := received + [FromServer(event)];
      if !started {
        if event == RUN_STARTED {
          started := true;
          settled := true;
          timer := false;
          settlements := settlements + [Resolved];
        } else {
          Fail();
          return;
        }
      }
      if finished { return; }
      delivered := delivered + [FromServer(event)];
      if !event.Progress? {
        finished := true;
        closing := true;
      }
    }

    method HandleOne(i: Input)
      requires Valid() && Legal(View(), i)
      modifies this
      ensures Valid() && View() == Step(old(View()), i) && received == old(received) + Arrival(i)
    {
      match i
      case Errored => OnError();
      case ClosedBySocket => OnClose();
      case Garbage =>
      case Message(e) => OnMessage(e);
      case TimedOut => OnTimeout();
    }

    /** Any legal order of browser events. Once the close was reported the contract is honoured: one settlement, a
        rejected turn delivered nothing, a started one delivered what was received and ended exactly once. */
    method Handle(inputs: seq<Input>)
      requires Valid() && LegalRun(View(), inputs)
      modifies this
      ensures Valid() && View() == HandleAll(old(View()), inputs) && received == old(received) + Received(inputs)
      ensures closed ==> HonoursContract(View(), received)
    {
      for k := 0 to |inputs|
        invariant Valid() && LegalRun(View(), inputs[k..])
        invariant HandleAll(View(), inputs[k..]) == HandleAll(old(View()), inputs)
        invariant received == old(received) + Received(inputs[..k])
      {
        ReceivedNext(old(received), inputs, k);
        HandleOne(inputs[k]);
      }
      assert inputs[..|inputs|] == inputs;
      if closed {
        InvHonoursContract(View(), received);
      }
    }
  }
}
