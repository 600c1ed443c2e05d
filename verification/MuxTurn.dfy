/** What module SessionClass runs in one go is a sequence of steps of module Mux: a turn of readLoop. */
module MuxTurn {
  import opened Wrappers
  import opened Frame
  import opened MuxCore
  import opened Mux
  import opened MuxInvariant

  /** Where the events lead from e, each of them ready when its turn comes; None if one is not. */
  ghost function Steps(e: Endpoint, evs: seq<Event>): Option<Endpoint>
    decreases |evs|
  {
    if evs == [] then Some(e)
    else if Shape(e) && Ready(e, evs[0]) then Steps(Next(e, evs[0]), evs[1..])
    else None
  }

  /** The events of one turn of readLoop that nothing interrupts. */
  function TurnEvents(c: Core, f: Frame, timesOut: bool): seq<Event>
    requires WellFormed(c)
  {
    [Receive(f)] +
    if f.kind == STREAM_OPEN then
      if c.acceptOpen && |c.acceptChan| >= ACCEPT_QUEUE then [Offer, Reject] else [Offer]
    else if f.kind == DATA && f.id in c.streams then
      var s := c.objs[c.streams[f.id]];
      if !s.chanOpen || |s.chan| < READ_QUEUE then [Deliver] else if timesOut then [Timeout, GiveUp] else []
    else []
  }

  /** e' is where a turn leads that leaves the shared state c, ends as r says, and has the frame answer to send. */
  ghost predicate TurnEnds(e: Endpoint, e': Endpoint, c: Core, r: SendOutcome, answer: Option<Frame>) {
    && e'.core == c && e'.log == e.log && e'.rd == e.rd + 1
    && r == (if e'.panic.Some? then Panics else if e'.loop.Delivering? then Full else Taken)
    && e'.threads == e.threads + (if Closes(answer) then multiset{CloseSend(answer.value.id)} else multiset{})
    && (e'.loop.Answering? <==> answer == Some(Frame(PONG, 0, [])))
    && (answer.Some? && !Closes(answer) ==> answer == Some(Frame(PONG, 0, [])))
    && (r == Taken && !e'.loop.Answering? ==> e'.loop.Idle?)
  }

  predicate Closes(answer: Option<Frame>) {
    answer.Some? && answer.value == Frame(STREAM_CLOSE, answer.value.id, [])
  }

  lemma OneStep(e: Endpoint, a: Event)
    requires Shape(e) && Ready(e, a)
    ensures Steps(e, [a]) == Some(Next(e, a))
  {
    hide Next, Ready, Shape;
    assert [a][1..] == [];
  }

  lemma ThenSteps(e: Endpoint, a: Event, evs: seq<Event>)
    requires Shape(e) && Ready(e, a)
    ensures Steps(e, [a] + evs) == Steps(Next(e, a), evs)
  {
    hide Next, Ready, Shape;
    assert ([a] + evs)[1..] == evs;
  }

  lemma TwoSteps(e: Endpoint, a: Event, b: Event)
    requires Shape(e) && Ready(e, a) && Shape(Next(e, a)) && Ready(Next(e, a), b)
    ensures Steps(e, [a, b]) == Some(Next(Next(e, a), b))
  {
    hide Next, Ready, Shape, Steps;
    OneStep(Next(e, a), b);
    ThenSteps(e, a, [b]);
    assert [a, b] == [a] + [b];
  }

  lemma ThreeSteps(e: Endpoint, a: Event, b: Event, c: Event)
    requires Shape(e) && Ready(e, a) && Shape(Next(e, a)) && Ready(Next(e, a), b)
    requires Shape(Next(Next(e, a), b)) && Ready(Next(Next(e, a), b), c)
    ensures Steps(e, [a] + [b, c]) == Some(Next(Next(Next(e, a), b), c))
  {
    hide Next, Ready, Shape, Steps;
    TwoSteps(Next(e, a), b, c);
    ThenSteps(e, a, [b, c]);
  }

  /** readLoop waits for a frame. */
  ghost predicate Waiting(e: Endpoint) {
    Shape(e) && e.panic == None && e.loop.Idle? && e.shutdown < 3
  }

  /** An event of readLoop, without the rest of Next. */
  ghost predicate LoopReady(e: Endpoint, ev: Event)
    requires Shape(e)
  {
    && e.panic == None
    && ((ev.Offer? && e.loop.Offering?) || (ev.Reject? && e.loop.Rejecting?) || (ev.GiveUp? && e.loop.TimedOut?)
        || (ev.Deliver? && e.loop.Delivering? && !MustWait(e.core.objs[e.loop.i]))
        || (ev.Timeout? && e.loop.Delivering? && MustWait(e.core.objs[e.loop.i])))
  }

  ghost function LoopNext(e: Endpoint, ev: Event): Endpoint
    requires Shape(e) && LoopReady(e, ev)
  {
    if ev.Offer? then OfferStream(e)
    else if ev.Deliver? then DeliverChunk(e)
    else if ev.Timeout? then e.(loop := TimedOut(e.loop.i, e.loop.chunk))
    else CloseLocally(e, e.core.objs[e.loop.i].id).(loop := Idle)
  }

  lemma LoopNextIsNext(e: Endpoint, ev: Event)
    requires Shape(e) && LoopReady(e, ev)
    ensures Ready(e, ev) && Next(e, ev) == LoopNext(e, ev)
  {
    hide OfferStream, DeliverChunk, CloseLocally, WellFormed;
  }

  lemma ReceiveIsHandle(e: Endpoint, f: Frame)
    requires Waiting(e)
    ensures Ready(e, Receive(f)) && Next(e, Receive(f)) == Handle(e, f)
  {
    hide Handle, WellFormed;
  }

  lemma OpenFull(e: Endpoint, f: Frame)
    requires Waiting(e) && f.kind == STREAM_OPEN && e.core.acceptOpen && |e.core.acceptChan| >= ACCEPT_QUEUE
    ensures var mid := Handle(e, f);
      && Shape(mid) && LoopReady(mid, Offer) && Shape(LoopNext(mid, Offer)) && LoopReady(LoopNext(mid, Offer), Reject)
      && TurnEnds(e, LoopNext(LoopNext(mid, Offer), Reject), LoopTurn(e.core, f, true).0, Taken,
                  Some(Frame(STREAM_CLOSE, f.id, [])))
  {
    var mid := Handle(e, f);
    assert mid.core.objs[mid.loop.i] == NewStream(f.id, f.payload) && mid.core.streams[f.id] == mid.loop.i;
    assert WellFormed(mid.core);
    hide WellFormed, Handle, Insert, Remove;
  }

  lemma OpenOffered(e: Endpoint, f: Frame, timesOut: bool)
    requires Waiting(e) && f.kind == STREAM_OPEN && !(e.core.acceptOpen && |e.core.acceptChan| >= ACCEPT_QUEUE)
    ensures var mid := Handle(e, f);
      && Shape(mid) && LoopReady(mid, Offer)
      && TurnEnds(e, LoopNext(mid, Offer), LoopTurn(e.core, f, timesOut).0, LoopTurn(e.core, f, timesOut).1, None)
  {
    var mid := Handle(e, f);
    assert WellFormed(mid.core);
    hide WellFormed, Remove;
  }

  lemma OpenTurn(e: Endpoint, f: Frame, timesOut: bool)
    requires Waiting(e) && f.kind == STREAM_OPEN
    ensures TurnFits(e, f, timesOut)
  {
    hide Next, Ready, Handle, LoopNext, LoopReady, Steps, TurnEnds, Insert, Remove, WellFormed, PushAccept;
    ReceiveIsHandle(e, f);
    if e.core.acceptOpen && |e.core.acceptChan| >= ACCEPT_QUEUE {
      OpenFull(e, f);
      LoopNextIsNext(Handle(e, f), Offer);
      LoopNextIsNext(LoopNext(Handle(e, f), Offer), Reject);
      ThreeSteps(e, Receive(f), Offer, Reject);
    } else {
      OpenOffered(e, f, timesOut);
      LoopNextIsNext(Handle(e, f), Offer);
      TwoSteps(e, Receive(f), Offer);
      assert [Receive(f)] + [Offer] == [Receive(f), Offer];
    }
  }

  /** The events of a turn are ready one after the other, and the turn ends as LoopTurn and LoopAnswer say. */
  ghost predicate TurnFits(e: Endpoint, f: Frame, timesOut: bool)
    requires Shape(e)
  {
    var r := Steps(e, TurnEvents(e.core, f, timesOut));
    var (c, outcome) := LoopTurn(e.core, f, timesOut);
    r.Some? && TurnEnds(e, r.value, c, outcome, LoopAnswer(e.core, f, timesOut))
  }

  /** The stream that the map has for f's ID bears it, and its channel is open. */
  ghost predicate Mapped(c: Core, f: Frame)
    requires WellFormed(c)
  {
    f.id in c.streams ==> c.objs[c.streams[f.id]].id == f.id && c.objs[c.streams[f.id]].chanOpen
  }

  lemma DataGivenUp(e: Endpoint, f: Frame)
    requires Waiting(e) && Mapped(e.core, f) && f.kind == DATA && f.id in e.core.streams
    requires |e.core.objs[e.core.streams[f.id]].chan| >= READ_QUEUE
    ensures var mid := Handle(e, f);
      && Shape(mid) && LoopReady(mid, Timeout)
      && Shape(LoopNext(mid, Timeout)) && LoopReady(LoopNext(mid, Timeout), GiveUp)
      && TurnEnds(e, LoopNext(LoopNext(mid, Timeout), GiveUp), Remove(e.core, f.id), Taken,
                  Some(Frame(STREAM_CLOSE, f.id, [])))
  {
    hide Remove;
  }

  lemma DataDelivered(e: Endpoint, f: Frame)
    requires Waiting(e) && Mapped(e.core, f) && f.kind == DATA && f.id in e.core.streams
    requires |e.core.objs[e.core.streams[f.id]].chan| < READ_QUEUE
    ensures var mid, i := Handle(e, f), e.core.streams[f.id];
      && Shape(mid) && LoopReady(mid, Deliver)
      && TurnEnds(e, LoopNext(mid, Deliver), SetStream(e.core, i, Push(e.core.objs[i], f.payload)), Taken, None)
  {
    hide Remove;
  }

  /** A frame that needs no more than to be received, or that has to wait. */
  lemma JustReceived(e: Endpoint, f: Frame, timesOut: bool)
    requires Waiting(e) && f.kind != STREAM_OPEN && !RemovePanics(e.core, f.id)
    requires f.kind == DATA && f.id in e.core.streams ==>
      var s := e.core.objs[e.core.streams[f.id]]; s.chanOpen && |s.chan| >= READ_QUEUE && !timesOut
    ensures TurnEnds(e, Handle(e, f), LoopTurn(e.core, f, timesOut).0, LoopTurn(e.core, f, timesOut).1,
                     LoopAnswer(e.core, f, timesOut))
  {
    hide ShutChan;
    assert e.threads + multiset{} == e.threads;
  }

  lemma DataTurn(e: Endpoint, f: Frame, timesOut: bool)
    requires Waiting(e) && f.kind == DATA && Mapped(e.core, f)
    ensures TurnFits(e, f, timesOut)
  {
    hide Next, Ready, Handle, LoopNext, LoopReady, Steps, TurnEnds, Remove, SetStream;
    ReceiveIsHandle(e, f);
    assert [Receive(f)] + [] == [Receive(f)];
    if f.id !in e.core.streams || (|e.core.objs[e.core.streams[f.id]].chan| >= READ_QUEUE && !timesOut) {
      JustReceived(e, f, timesOut);
      OneStep(e, Receive(f));
    } else if timesOut && |e.core.objs[e.core.streams[f.id]].chan| >= READ_QUEUE {
      DataGivenUp(e, f);
      LoopNextIsNext(Handle(e, f), Timeout);
      LoopNextIsNext(LoopNext(Handle(e, f), Timeout), GiveUp);
      ThreeSteps(e, Receive(f), Timeout, GiveUp);
    } else {
      DataDelivered(e, f);
      LoopNextIsNext(Handle(e, f), Deliver);
      TwoSteps(e, Receive(f), Deliver);
      assert [Receive(f)] + [Deliver] == [Receive(f), Deliver];
    }
  }

  lemma OtherTurn(e: Endpoint, f: Frame, timesOut: bool)
    requires Waiting(e) && f.kind != STREAM_OPEN && f.kind != DATA && !RemovePanics(e.core, f.id)
    ensures TurnFits(e, f, timesOut)
  {
    hide Next, Ready, Handle, Steps, TurnEnds, LoopTurn, LoopAnswer, WellFormed;
    assert [Receive(f)] + [] == [Receive(f)];
    ReceiveIsHandle(e, f);
    JustReceived(e, f, timesOut);
    OneStep(e, Receive(f));
  }

  /** From an idle readLoop, the events Receive, then Offer and perhaps Reject, or Deliver, or Timeout and GiveUp,
      are ready one after the other and lead to the shared state that LoopTurn says; readLoop then waits or has
      panicked exactly when LoopTurn says; and what is then still to be sent is exactly what LoopAnswer says. */
  lemma TurnIsSteps(e: Endpoint, peer: Endpoint, timesOut: bool)
    requires Local(e) && e.rd < |peer.log| && Waiting(e)
    ensures TurnFits(e, peer.log[e.rd], timesOut)
  {
    hide Announced, Announcing, Written, Writers, ClosesOnce, Queued, Numbered, Fated, TurnFits;
    var f := peer.log[e.rd];
    if f.kind == STREAM_OPEN {
      OpenTurn(e, f, timesOut);
    } else if f.kind == DATA {
      DataTurn(e, f, timesOut);
    } else {
      OtherTurn(e, f, timesOut);
    }
  }
}
