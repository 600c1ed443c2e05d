/** When a session panics: Go panics on a send on a closed channel, and Close and closeStream can close a
    channel that readLoop is about to send on. */
module MuxPanic {
  import opened Wrappers
  import MuxCore
  import opened Mux
  import opened MuxInvariant
  import MuxLocal
  import MuxSteps
  import MuxFlow
  import MuxTurn
  import MuxCalls
  import opened MuxReach

  /** A step panics iff readLoop sends a chunk to a Stream that left the map after it was looked up, or offers
      a stream after Close has closed the accept queue. */
  lemma PanicsExactly(states: seq<System>, acts: seq<Action>, k: nat)
    requires Run(states, acts) && k < |acts|
    ensures var side, ev := acts[k].side, acts[k].ev; var e, e' := states[k].At(side), states[k + 1].At(side);
      && Shape(e) && e.panic == None
      && e'.panic ==
           if ev.Deliver? && e.core.objs[e.loop.i].id !in e.core.streams then Some(SendOnClosedStream)
           else if ev.Offer? && !e.core.acceptOpen then Some(SendOnClosedAccept)
           else None
  {
    hide Linked, Owned, Announced, Announcing, Written, Writers, ClosesOnce, Queued, Numbered, Fated, Next;
    MuxFlow.RunInvariant(states, acts, k);
    assert Step(states[k], acts[k].side, acts[k].ev, states[k + 1]);
    StepPanic(states[k].At(acts[k].side), states[k].At(Peer(acts[k].side)), acts[k].ev);
  }

  lemma StepPanic(e: Endpoint, peer: Endpoint, ev: Event)
    requires Local(e) && Local(peer) && e.isServer != peer.isServer
    requires Linked(e, peer.log) && Enabled(e, ev, peer.log)
    ensures Next(e, ev).panic ==
      if ev.Deliver? && e.core.objs[e.loop.i].id !in e.core.streams then Some(SendOnClosedStream)
      else if ev.Offer? && !e.core.acceptOpen then Some(SendOnClosedAccept)
      else None
  {
    hide Linked, Owned, Announced, Announcing, Written, Writers, ClosesOnce, Queued, Numbered, Fated, Handle;
    if ev.Receive? {
      MuxSteps.HandleLocal(e, peer);
    } else if ev.OpenStream? || ev.CallWrite? || ev.CallClose? || ev.Accept? || ev.Read? {
      hide Next;
      MuxSteps.CallerLocal(e, ev);
    } else if ev.CloseStream? || ev.ShutStreams? || ev.ShutAccept? || ev.ShutConn? || ev.BreakWire? {
      hide Next;
      MuxSteps.CloserLocal(e, ev);
    } else if ev.Reject? || ev.GiveUp? {
      MuxLocal.DropKeeps(e);
    } else if ev.Offer? || ev.Deliver? || ev.Timeout? || ev.StopLoop? {
      hide CloseLocally, CloseSession, AcceptNext;
    } else {
      hide Next;
      MuxSteps.WriterLocal(e, ev);
    }
  }

  // ---- A send on a closed accept queue ----

  /** A client whose Close has run up to the accept queue. */
  const CLOSING_CLIENT: Endpoint :=
    NewEndpoint(false).(core := MuxCore.NewCore(false).(closed := true, acceptOpen := false), shutdown := 2)

  lemma ClientCloses()
    returns (c1: Endpoint)
    ensures Enabled(NewEndpoint(false), ShutStreams, [OPEN_FRAME]) && c1 == Next(NewEndpoint(false), ShutStreams)
    ensures Enabled(c1, ShutAccept, [OPEN_FRAME]) && CLOSING_CLIENT == Next(c1, ShutAccept)
  {
    c1 := Next(NewEndpoint(false), ShutStreams);
    assert c1.core.streams == map[] && c1.core.objs == [] && c1.hist == [];
  }

  /** It gets the announcement, and offers the stream. */
  lemma ClientOffers()
    returns (c3: Endpoint, c4: Endpoint)
    ensures Enabled(CLOSING_CLIENT, Receive(OPEN_FRAME), [OPEN_FRAME])
    ensures c3 == Next(CLOSING_CLIENT, Receive(OPEN_FRAME))
    ensures Enabled(c3, Offer, [OPEN_FRAME]) && c4 == Next(c3, Offer)
    ensures c4.panic == Some(SendOnClosedAccept)
  {
    c3 := Next(CLOSING_CLIENT, Receive(OPEN_FRAME));
    assert c3.loop == Offering(0) && |c3.hist| == |c3.core.objs| == 1 && c3.core.streams == map[3 := 0];
    c4 := Next(c3, Offer);
  }

  /** The panic is reachable: the client closes its session while a StreamOpen frame is on its way. */
  lemma PanicIsReachable()
    ensures exists s :: Reachable(s) && s.client.panic == Some(SendOnClosedAccept)
  {
    hide Next, Ready, Shape, CLOSING_CLIENT, Reachable;
    var c1 := ClientCloses();
    var c3, c4 := ClientOffers();
    var e, c0 := Server(0), NewEndpoint(false);
    ServerReaches(0);
    ReachNext(System(e, c0), AtClient, ShutStreams);
    ReachNext(System(e, c1), AtClient, ShutAccept);
    ReachNext(System(e, CLOSING_CLIENT), AtClient, Receive(OPEN_FRAME));
    ReachNext(System(e, c3), AtClient, Offer);
  }

  // ---- A send on a closed stream ----

  /** From any state in which readLoop holds a chunk for a stream whose user has not closed it yet, the user's
      Close in between leads to the panic. */
  lemma CloseWhileDelivering(e: Endpoint)
    requires Local(e) && e.panic == None && e.loop.Delivering? && Holds(e, e.loop.i) && !e.core.objs[e.loop.i].closed
    ensures var i := e.loop.i; var id := e.core.objs[i].id;
      var r := MuxTurn.Steps(e, [CallClose(i)] + [CloseStream(id), Deliver]);
      r.Some? && r.value.panic == Some(SendOnClosedStream)
  {
    hide Announced, Announcing, Written, Writers, ClosesOnce, Queued, Numbered, Fated;
    hide Next, Ready, MuxTurn.Steps, CloseLocally;
    var i := e.loop.i;
    var id := e.core.objs[i].id;
    MuxCalls.CallCloseIsReady(e, i);
    var e1 := Fork(e.(core := MuxCore.SetStream(e.core, i, e.core.objs[i].(closed := true))), Closing(id));
    assert Shape(e1) && e1.core.streams == e.core.streams && e1.core.objs[i].id == id;
    assert e1.core.objs[i].chanOpen == e.core.objs[i].chanOpen;
    hide Local, Shape, MuxCore.SetStream;
    ClosedUnderIt(e1, i);
    MuxCalls.CloseIsReady(e1, id);
    DeliverIsReady(CloseLocally(Finish(e1, Closing(id)), id));
    MuxTurn.ThreeSteps(e, CallClose(i), CloseStream(id), Deliver);
  }

  lemma ClosedUnderIt(e: Endpoint, i: nat)
    requires Shape(e) && e.panic == None && e.loop.Delivering? && e.loop.i == i
    requires Closing(e.core.objs[i].id) in e.threads
    requires e.core.objs[i].id in e.core.streams ==> e.core.streams[e.core.objs[i].id] == i && e.core.objs[i].chanOpen
    requires e.core.objs[i].id !in e.core.streams ==> !e.core.objs[i].chanOpen
    ensures var id := e.core.objs[i].id; var e' := CloseLocally(Finish(e, Closing(id)), id);
      Shape(e') && e'.panic == None && e'.loop == e.loop && !e'.core.objs[i].chanOpen
  {
  }

  lemma DeliverIsReady(e: Endpoint)
    requires Shape(e) && e.panic == None && e.loop.Delivering? && !e.core.objs[e.loop.i].chanOpen
    ensures Ready(e, Deliver) && Next(e, Deliver).panic == Some(SendOnClosedStream)
  {
    hide MuxCore.WellFormed;
  }

  /** The other panic is reachable in ordinary use: the client's user closes a stream between the lookup and the
      delivery of a byte that the server wrote on it. */
  lemma StreamCloseCanPanic()
    ensures exists s :: Reachable(s) && s.client.panic == Some(SendOnClosedStream)
  {
    hide Next, Ready, Shape, MuxTurn.Steps, Local, Reachable, Linked;
    ServerReaches(1);
    ClientHolds(Server(1));
    ClientReads(Server(1), 0);
    var s := System(Server(1), Reading(0));
    ReachableIsLocal(s);
    CloseWhileDelivering(s.client);
    ReachSteps(s, AtClient, [CallClose(0)] + [CloseStream(3), Deliver]);
  }
}
