/** Every step of an endpoint keeps Linked, and so every run keeps the invariant. */
module MuxFlow {
  import opened Bytes
  import opened Wrappers
  import opened Frame
  import opened MuxCore
  import opened Mux
  import opened MuxInvariant
  import MuxLocal
  import MuxEnter
  import opened MuxLink
  import MuxSteps

  lemma HandleLinked(e: Endpoint, peer: Endpoint)
    requires Local(e) && Local(peer) && e.isServer != peer.isServer
    requires Linked(e, peer.log) && e.rd < |peer.log| && e.loop.Idle?
    ensures Linked(Handle(e, peer.log[e.rd]), peer.log)
  {
    hide Fated, Numbered, Announced, Announcing, Written, Writers, ClosesOnce, Queued, Flowing, Arriving;
    var f, read := peer.log[e.rd], peer.log[..e.rd];
    ReadMore(peer.log, e.rd);
    if f.kind == STREAM_OPEN {
      ReceivedOpenLinked(e, peer);
    } else if f.kind == DATA && f.id in e.core.streams {
      ReceivedFor(e, f, peer.log);
    } else if f.kind == STREAM_CLOSE {
      ReceivedAtRest(e, Idle, peer.log);
      UnlinkLinked(e.(rd := e.rd + 1), f.id, ClosedByPeer, peer.log);
    } else {
      ReceivedAtRest(e, Idle, peer.log);
      FlowAtRest(e.core.objs, e.hist, Idle, Answering, read + [f]);
    }
  }

  lemma ReceivedOpenLinked(e: Endpoint, peer: Endpoint)
    requires Local(e) && Local(peer) && e.isServer != peer.isServer
    requires Linked(e, peer.log) && e.rd < |peer.log| && e.loop.Idle? && peer.log[e.rd].kind == STREAM_OPEN
    ensures Linked(Handle(e, peer.log[e.rd]), peer.log)
  {
    hide Fated, Owned, Lifecycle, Announced, Announcing, Written;
    hide Writers, ClosesOnce, Queued, Numbered, Flowing, Arriving;
    var f, read := peer.log[e.rd], peer.log[..e.rd];
    var s, h := NewStream(f.id, f.payload), History(Arrived(e.rd), false, [], [], Live);
    AnnouncedIsFresh(e, peer);
    ReadMore(peer.log, e.rd);
    ReceivedAtRest(e, Idle, peer.log);
    DataOfSnoc(read, f, f.id);
    FlowEnter(e.core.objs, e.hist, Idle, read + [f], s, h);
    FlowAtRest(e.core.objs + [s], e.hist + [h], Idle, Offering(|e.core.objs|), read + [f]);
    ArrivingEnter(e.core.objs, e.hist, read, read + [f], s, h);
    assert Created(e.owner[f.id := |e.core.objs|], read + [f]);
  }

  /** readLoop holds no chunk. */
  predicate AtRest(l: Loop) {
    !l.Delivering? && !l.TimedOut?
  }

  lemma FlowAtRest(objs: seq<Stream>, hist: seq<History>, l: Loop, l': Loop, read: seq<Frame>)
    requires Flowing(objs, hist, l, read) && AtRest(l) && AtRest(l')
    ensures Flowing(objs, hist, l', read)
  {
    FlowLoop(objs, hist, l, l', read);
  }

  lemma ReceivedAtRest(e: Endpoint, l: Loop, peerLog: seq<Frame>)
    requires Local(e) && Linked(e, peerLog) && e.rd < |peerLog| && e.loop.Idle? && AtRest(l)
    requires peerLog[e.rd].kind == DATA ==> peerLog[e.rd].id !in e.core.streams
    ensures peerLog[..e.rd + 1] == peerLog[..e.rd] + [peerLog[e.rd]]
    ensures Flowing(e.core.objs, e.hist, l, peerLog[..e.rd + 1]) && Arriving(e.core.objs, e.hist, peerLog[..e.rd + 1])
    ensures peerLog[e.rd].kind != STREAM_OPEN ==> Created(e.owner, peerLog[..e.rd + 1])
  {
    hide Announced, Announcing, Written, Writers, ClosesOnce, Queued, Numbered, Flowing, Arriving;
    FlowReceived(e.core.objs, e.hist, l, peerLog[..e.rd], peerLog[e.rd]);
    ReadMore(peerLog, e.rd);
  }

  lemma ReceivedFor(e: Endpoint, f: Frame, peerLog: seq<Frame>)
    requires Local(e) && Linked(e, peerLog) && e.rd < |peerLog| && e.loop.Idle?
    requires f == peerLog[e.rd] && f.kind == DATA && f.id in e.core.streams
    ensures Linked(Handle(e, f), peerLog)
  {
    hide Announced, Announcing, Written, Writers, ClosesOnce, Queued, Numbered, Flowing, Arriving;
    var k := e.core.streams[f.id];
    forall i | 0 <= i < |e.core.objs| && e.core.objs[i].chanOpen
      ensures InHand(Delivering(k, f.payload), i) == DataIn(f, e.core.objs[i].id)
    {
      assert e.owner[e.core.objs[i].id] == i;
    }
    FlowReceived(e.core.objs, e.hist, Delivering(k, f.payload), peerLog[..e.rd], f);
    ReadMore(peerLog, e.rd);
  }

  lemma UnlinkLinked(e: Endpoint, id: uint32, fate: Fate, peerLog: seq<Frame>)
    requires Local(e) && Linked(e, peerLog)
    ensures Linked(Unlink(e, id, fate), peerLog)
  {
    hide Fated, Numbered, Announced, Announcing, Written, Writers, ClosesOnce, Queued, Flowing, Arriving;
    var e' := Unlink(e, id, fate);
    FlowKept(e.core.objs, e.hist, e'.core.objs, e'.hist, e.loop, peerLog[..e.rd]);
  }

  /** closeStream from readLoop: the Stream whose chunk was dropped leaves the map. */
  lemma DropLinked(e: Endpoint, peerLog: seq<Frame>)
    requires Local(e) && Linked(e, peerLog) && (e.loop.Rejecting? || e.loop.TimedOut?)
    ensures Linked(CloseLocally(e, e.core.objs[e.loop.i].id).(loop := Idle), peerLog)
  {
    hide Announced, Announcing, Written, Writers, ClosesOnce, Queued, Numbered, Flowing, Arriving;
    var id := e.core.objs[e.loop.i].id;
    var mid := Unlink(e, id, ClosedHere);
    UnlinkLinked(e, id, ClosedHere, peerLog);
    UnlinkedShut(e, id);
    FlowLoop(mid.core.objs, mid.hist, e.loop, Idle, peerLog[..e.rd]);
  }

  lemma UnlinkedShut(e: Endpoint, id: uint32)
    requires Local(e)
    ensures var e' := Unlink(e, id, ClosedHere);
      forall i :: 0 <= i < |e'.core.objs| && e.core.objs[i].id == id ==> !e'.core.objs[i].chanOpen
  {
    hide Announced, Announcing, Written, Writers, ClosesOnce, Queued, Numbered;
  }

  lemma ShutLinked(e: Endpoint, peerLog: seq<Frame>)
    requires Local(e) && Linked(e, peerLog)
    ensures Linked(CloseSession(e), peerLog)
  {
    hide Fated, Numbered, Announced, Announcing, Written, Writers, ClosesOnce, Queued, Flowing, Arriving;
    var e' := CloseSession(e);
    FlowKept(e.core.objs, e.hist, e'.core.objs, e'.hist, e.loop, peerLog[..e.rd]);
  }

  lemma OpenStreamLinked(e: Endpoint, peer: Endpoint, target: Bytes)
    requires Local(e) && Local(peer) && e.isServer != peer.isServer && e.opens < MAX_OPENS
    requires Linked(e, peer.log) && Linked(peer, e.log)
    ensures var entered := Enter(e, Register(e.core, target), NextID(e.core), Opened(e.opens + 1, -1));
      var e' := Fork(entered, OpenSend(|e.core.objs|))
        .(opens := e.opens + 1);
      Linked(e', peer.log)
  {
    hide Local, Flowing, Arriving;
    OpenLinked(e, peer, target);
  }

  lemma OpenLinked(e: Endpoint, peer: Endpoint, target: Bytes)
    requires Local(e) && Local(peer) && e.isServer != peer.isServer && e.opens < MAX_OPENS
    requires Linked(e, peer.log) && Linked(peer, e.log)
    ensures Linked(Enter(e, Register(e.core, target), NextID(e.core), Opened(e.opens + 1, -1)), peer.log)
  {
    hide Announced, Announcing, Written, Writers, ClosesOnce, Queued, Numbered, Flowing, Arriving, Owned, Lifecycle;
    var id := NextID(e.core);
    var s, h := NewStream(id, target), History(Opened(e.opens + 1, -1), false, [], [], Live);
    MuxEnter.NextIDIsFresh(e);
    IdsDistinct(e.isServer, e.opens + 1, 0);
    NoDataBeforeOpen(e, peer, id);
    FlowEnter(e.core.objs, e.hist, e.loop, peer.log[..e.rd], s, h);
    ArrivingEnter(e.core.objs, e.hist, peer.log[..e.rd], peer.log[..e.rd], s, h);
  }

  /** Nothing that Linked speaks of changes but handed, written and sentAt. */
  lemma WriterLinked(e: Endpoint, e': Endpoint, peerLog: seq<Frame>)
    requires Local(e) && Linked(e, peerLog) && e'.rd == e.rd && e'.core.objs == e.core.objs && |e'.hist| == |e.hist|
    requires e'.owner == e.owner && (e'.loop == e.loop || (AtRest(e.loop) && AtRest(e'.loop)))
    requires forall i :: 0 <= i < |e.hist| ==>
      && e'.hist[i].consumed == e.hist[i].consumed
      && (e'.hist[i].origin == e.hist[i].origin || (e'.hist[i].origin.Opened? && e.hist[i].origin.Opened?))
    ensures Linked(e', peerLog)
  {
    hide Announced, Announcing, Written, Writers, ClosesOnce, Queued, Numbered, Flowing, Arriving;
    FlowKept(e.core.objs, e.hist, e'.core.objs, e'.hist, e.loop, peerLog[..e.rd]);
    if e'.loop != e.loop {
      FlowAtRest(e'.core.objs, e'.hist, e.loop, e'.loop, peerLog[..e.rd]);
    }
  }

  lemma ReadLinked(e: Endpoint, i: nat, n: nat, peerLog: seq<Frame>)
    requires Local(e) && Linked(e, peerLog) && i < |e.hist|
    ensures Linked(ReadStream(e, i, n), peerLog)
  {
    hide Announced, Announcing, Written, Writers, ClosesOnce, Queued, Numbered, Flowing, Arriving, Owned, Lifecycle;
    FlowRead(e.core.objs, e.hist, i, n, e.loop, peerLog[..e.rd]);
  }

  lemma DeliverLinked(e: Endpoint, peerLog: seq<Frame>)
    requires Local(e) && Linked(e, peerLog) && e.loop.Delivering?
    ensures Linked(DeliverChunk(e), peerLog)
  {
    hide Announced, Announcing, Written, Writers, ClosesOnce, Queued, Numbered, Flowing, Arriving, Owned, Lifecycle;
    if e.core.objs[e.loop.i].chanOpen {
      FlowDelivered(e.core.objs, e.hist, e.loop.i, e.loop.chunk, peerLog[..e.rd]);
    }
  }

  lemma TimeoutLinked(e: Endpoint, peerLog: seq<Frame>)
    requires Local(e) && Linked(e, peerLog) && e.loop.Delivering?
    ensures Linked(e.(loop := TimedOut(e.loop.i, e.loop.chunk)), peerLog)
  {
    hide Announced, Announcing, Written, Writers, ClosesOnce, Queued, Numbered, Flowing, Arriving, Owned, Lifecycle;
    FlowLoop(e.core.objs, e.hist, e.loop, TimedOut(e.loop.i, e.loop.chunk), peerLog[..e.rd]);
  }

  /** The closed flag of a Stream says nothing about its bytes. */
  lemma CallCloseLinked(e: Endpoint, i: nat, ev: Event, peerLog: seq<Frame>)
    requires Local(e) && Linked(e, peerLog) && ev == CallClose(i) && Ready(e, ev)
    ensures Linked(Next(e, ev), peerLog)
  {
    hide Announced, Announcing, Written, Writers, ClosesOnce, Queued, Numbered, Flowing, Arriving, Owned, Lifecycle;
    FlowKept(e.core.objs, e.hist, e.core.objs[i := e.core.objs[i].(closed := true)], e.hist, e.loop, peerLog[..e.rd]);
  }

  lemma SendOpenLinked(e: Endpoint, i: nat, ok: bool, peerLog: seq<Frame>)
    requires Local(e) && Linked(e, peerLog) && i < |e.hist|
    ensures Linked(SendOpenFrame(e, i, ok), peerLog)
  {
    hide Flowing, Arriving, Owned, Lifecycle, Fated, Numbered;
    hide Announced, Announcing, Written, Writers, ClosesOnce, Queued;
    WriterLinked(e, SendOpenFrame(e, i, ok), peerLog);
  }

  lemma WriteChunkLinked(e: Endpoint, peerLog: seq<Frame>)
    requires Local(e) && Linked(e, peerLog) && e.writeMu.Held?
    ensures Linked(WriteNextChunk(e), peerLog)
  {
    hide Flowing, Arriving, Owned, Lifecycle, Fated, Numbered;
    hide Announced, Announcing, Written, Writers, ClosesOnce, Queued;
    WriterLinked(e, WriteNextChunk(e), peerLog);
  }

  lemma AcceptLinked(e: Endpoint, peerLog: seq<Frame>)
    requires Local(e) && Linked(e, peerLog) && e.core.acceptChan != []
    ensures Linked(AcceptNext(e), peerLog)
  {
    hide Flowing, Arriving, Owned, Lifecycle, Fated, Numbered;
    hide Announced, Announcing, Written, Writers, ClosesOnce, Queued;
    WriterLinked(e, AcceptNext(e), peerLog);
  }

  /** Steps that write frames, queue calls, hand out streams or tear the connection down. */
  predicate Quiet(ev: Event) {
    && !ev.OpenStream? && !ev.CallClose? && !ev.Read? && !ev.Deliver? && !ev.Timeout? && !ev.Reject? && !ev.GiveUp?
    && !ev.Receive? && !ev.CloseStream? && !ev.ShutStreams?
  }

  ghost predicate Undisturbed(e: Endpoint, e': Endpoint) {
    && e'.rd == e.rd && e'.core.objs == e.core.objs && e'.hist == e.hist && e'.owner == e.owner
    && (e'.loop == e.loop || (AtRest(e.loop) && AtRest(e'.loop)))
  }

  lemma SenderKeeps(e: Endpoint, ev: Event)
    requires Shape(e) && Ready(e, ev)
    requires ev.CallWrite? || ev.BeginWrite? || (ev.WriteChunk? && !ev.ok) || ev.EndWrite? || ev.SendClose?
          || ev.SendPing?
    ensures Undisturbed(e, Next(e, ev))
  {
    hide WellFormed;
  }

  lemma LoopKeeps(e: Endpoint, ev: Event)
    requires Shape(e) && Ready(e, ev)
    requires ev.Answer? || ev.Offer? || ev.StopLoop? || ev.ShutAccept? || ev.ShutConn? || ev.BreakWire?
    ensures Undisturbed(e, Next(e, ev))
  {
    hide WellFormed;
  }

  lemma QuietKeeps(e: Endpoint, ev: Event)
    requires Shape(e) && Ready(e, ev) && Quiet(ev) && !ev.SendOpen? && !(ev.WriteChunk? && ev.ok) && !ev.Accept?
    ensures Undisturbed(e, Next(e, ev))
  {
    hide Shape, Next, Ready, Undisturbed;
    if ev.Answer? || ev.Offer? || ev.StopLoop? || ev.ShutAccept? || ev.ShutConn? || ev.BreakWire? {
      LoopKeeps(e, ev);
    } else {
      SenderKeeps(e, ev);
    }
  }

  lemma QuietLinked(e: Endpoint, ev: Event, peerLog: seq<Frame>)
    requires Local(e) && Linked(e, peerLog) && Ready(e, ev)
    requires Quiet(ev)
    ensures Linked(Next(e, ev), peerLog)
  {
    hide Linked, SendOpenFrame, WriteNextChunk, AcceptNext, WellFormed, CloseSession;
    hide Owned, Lifecycle, Fated, Numbered, Announced, Announcing, Written, Writers, ClosesOnce, Queued;
    assert Shape(e);
    hide Local;
    if ev.SendOpen? {
      SendOpenLinked(e, ev.i, ev.ok, peerLog);
    } else if ev.WriteChunk? && ev.ok {
      WriteChunkLinked(e, peerLog);
    } else if ev.Accept? {
      AcceptLinked(e, peerLog);
    } else {
      hide Next, Ready;
      QuietKeeps(e, ev);
      WriterLinked(e, Next(e, ev), peerLog);
    }
  }

  lemma CloseStreamLinked(e: Endpoint, id: uint32, peerLog: seq<Frame>)
    requires Local(e) && Linked(e, peerLog)
    ensures Linked(CloseLocally(Finish(e, Closing(id)), id), peerLog)
  {
    hide Local;
    MuxLocal.FinishKeeps(e, Closing(id));
    UnlinkLinked(Finish(e, Closing(id)), id, ClosedHere, peerLog);
  }

  lemma StepLinked(e: Endpoint, peer: Endpoint, ev: Event)
    requires Local(e) && Local(peer) && e.isServer != peer.isServer
    requires Linked(e, peer.log) && Linked(peer, e.log) && Enabled(e, ev, peer.log)
    ensures Linked(Next(e, ev), peer.log)
  {
    hide Owned, Lifecycle, Fated, Numbered, Announced, Announcing;
    hide Written, Writers, ClosesOnce, Queued, Linked, WellFormed;
    hide Handle, CloseLocally, ReadStream, DeliverChunk, CloseSession;
    hide SendOpenFrame, WriteNextChunk, AcceptNext, OfferStream, Register, AfterRead;
    if Quiet(ev) {
      QuietLinked(e, ev, peer.log);
    } else if ev.OpenStream? {
      OpenStreamLinked(e, peer, ev.target);
    } else if ev.CallClose? {
      CallCloseLinked(e, ev.i, ev, peer.log);
    } else if ev.Read? {
      ReadLinked(e, ev.i, ev.n, peer.log);
    } else if ev.Deliver? {
      DeliverLinked(e, peer.log);
    } else if ev.Timeout? {
      TimeoutLinked(e, peer.log);
    } else if ev.Receive? {
      HandleLinked(e, peer);
    } else if ev.CloseStream? {
      CloseStreamLinked(e, ev.id, peer.log);
    } else if ev.ShutStreams? {
      ShutLinked(e, peer.log);
    } else {
      DropLinked(e, peer.log);
    }
  }

  /** A later state of the same endpoint: the log only grows, and the role stays. */
  ghost predicate Grows(e: Endpoint, e': Endpoint) {
    e.log <= e'.log && e'.isServer == e.isServer
  }

  lemma HandleGrows(e: Endpoint, f: Frame)
    requires Shape(e)
    ensures Grows(e, Handle(e, f))
  {
    hide WellFormed, Remove, RemovePanics, Insert;
  }

  lemma CloseLocallyGrows(e: Endpoint, id: uint32)
    requires Shape(e)
    ensures Grows(e, CloseLocally(e, id))
  {
    hide WellFormed, Remove, RemovePanics;
  }

  lemma ReadGrows(e: Endpoint, i: nat, n: nat)
    requires Shape(e) && i < |e.hist|
    ensures Grows(e, ReadStream(e, i, n))
  {
    hide AfterRead, ReadResult;
  }

  lemma SendGrows(e: Endpoint, i: nat, ok: bool)
    requires Shape(e) && i < |e.hist|
    ensures Grows(e, SendOpenFrame(e, i, ok)) && (e.writeMu.Held? ==> Grows(e, WriteNextChunk(e)))
  {
  }

  lemma StepGrows(e: Endpoint, ev: Event)
    requires Shape(e) && Ready(e, ev)
    ensures Grows(e, Next(e, ev))
  {
    hide WellFormed, Handle, CloseLocally, ReadStream, SendOpenFrame, WriteNextChunk, CloseSession, Register, AfterRead;
    hide NextChunk, SetStream;
    match ev
    case Receive(f) => HandleGrows(e, f);
    case CloseStream(id) => CloseLocallyGrows(Finish(e, Closing(id)), id);
    case Reject => CloseLocallyGrows(e, e.core.objs[e.loop.i].id);
    case GiveUp => CloseLocallyGrows(e, e.core.objs[e.loop.i].id);
    case Read(i, n) => ReadGrows(e, i, n);
    case SendOpen(i, ok) => SendGrows(e, i, ok);
    case WriteChunk(ok) => SendGrows(e, e.writeMu.i, ok);
    case ShutStreams => ShutGrows(e);
    case _ =>
  }

  lemma ShutGrows(e: Endpoint)
    requires Shape(e)
    ensures Grows(e, CloseSession(e))
  {
    hide WellFormed, RemoveAll, RemoveAllPanics;
  }

  lemma StepKeeps(s: System, side: Side, ev: Event, s': System)
    requires Invariant(s) && Step(s, side, ev, s')
    ensures Invariant(s') && s'.At(side).panic != Some(CloseOfClosed) && Grows(s.At(side), s'.At(side))
  {
    hide Local, Linked, Next, Ready;
    var e, peer := s.At(side), s.At(Peer(side));
    MuxSteps.StepLocal(e, peer, ev);
    StepLinked(e, peer, ev);
    StepGrows(e, ev);
    LinkedAfterWrite(peer, e.log, s'.At(side).log);
  }

  lemma StartTables(isServer: bool)
    ensures Owned([], map[]) && Lifecycle([], map[], map[]) && Fated([], [])
    ensures Announced([], [], [], map[]) && Written([], [], [], map[])
    ensures Numbered(isServer, 0, if isServer then 1 else 2, [], [])
  {
    assert IdOf(isServer, 0) == if isServer then 1 else 2;
  }

  lemma StartThreads()
    ensures Announcing(multiset{}, []) && Writers(multiset{}, Free, []) && Queued([], Idle, [])
    ensures ClosesOnce([], multiset{}, [], map[])
  {
    assert forall t: Thread :: multiset{}[t] == 0;
  }

  lemma StartLocal(isServer: bool)
    ensures Local(NewEndpoint(isServer))
  {
    hide Owned, Lifecycle, Fated, Numbered, Announced, Announcing, Written, Writers, ClosesOnce, Queued;
    assert Queue(NewEndpoint(isServer)) == [];
    StartTables(isServer);
    StartThreads();
  }

  lemma StartLinked(isServer: bool)
    ensures Linked(NewEndpoint(isServer), [])
  {
  }

  lemma StartInvariant()
    ensures Invariant(NewSystem())
  {
    hide Local, Linked;
    StartLocal(true);
    StartLocal(false);
    StartLinked(true);
    StartLinked(false);
  }

  /** The invariant holds in every state of every run. */
  lemma {:induction false} RunInvariant(states: seq<System>, acts: seq<Action>, k: nat)
    requires Run(states, acts) && k < |states|
    ensures Invariant(states[k])
    ensures forall side :: states[k].At(side).panic != Some(CloseOfClosed)
  {
    hide Invariant;
    if k == 0 {
      StartInvariant();
    } else {
      RunInvariant(states, acts, k - 1);
      StepKeeps(states[k - 1], acts[k - 1].side, acts[k - 1].ev, states[k]);
    }
  }
}
