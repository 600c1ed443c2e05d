/** Every step of an endpoint keeps Local. */
module MuxSteps {
  import opened Bytes
  import opened Wrappers
  import opened Frame
  import opened MuxCore
  import opened Mux
  import opened MuxInvariant
  import opened MuxLocal
  import MuxEnter
  import MuxLink

  lemma HandleLocal(e: Endpoint, peer: Endpoint)
    requires Local(e) && Local(peer) && e.isServer != peer.isServer
    requires Linked(e, peer.log) && e.rd < |peer.log| && e.loop.Idle?
    ensures Local(Handle(e, peer.log[e.rd])) && Handle(e, peer.log[e.rd]).panic == e.panic
  {
    hide Announced, Announcing, Written, Writers, ClosesOnce, Queued, Numbered, Fated;
    var f := peer.log[e.rd];
    var e' := e.(rd := e.rd + 1);
    FlagsKeep(e, e.panic, e.connUp, e.shutdown, e.core.acceptOpen, e.rd + 1);
    assert e' == e.(panic := e.panic, connUp := e.connUp, shutdown := e.shutdown, rd := e.rd + 1,
                    core := e.core.(acceptOpen := e.core.acceptOpen));
    if f.kind == STREAM_OPEN {
      MuxLink.AnnouncedIsFresh(e, peer);
      MuxEnter.ReceiveOpenKeeps(e, f);
    } else if f.kind == DATA {
      if f.id in e.core.streams {
        LoopKeeps(e', Delivering(e.core.streams[f.id], f.payload));
      }
    } else if f.kind == STREAM_CLOSE {
      UnlinkKeeps(e', f.id, ClosedByPeer);
    } else if f.kind == PING {
      LoopKeeps(e', Answering);
    }
  }

  /** Steps of callers of OpenStream, Write, Close, AcceptStream and Read. */
  lemma CallerLocal(e: Endpoint, ev: Event)
    requires Local(e) && Ready(e, ev)
    requires ev.OpenStream? || ev.CallWrite? || ev.CallClose? || ev.Accept? || ev.Read?
    ensures Local(Next(e, ev)) && Next(e, ev).panic == e.panic
  {
    hide Announced, Announcing, Written, Writers, ClosesOnce, Queued, Numbered, Lifecycle, Fated, Owned;
    match ev
    case OpenStream(target) => MuxEnter.OpenStreamKeeps(e, target);
    case CallWrite(i, data) => ForkKeeps(e, Writing(i, data));
    case CallClose(i) =>
      StreamKeeps(e, i, e.core.objs[i].(closed := true), e.hist[i].consumed);
      var mid := e.(core := SetStream(e.core, i, e.core.objs[i].(closed := true)));
      assert e.hist[i := e.hist[i].(consumed := e.hist[i].consumed)] == e.hist;
      ForkKeeps(mid, Closing(e.core.objs[i].id));
    case Accept => AcceptKeeps(e);
    case Read(i, n) => ReadLocal(e, i, n);
  }

  lemma ReadLocal(e: Endpoint, i: nat, n: nat)
    requires Local(e) && i < |e.hist|
    ensures Local(ReadStream(e, i, n)) && ReadStream(e, i, n).panic == e.panic
  {
    hide Announced, Announcing, Written, Writers, ClosesOnce, Queued, Numbered, Lifecycle, Fated, Owned;
    var s := e.core.objs[i];
    match ReadResult(s, n)
    case Data(b) => StreamKeeps(e, i, AfterRead(s, n), e.hist[i].consumed + b);
    case _ =>
      StreamKeeps(e, i, AfterRead(s, n), e.hist[i].consumed);
      assert e.hist[i := e.hist[i].(consumed := e.hist[i].consumed)] == e.hist;
  }

  /** Steps under the write lock. */
  lemma WriterLocal(e: Endpoint, ev: Event)
    requires Local(e) && Ready(e, ev)
    requires ev.SendOpen? || ev.BeginWrite? || ev.WriteChunk? || ev.EndWrite? || ev.SendClose? || ev.Answer?
          || ev.SendPing?
    ensures Local(Next(e, ev)) && Next(e, ev).panic == e.panic
  {
    hide Announced, Announcing, Written, Writers, ClosesOnce, Queued, Numbered, Lifecycle, Fated, Owned;
    match ev
    case SendOpen(i, ok) =>
      if ok {
        SendOpenKeeps(e, i);
      } else {
        FinishKeeps(e, OpenSend(i));
        ForkKeeps(Finish(e, OpenSend(i)), Closing(e.core.objs[i].id));
      }
    case BeginWrite(i, data) =>
      BeginLocal(e, i, data);
    case WriteChunk(ok) => if ok { WriteChunkKeeps(e); } else { LockKeeps(e, Free); }
    case EndWrite => LockKeeps(e, Free);
    case SendClose(id, ok) => if ok { SendCloseKeeps(e, id); } else { FinishKeeps(e, CloseSend(id)); }
    case Answer(ok) =>
      LoopKeeps(e, Idle);
      if ok { SendKeeps(e.(loop := Idle), Frame(PONG, 0, [])); }
    case SendPing(ok) => if ok { SendKeeps(e, Frame(PING, 0, [])); }
  }

  lemma BeginLocal(e: Endpoint, i: nat, data: Bytes)
    requires Local(e) && Writing(i, data) in e.threads
    ensures Local(Finish(e, Writing(i, data)))
    ensures Local(Finish(e, Writing(i, data)).(writeMu := Held(i, data, 0)))
  {
    hide Announced, Announcing, Written, ClosesOnce, Queued, Numbered, Lifecycle, Owned;
    FinishKeeps(e, Writing(i, data));
    LockKeeps(Finish(e, Writing(i, data)), Held(i, data, 0));
  }

  /** Steps of readLoop after a frame was read. */
  lemma LoopLocal(e: Endpoint, ev: Event)
    requires Local(e) && Ready(e, ev)
    requires ev.Offer? || ev.Reject? || ev.Deliver? || ev.Timeout? || ev.GiveUp? || ev.StopLoop?
    ensures Local(Next(e, ev)) && Next(e, ev).panic != Some(CloseOfClosed)
  {
    hide Announced, Announcing, Written, Writers, ClosesOnce, Queued, Numbered, Lifecycle, Fated, Owned;
    match ev
    case Offer => OfferKeeps(e);
    case Reject => DropKeeps(e);
    case Deliver => DeliverLocal(e);
    case Timeout => LoopKeeps(e, TimedOut(e.loop.i, e.loop.chunk));
    case GiveUp => DropKeeps(e);
    case StopLoop => LoopKeeps(e, Stopped);
  }

  lemma DeliverLocal(e: Endpoint)
    requires Local(e) && e.loop.Delivering?
    ensures Local(DeliverChunk(e))
  {
    hide Announced, Announcing, Written, Writers, ClosesOnce, Queued, Numbered, Lifecycle, Fated, Owned;
    var i := e.loop.i;
    var s := e.core.objs[i];
    if s.chanOpen {
      LoopKeeps(e, Idle);
      StreamKeeps(e.(loop := Idle), i, Push(s, e.loop.chunk), e.hist[i].consumed);
      assert e.hist[i := e.hist[i].(consumed := e.hist[i].consumed)] == e.hist;
    } else {
      FlagsKeep(e, Some(SendOnClosedStream), e.connUp, e.shutdown, e.core.acceptOpen, e.rd);
      assert e.core.(acceptOpen := e.core.acceptOpen) == e.core;
    }
  }

  /** Steps of closeStream and of Close, and the failure of the connection. */
  lemma CloserLocal(e: Endpoint, ev: Event)
    requires Local(e) && Ready(e, ev)
    requires ev.CloseStream? || ev.ShutStreams? || ev.ShutAccept? || ev.ShutConn? || ev.BreakWire?
    ensures Local(Next(e, ev)) && Next(e, ev).panic == e.panic
  {
    hide Announced, Announcing, Written, Writers, ClosesOnce, Queued, Numbered, Lifecycle, Fated, Owned;
    assert e.core.(acceptOpen := e.core.acceptOpen) == e.core;
    match ev
    case CloseStream(id) =>
      FinishKeeps(e, Closing(id));
      CloseLocallyKeeps(Finish(e, Closing(id)), id);
    case ShutStreams => CloseSessionKeeps(e);
    case ShutAccept => FlagsKeep(e, e.panic, e.connUp, 2, false, e.rd);
    case ShutConn => FlagsKeep(e, e.panic, false, 3, e.core.acceptOpen, e.rd);
    case BreakWire => FlagsKeep(e, e.panic, false, e.shutdown, e.core.acceptOpen, e.rd);
  }

  lemma StepLocal(e: Endpoint, peer: Endpoint, ev: Event)
    requires Local(e) && Local(peer) && e.isServer != peer.isServer
    requires Linked(e, peer.log) && Enabled(e, ev, peer.log)
    ensures Local(Next(e, ev)) && Next(e, ev).panic != Some(CloseOfClosed)
  {
    hide Local;
    match ev
    case OpenStream(_) => CallerLocal(e, ev);
    case CallWrite(_, _) => CallerLocal(e, ev);
    case CallClose(_) => CallerLocal(e, ev);
    case Accept => CallerLocal(e, ev);
    case Read(_, _) => CallerLocal(e, ev);
    case SendOpen(_, _) => WriterLocal(e, ev);
    case BeginWrite(_, _) => WriterLocal(e, ev);
    case WriteChunk(_) => WriterLocal(e, ev);
    case EndWrite => WriterLocal(e, ev);
    case SendClose(_, _) => WriterLocal(e, ev);
    case Answer(_) => WriterLocal(e, ev);
    case SendPing(_) => WriterLocal(e, ev);
    case Offer => LoopLocal(e, ev);
    case Reject => LoopLocal(e, ev);
    case Deliver => LoopLocal(e, ev);
    case Timeout => LoopLocal(e, ev);
    case GiveUp => LoopLocal(e, ev);
    case StopLoop => LoopLocal(e, ev);
    case Receive(_) => HandleLocal(e, peer);
    case CloseStream(_) => CloserLocal(e, ev);
    case ShutStreams => CloserLocal(e, ev);
    case ShutAccept => CloserLocal(e, ev);
    case ShutConn => CloserLocal(e, ev);
    case BreakWire => CloserLocal(e, ev);
  }
}
