/** How streams end: what EOF means after each way of removing a stream, and when no StreamClose follows any more. */
module MuxCloses {
  import opened Bytes
  import opened Wrappers
  import opened Frame
  import opened MuxCore
  import opened Mux
  import opened MuxInvariant
  import MuxFlow
  import MuxHistory
  import MuxTheorems

  // ---- What a removed stream has got ----

  lemma UnlinkGot(e: Endpoint, id: uint32, fate: Fate, i: nat)
    requires Shape(e) && i < |e.hist| && id in e.core.streams && e.core.streams[id] == i && e.core.objs[i].chanOpen
    ensures var e' := Unlink(e, id, fate);
      && |e'.core.objs| == |e'.hist| == |e.hist| && !e'.core.objs[i].chanOpen && e'.core.objs[i].id == e.core.objs[i].id
      && Got(e'.core.objs[i], e'.hist[i]) == Got(e.core.objs[i], e.hist[i])
  {
    hide WellFormed;
  }

  lemma FlowsNow(e: Endpoint, peerLog: seq<Frame>, id: uint32)
    requires Local(e) && Linked(e, peerLog) && id in e.core.streams
    ensures var i := e.core.streams[id];
      && i < |e.hist| == |e.core.objs| && e.core.objs[i].id == id && e.core.objs[i].chanOpen && e.rd <= |peerLog|
      && Got(e.core.objs[i], e.hist[i]) + InHand(e.loop, i) == DataOf(peerLog[..e.rd], id)
  {
    hide Announced, Announcing, Written, Writers, ClosesOnce, Queued, Numbered, Fated, Arriving, Created, Got;
    var i := e.core.streams[id];
    assert FlowingAt(e.core.objs[i], e.hist[i], InHand(e.loop, i), peerLog[..e.rd]);
  }

  /** A Stream that has left the map keeps what it had got, in every later state. */
  lemma GotForEver(states: seq<System>, acts: seq<Action>, j: nat, k: nat, side: Side, i: nat)
    requires Run(states, acts) && j <= k < |states|
    requires var e := states[j].At(side); i < |e.core.objs| && |e.hist| == |e.core.objs| && !e.core.objs[i].chanOpen
    ensures var e, e' := states[j].At(side), states[k].At(side);
      && |e.hist| == |e.core.objs| <= |e'.core.objs| == |e'.hist| && !e'.core.objs[i].chanOpen
      && Got(e'.core.objs[i], e'.hist[i]) == Got(e.core.objs[i], e.hist[i])
  {
    hide Run, Got;
    MuxHistory.RunFollows(states, acts, j, k, side);
    var e, e' := states[j].At(side), states[k].At(side);
    assert MuxHistory.Follows(e.core.objs[i], e.hist[i], e'.core.objs[i], e'.hist[i]);
  }

  /** A close by the peer loses nothing of what came before it: a stream whose StreamClose was processed has got, for
      good, exactly the data frames that the peer wrote on its ID before that frame; and once Read says EOF, it has
      returned them. */
  lemma PeerCloseLosesNothing(states: seq<System>, acts: seq<Action>, j: nat, k: nat)
    requires Run(states, acts) && j < k < |states|
    requires acts[j].ev.Receive? && acts[j].ev.frame.kind == STREAM_CLOSE
    requires acts[j].ev.frame.id in states[j].At(acts[j].side).core.streams
    ensures var side, id := acts[j].side, acts[j].ev.frame.id;
      var e, e', peer := states[j].At(side), states[k].At(side), states[j].At(Peer(side));
      var i := e.core.streams[id];
      && e.rd < |peer.log| && peer.log[e.rd] == acts[j].ev.frame && i < |e'.core.objs| == |e'.hist|
      && Got(e'.core.objs[i], e'.hist[i]) == DataOf(peer.log[..e.rd], id)
      && (forall n :: ReadResult(e'.core.objs[i], n) == Eof ==> e'.hist[i].consumed == DataOf(peer.log[..e.rd], id))
  {
    hide Linked, Local, Handle, Ready;
    var side, f := acts[j].side, acts[j].ev.frame;
    var e, peer := states[j].At(side), states[j].At(Peer(side));
    MuxFlow.RunInvariant(states, acts, j);
    assert Step(states[j], side, acts[j].ev, states[j + 1]);
    assert states[j + 1].At(side) == Handle(e, f);
    var i := e.core.streams[f.id];
    FlowsNow(e, peer.log, f.id);
    ReceivesIdle(e, acts[j].ev);
    HandleClose(e, f, i);
    GotForEver(states, acts, j + 1, k, side, i);
    var s := states[k].At(side).core.objs[i];
    forall n | ReadResult(s, n) == Eof ensures states[k].At(side).hist[i].consumed == DataOf(peer.log[..e.rd], f.id) {
      ReadTakesFront(s, n);
    }
  }

  lemma ReceivesIdle(e: Endpoint, ev: Event)
    requires Shape(e) && Ready(e, ev) && ev.Receive?
    ensures e.loop == Idle
  {
  }

  lemma HandleClose(e: Endpoint, f: Frame, i: nat)
    requires Shape(e) && i < |e.hist| && f.kind == STREAM_CLOSE
    requires f.id in e.core.streams && e.core.streams[f.id] == i && e.core.objs[i].chanOpen
    ensures var e' := Handle(e, f);
      && |e'.core.objs| == |e'.hist| == |e.hist| && !e'.core.objs[i].chanOpen
      && Got(e'.core.objs[i], e'.hist[i]) == Got(e.core.objs[i], e.hist[i])
  {
    hide Unlink, WellFormed, Got;
    UnlinkGot(e.(rd := e.rd + 1), f.id, ClosedByPeer, i);
  }

  lemma {:induction false} RunGrows(states: seq<System>, acts: seq<Action>, j: nat, k: nat, side: Side)
    requires Run(states, acts) && j <= k < |states|
    ensures states[j].At(side).log <= states[k].At(side).log
    decreases k
  {
    hide Invariant, Step;
    if j < k {
      RunGrows(states, acts, j, k - 1, side);
      MuxFlow.RunInvariant(states, acts, k - 1);
      assert Step(states[k - 1], acts[k - 1].side, acts[k - 1].ev, states[k]);
      MuxFlow.StepKeeps(states[k - 1], acts[k - 1].side, acts[k - 1].ev, states[k]);
      OtherSide(states[k - 1], acts[k - 1].side, acts[k - 1].ev, states[k]);
    }
  }

  lemma OtherSide(s: System, side: Side, ev: Event, s': System)
    requires Step(s, side, ev, s')
    ensures s'.At(Peer(side)) == s.At(Peer(side)) && (side == AtServer || side == AtClient)
  {
    hide Next, Ready, Shape;
  }

  /** A timeout drop loses data: when readLoop gives up a chunk for a stream in the map, what Read ever returns on
      that stream is short of what the peer wrote by at least that chunk, although Read then says EOF. */
  lemma DropTruncates(states: seq<System>, acts: seq<Action>, j: nat, k: nat)
    requires Run(states, acts) && j < k < |states| && acts[j].ev.GiveUp?
    requires var e := states[j].At(acts[j].side);
      && e.loop.TimedOut? && e.loop.i < |e.core.objs| && e.core.objs[e.loop.i].id in e.core.streams
    ensures var side := acts[j].side;
      var e, e', peer := states[j].At(side), states[k].At(side), states[k].At(Peer(side));
      var i, id := e.loop.i, e.core.objs[e.loop.i].id;
      && i < |e'.core.objs| == |e'.hist|
      && e'.hist[i].consumed + Buffered(e'.core.objs[i]) + e.loop.chunk <= MuxTheorems.Sent(peer, id)
  {
    hide Linked, Local, Ready, Got, CloseLocally, Buffered, MuxTheorems.Sent, DataOf;
    var side := acts[j].side;
    var e, peer := states[j].At(side), states[j].At(Peer(side));
    MuxFlow.RunInvariant(states, acts, j);
    assert Step(states[j], side, acts[j].ev, states[j + 1]);
    var i := e.loop.i;
    var id := e.core.objs[i].id;
    assert states[j + 1].At(side) == CloseLocally(e, id).(loop := Idle);
    hide Next, Run, Step;
    OwnSlot(e, i);
    FlowsNow(e, peer.log, id);
    GiveUpGot(e, i);
    GotForEver(states, acts, j + 1, k, side, i);
    RunGrows(states, acts, j, k, Peer(side));
    MuxFlow.RunInvariant(states, acts, k);
    var later := states[k].At(Peer(side)).log;
    MuxTheorems.SentIsLogged(states[k].At(Peer(side)), id);
    DataOfAppend(peer.log[..e.rd], later[e.rd..], id);
    assert peer.log[..e.rd] + later[e.rd..] == later;
    GotIs(states[k].At(side).core.objs[i], states[k].At(side).hist[i]);
  }

  lemma GotIs(s: Stream, h: History)
    ensures Got(s, h) == h.consumed + Buffered(s)
  {
  }

  lemma OwnSlot(e: Endpoint, i: nat)
    requires Local(e) && i < |e.core.objs| && e.core.objs[i].id in e.core.streams
    ensures e.core.streams[e.core.objs[i].id] == i
  {
    hide Announced, Announcing, Written, Writers, ClosesOnce, Queued, Numbered, Fated;
  }

  lemma GiveUpGot(e: Endpoint, i: nat)
    requires Shape(e) && i < |e.hist| && e.core.objs[i].chanOpen
    requires var id := e.core.objs[i].id; id in e.core.streams && e.core.streams[id] == i
    ensures var e' := CloseLocally(e, e.core.objs[i].id).(loop := Idle);
      && |e'.core.objs| == |e'.hist| == |e.hist| && !e'.core.objs[i].chanOpen
      && Got(e'.core.objs[i], e'.hist[i]) == Got(e.core.objs[i], e.hist[i])
  {
    hide Unlink, WellFormed, Got;
    UnlinkGot(e, e.core.objs[i].id, ClosedHere, i);
  }

  // ---- When no StreamClose follows any more ----

  /** StreamClose frames for id, sent and still to be sent. */
  function Closings(e: Endpoint, id: uint32): nat {
    CloseCount(e.log, id) + e.threads[CloseSend(id)]
  }

  /** A step that does not find id in the map sends no StreamClose for it but those that were pending. */
  ghost predicate NoNewClose(e: Endpoint, e': Endpoint, id: uint32) {
    && Closings(e', id) <= Closings(e, id)
    && e'.threads[CloseSend(id)] <= e.threads[CloseSend(id)]
    && CloseCount(e.log, id) <= CloseCount(e'.log, id)
  }

  lemma UnlinkNoClose(e: Endpoint, id: uint32, fate: Fate)
    requires Shape(e)
    ensures Unlink(e, id, fate).log == e.log && Unlink(e, id, fate).threads == e.threads
  {
    hide WellFormed, Remove;
  }

  lemma DropNoClose(e: Endpoint, other: uint32, id: uint32)
    requires Shape(e) && id !in e.core.streams
    ensures NoNewClose(e, CloseLocally(e, other), id)
  {
    hide Unlink, WellFormed;
    UnlinkNoClose(e, other, ClosedHere);
  }

  lemma HandleNoClose(e: Endpoint, f: Frame, id: uint32)
    requires Shape(e)
    ensures NoNewClose(e, Handle(e, f), id)
  {
    hide Unlink, WellFormed, Insert;
    UnlinkNoClose(e.(rd := e.rd + 1), f.id, ClosedByPeer);
  }

  lemma AppendNoClose(e: Endpoint, e': Endpoint, f: Frame, id: uint32)
    requires f.kind != STREAM_CLOSE && e'.threads[CloseSend(id)] == e.threads[CloseSend(id)]
    requires e'.log == e.log || e'.log == e.log + [f]
    ensures NoNewClose(e, e', id)
  {
    hide CloseCount;
    DataOfSnoc(e.log, f, id);
  }

  lemma SendCloseNoClose(e: Endpoint, other: uint32, ok: bool, id: uint32)
    requires CloseSend(other) in e.threads
    ensures var e' := Finish(e, CloseSend(other));
      NoNewClose(e, if ok then Send(e', Frame(STREAM_CLOSE, other, [])) else e', id)
  {
    hide CloseCount;
    DataOfSnoc(e.log, Frame(STREAM_CLOSE, other, []), id);
  }

  /** Steps that may put one frame into the log. */
  lemma SendNoClose(e: Endpoint, ev: Event, id: uint32)
    requires Shape(e) && Ready(e, ev)
    requires ev.SendOpen? || ev.WriteChunk? || ev.SendClose? || ev.Answer? || ev.SendPing?
    ensures NoNewClose(e, Next(e, ev), id)
  {
    hide WellFormed, NextChunk, CloseCount, NoNewClose, SendOpenFrame;
    if ev.SendOpen? {
      OpenNoClose(e, ev.i, ev.ok, id);
    } else if ev.SendClose? {
      SendCloseNoClose(e, ev.id, ev.ok, id);
    } else if ev.WriteChunk? {
      var f := Frame(DATA, e.core.objs[e.writeMu.i].id, NextChunk(e.writeMu));
      AppendNoClose(e, Next(e, ev), f, id);
    } else if ev.Answer? {
      AppendNoClose(e, Next(e, ev), Frame(PONG, 0, []), id);
    } else {
      AppendNoClose(e, Next(e, ev), Frame(PING, 0, []), id);
    }
  }

  lemma OpenNoClose(e: Endpoint, i: nat, ok: bool, id: uint32)
    requires Shape(e) && i < |e.hist| && OpenSend(i) in e.threads
    ensures NoNewClose(e, SendOpenFrame(e, i, ok), id)
  {
    hide WellFormed, NoNewClose;
    AppendNoClose(e, SendOpenFrame(e, i, ok), Frame(STREAM_OPEN, e.core.objs[i].id, e.core.objs[i].target), id);
  }

  /** Steps that leave the log alone and fork no StreamClose. */
  lemma QuietNoClose(e: Endpoint, ev: Event, id: uint32)
    requires Shape(e) && Ready(e, ev)
    requires ev.OpenStream? || ev.CallWrite? || ev.BeginWrite? || ev.EndWrite? || ev.CallClose? || ev.Accept?
          || ev.Read?
    ensures NoNewClose(e, Next(e, ev), id)
  {
    hide WellFormed, CloseCount, Register, AfterRead, ReadResult;
  }

  lemma LoopNoClose(e: Endpoint, ev: Event, id: uint32)
    requires Shape(e) && Ready(e, ev)
    requires ev.Offer? || ev.Deliver? || ev.Timeout? || ev.StopLoop? || ev.ShutStreams? || ev.ShutAccept?
          || ev.ShutConn? || ev.BreakWire?
    ensures NoNewClose(e, Next(e, ev), id)
  {
    hide WellFormed, CloseCount, RemoveAll, RemoveAllPanics;
  }

  lemma StepNoClose(e: Endpoint, ev: Event, id: uint32)
    requires Shape(e) && Ready(e, ev) && id !in e.core.streams
    ensures NoNewClose(e, Next(e, ev), id)
  {
    hide NoNewClose, CloseLocally, Handle, WellFormed, Unlink;
    if ev.Receive? {
      HandleNoClose(e, ev.frame, id);
    } else if ev.CloseStream? {
      FinishNoClose(e, ev.id, id);
    } else if ev.Reject? || ev.GiveUp? {
      IdleNoClose(e, e.core.objs[e.loop.i].id, id);
    } else if ev.SendOpen? || ev.WriteChunk? || ev.SendClose? || ev.Answer? || ev.SendPing? {
      SendNoClose(e, ev, id);
    } else if ev.Offer? || ev.Deliver? || ev.Timeout? || ev.StopLoop? || ev.ShutStreams? || ev.ShutAccept?
           || ev.ShutConn? || ev.BreakWire? {
      LoopNoClose(e, ev, id);
    } else {
      QuietNoClose(e, ev, id);
    }
  }

  lemma FinishNoClose(e: Endpoint, other: uint32, id: uint32)
    requires Shape(e) && id !in e.core.streams
    ensures NoNewClose(e, CloseLocally(Finish(e, Closing(other)), other), id)
  {
    hide CloseLocally;
    DropNoClose(Finish(e, Closing(other)), other, id);
  }

  lemma IdleNoClose(e: Endpoint, other: uint32, id: uint32)
    requires Shape(e) && id !in e.core.streams
    ensures NoNewClose(e, CloseLocally(e, other).(loop := Idle), id)
  {
    hide CloseLocally;
    DropNoClose(e, other, id);
  }

  /** Stream i has been removed. */
  ghost predicate Removed(e: Endpoint, i: nat) {
    i < |e.core.objs| == |e.hist| && !e.core.objs[i].chanOpen
  }

  /** After a stream has left its map, no StreamClose is sent on its ID beyond those that a closeStream had still
      to send at that time. */
  lemma {:induction false} NoMoreCloses(states: seq<System>, acts: seq<Action>, j: nat, k: nat, side: Side, i: nat)
    requires Run(states, acts) && j <= k < |states| && Removed(states[j].At(side), i)
    ensures var e, e' := states[j].At(side), states[k].At(side); NoNewClose(e, e', e.core.objs[i].id)
    decreases k
  {
    hide Next, Ready, Linked, NoNewClose, Local, Shape, Got;
    if j == k {
      NoCloseItself(states[j].At(side), states[j].At(side).core.objs[i].id);
    } else {
      NoMoreCloses(states, acts, j, k - 1, side, i);
      MuxFlow.RunInvariant(states, acts, k - 1);
      StaysRemoved(states, acts, j, k - 1, side, i);
      var act := acts[k - 1];
      assert Step(states[k - 1], act.side, act.ev, states[k]);
      var e, before, after := states[j].At(side), states[k - 1].At(side), states[k].At(side);
      var id := e.core.objs[i].id;
      if side == act.side {
        LocalShape(before);
        StepNoClose(before, act.ev, id);
      } else {
        assert after == before;
        NoCloseItself(before, id);
      }
      NoCloseTwice(e, before, after, id);
    }
  }

  lemma LocalShape(e: Endpoint)
    requires Local(e)
    ensures Shape(e)
  {
  }

  lemma NoCloseItself(e: Endpoint, id: uint32)
    ensures NoNewClose(e, e, id)
  {
  }

  lemma NoCloseTwice(a: Endpoint, b: Endpoint, c: Endpoint, id: uint32)
    requires NoNewClose(a, b, id) && NoNewClose(b, c, id)
    ensures NoNewClose(a, c, id)
  {
  }

  lemma StaysRemoved(states: seq<System>, acts: seq<Action>, j: nat, k: nat, side: Side, i: nat)
    requires Run(states, acts) && j <= k < |states| && Removed(states[j].At(side), i)
    ensures var e, e' := states[j].At(side), states[k].At(side);
      Removed(e', i) && e'.core.objs[i].id == e.core.objs[i].id && e.core.objs[i].id !in e'.core.streams
  {
    hide Run, Linked, Got, Buffered;
    MuxHistory.RunFollows(states, acts, j, k, side);
    var e, e' := states[j].At(side), states[k].At(side);
    assert MuxHistory.Follows(e.core.objs[i], e.hist[i], e'.core.objs[i], e'.hist[i]);
    MuxFlow.RunInvariant(states, acts, k);
    RemovedIsOut(e', i);
  }

  lemma RemovedIsOut(e: Endpoint, i: nat)
    requires Local(e) && Removed(e, i)
    ensures e.core.objs[i].id !in e.core.streams
  {
    hide Announced, Announcing, Written, Writers, ClosesOnce, Queued, Numbered, Fated;
  }

  /** So the count of StreamClose frames never rises again if none is pending. A pending one is sent as soon as its
      goroutine gets the write lock on a connection that is up. */
  lemma ClosesAfterRemoval(states: seq<System>, acts: seq<Action>, j: nat, k: nat, side: Side, i: nat)
    requires Run(states, acts) && j <= k < |states| && Removed(states[j].At(side), i)
    ensures var e, e' := states[j].At(side), states[k].At(side); var id := e.core.objs[i].id;
      && (CloseSend(id) !in e.threads ==> CloseCount(e'.log, id) == CloseCount(e.log, id))
      && (CloseSend(id) in e.threads && Shape(e) && e.panic == None && e.writeMu.Free? && e.connUp ==>
            Ready(e, SendClose(id, true)) &&
            CloseCount(Next(e, SendClose(id, true)).log, id) == CloseCount(e.log, id) + 1)
  {
    hide Run, CloseCount, WellFormed;
    NoMoreCloses(states, acts, j, k, side, i);
    var e := states[j].At(side);
    var id := e.core.objs[i].id;
    DataOfSnoc(e.log, Frame(STREAM_CLOSE, id, []), id);
  }
}
