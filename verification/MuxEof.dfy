/** When EOF means that everything was read: exactly, for every way in which a stream can end. */
module MuxEof {
  import opened Bytes
  import opened Frame
  import opened MuxCore
  import opened Mux
  import opened MuxInvariant
  import MuxFlow
  import MuxTheorems
  import MuxCloses

  // ---- The step that shuts a stream ----

  /** Stream i has got in e' what it had got in e. */
  ghost predicate SameGot(e: Endpoint, e': Endpoint, i: nat) {
    && i < |e.core.objs| == |e.hist| && i < |e'.core.objs| == |e'.hist|
    && e'.core.objs[i].id == e.core.objs[i].id
    && Got(e'.core.objs[i], e'.hist[i]) == Got(e.core.objs[i], e.hist[i])
  }

  ghost predicate StillOpen(e': Endpoint, i: nat) {
    i < |e'.core.objs| && e'.core.objs[i].chanOpen
  }

  lemma UnlinkSameGot(e: Endpoint, id: uint32, fate: Fate, i: nat)
    requires Shape(e) && i < |e.hist|
    ensures SameGot(e, Unlink(e, id, fate), i)
  {
  }

  lemma CloseSameGot(e: Endpoint, id: uint32, i: nat)
    requires Shape(e) && i < |e.hist|
    ensures SameGot(e, CloseLocally(Finish(e, Closing(id)), id), i)
    ensures SameGot(e, CloseLocally(e, id).(loop := Idle), i)
  {
    hide Unlink, Got, WellFormed;
    UnlinkSameGot(Finish(e, Closing(id)), id, ClosedHere, i);
    UnlinkSameGot(e, id, ClosedHere, i);
  }

  lemma HandleSameGot(e: Endpoint, f: Frame, i: nat)
    requires Shape(e) && i < |e.hist|
    ensures SameGot(e, Handle(e, f), i)
  {
    hide Unlink, Got, WellFormed;
    UnlinkSameGot(e.(rd := e.rd + 1), f.id, ClosedByPeer, i);
  }

  lemma ShutSameGot(e: Endpoint, i: nat)
    requires Shape(e) && i < |e.hist|
    ensures SameGot(e, CloseSession(e), i)
  {
    hide RemoveAllPanics, WellFormed;
  }

  /** Whatever shuts a stream leaves what it has got as it is. */
  lemma ShuttingKeepsGot(e: Endpoint, ev: Event, i: nat)
    requires Shape(e) && Ready(e, ev) && i < |e.hist| && e.core.objs[i].chanOpen
    ensures SameGot(e, Next(e, ev), i) || StillOpen(Next(e, ev), i)
  {
    hide SameGot, CloseLocally, Handle, CloseSession, Unlink, WellFormed;
    if ev.CloseStream? {
      CloseSameGot(e, ev.id, i);
    } else if ev.Reject? || ev.GiveUp? {
      CloseSameGot(e, e.core.objs[e.loop.i].id, i);
    } else if ev.Receive? {
      HandleSameGot(e, ev.frame, i);
    } else if ev.ShutStreams? {
      ShutSameGot(e, i);
    } else {
      OthersStayOpen(e, ev, i);
    }
  }

  lemma OthersStayOpen(e: Endpoint, ev: Event, i: nat)
    requires Shape(e) && Ready(e, ev) && i < |e.hist| && e.core.objs[i].chanOpen
    requires !ev.CloseStream? && !ev.Reject? && !ev.GiveUp? && !ev.Receive? && !ev.ShutStreams?
    ensures StillOpen(Next(e, ev), i)
  {
    hide Next, Ready, Shape, StillOpen;
    if ev.OpenStream? || ev.CallClose? || ev.Accept? {
      CallersStayOpen(e, ev, i);
    } else if ev.Read? || ev.Offer? || ev.Deliver? {
      MoversStayOpen(e, ev, i);
    } else {
      RestStaysOpen(e, ev, i);
    }
  }

  lemma ReadStaysOpen(e: Endpoint, r: nat, n: nat, i: nat)
    requires Shape(e) && r < |e.hist| && i < |e.hist| && e.core.objs[i].chanOpen
    ensures StillOpen(ReadStream(e, r, n), i)
  {
  }

  lemma DeliverStaysOpen(e: Endpoint, i: nat)
    requires Shape(e) && i < |e.hist| && e.core.objs[i].chanOpen
    ensures e.loop.Delivering? ==> StillOpen(DeliverChunk(e), i)
    ensures e.loop.Offering? ==> StillOpen(OfferStream(e), i)
  {
  }

  lemma MoversStayOpen(e: Endpoint, ev: Event, i: nat)
    requires Shape(e) && Ready(e, ev) && i < |e.hist| && e.core.objs[i].chanOpen
    requires ev.Read? || ev.Offer? || ev.Deliver?
    ensures StillOpen(Next(e, ev), i)
  {
    hide WellFormed, ReadStream, OfferStream, DeliverChunk, StillOpen, CloseLocally, Handle, CloseSession, AcceptNext;
    DeliverStaysOpen(e, i);
    if ev.Read? {
      ReadStaysOpen(e, ev.i, ev.n, i);
    }
  }

  lemma CallersStayOpen(e: Endpoint, ev: Event, i: nat)
    requires Shape(e) && Ready(e, ev) && i < |e.hist| && e.core.objs[i].chanOpen
    requires ev.OpenStream? || ev.CallClose? || ev.Accept?
    ensures StillOpen(Next(e, ev), i)
  {
    hide WellFormed, CloseLocally, Handle, CloseSession, ReadStream, WriteNextChunk, SendOpenFrame, OfferStream;
    hide DeliverChunk;
  }

  lemma RestStaysOpen(e: Endpoint, ev: Event, i: nat)
    requires Shape(e) && Ready(e, ev) && i < |e.hist| && e.core.objs[i].chanOpen
    requires ev.SendOpen? || ev.CallWrite? || ev.BeginWrite? || ev.WriteChunk? || ev.EndWrite? || ev.SendClose?
          || ev.Timeout? || ev.Answer? || ev.SendPing? || ev.StopLoop? || ev.ShutAccept? || ev.ShutConn?
          || ev.BreakWire?
    ensures StillOpen(Next(e, ev), i)
  {
    hide WellFormed, CloseLocally, Handle, CloseSession, ReadStream, AcceptNext, OfferStream, DeliverChunk, NextChunk;
  }

  // ---- The accounting ----

  /** Stream i of a side is shut by step j, for whatever reason. */
  ghost predicate ShutAt(states: seq<System>, acts: seq<Action>, j: nat, side: Side, i: nat) {
    && j < |acts| && |states| == |acts| + 1
    && var e, e' := states[j].At(side), states[j + 1].At(side);
    && i < |e.core.objs| && e.core.objs[i].chanOpen
    && i < |e'.core.objs| && !e'.core.objs[i].chanOpen
  }

  /** Of what the peer has written on the ID of Stream i by state k, what did not get into it: the chunk in readLoop's
      hand when it was shut by step j, and the data frames that were then not read yet. */
  ghost function Lost(states: seq<System>, j: nat, k: nat, side: Side, i: nat): Bytes
    requires j < |states| && k < |states| && i < |states[j].At(side).core.objs|
    requires states[j].At(side).rd <= |states[k].At(Peer(side)).log|
  {
    var e := states[j].At(side);
    InHand(e.loop, i) + DataOf(states[k].At(Peer(side)).log[e.rd..], e.core.objs[i].id)
  }

  lemma ShutStep(states: seq<System>, acts: seq<Action>, j: nat, side: Side, i: nat)
    requires Run(states, acts) && ShutAt(states, acts, j, side, i)
    ensures var e, e' := states[j].At(side), states[j + 1].At(side); acts[j].side == side && SameGot(e, e', i)
    ensures Local(states[j].At(side)) && Linked(states[j].At(side), states[j].At(Peer(side)).log)
  {
    hide Linked, Owned, Announced, Announcing, Written, Writers, ClosesOnce, Queued, Numbered, Fated, Lifecycle;
    hide Next, Ready, SameGot;
    MuxFlow.RunInvariant(states, acts, j);
    assert Step(states[j], acts[j].side, acts[j].ev, states[j + 1]);
    MuxCloses.OtherSide(states[j], acts[j].side, acts[j].ev, states[j + 1]);
    if acts[j].side == side {
      ShuttingKeepsGot(states[j].At(side), acts[j].ev, i);
    }
  }

  lemma OpenFlows(e: Endpoint, peerLog: seq<Frame>, i: nat)
    requires Local(e) && Linked(e, peerLog) && i < |e.core.objs| && e.core.objs[i].chanOpen
    ensures |e.hist| == |e.core.objs| && e.rd <= |peerLog|
    ensures Got(e.core.objs[i], e.hist[i]) + InHand(e.loop, i) == DataOf(peerLog[..e.rd], e.core.objs[i].id)
  {
    hide Announced, Announcing, Written, Writers, ClosesOnce, Queued, Numbered, Fated, Arriving, Created, Got;
    assert FlowingAt(e.core.objs[i], e.hist[i], InHand(e.loop, i), peerLog[..e.rd]);
  }

  /** Once a stream is shut, what it has got, and with it what Read ever returns on it, is at all times what the peer
      has written on its ID but for what was lost. */
  lemma ShutAccounts(states: seq<System>, acts: seq<Action>, j: nat, k: nat, side: Side, i: nat)
    requires Run(states, acts) && ShutAt(states, acts, j, side, i) && j < k < |states|
    ensures var e, e', peer := states[j].At(side), states[k].At(side), states[k].At(Peer(side));
      && i < |e'.core.objs| == |e'.hist| && e.rd <= |peer.log| && e'.core.objs[i].id == e.core.objs[i].id
      && Got(e'.core.objs[i], e'.hist[i]) + Lost(states, j, k, side, i) == MuxTheorems.Sent(peer, e.core.objs[i].id)
  {
    hide Run, ShutAt, Linked, Local, Got, Buffered, MuxTheorems.Sent, DataOf, InHand, Step;
    var e, before, later := states[j].At(side), states[j].At(Peer(side)).log, states[k].At(Peer(side)).log;
    ShutFacts(states, acts, j, side, i);
    ShutStep(states, acts, j, side, i);
    OpenFlows(e, before, i);
    MuxCloses.StaysRemoved(states, acts, j + 1, k, side, i);
    MuxCloses.GotForEver(states, acts, j + 1, k, side, i);
    MuxCloses.RunGrows(states, acts, j, k, Peer(side));
    MuxFlow.RunInvariant(states, acts, k);
    var id := e.core.objs[i].id;
    MuxTheorems.SentIsLogged(states[k].At(Peer(side)), id);
    assert before[..e.rd] == later[..e.rd] && later[..e.rd] + later[e.rd..] == later;
    DataOfAppend(later[..e.rd], later[e.rd..], id);
    var got := Got(e.core.objs[i], e.hist[i]);
    assert got + (InHand(e.loop, i) + DataOf(later[e.rd..], id)) == got + InHand(e.loop, i) + DataOf(later[e.rd..], id);
  }

  lemma ShutFacts(states: seq<System>, acts: seq<Action>, j: nat, side: Side, i: nat)
    requires Run(states, acts) && ShutAt(states, acts, j, side, i)
    ensures j + 1 < |states| && i < |states[j].At(side).core.objs| && states[j].At(side).core.objs[i].chanOpen
    ensures i < |states[j + 1].At(side).core.objs| == |states[j + 1].At(side).hist|
    ensures MuxCloses.Removed(states[j + 1].At(side), i)
  {
    hide Run, Linked, Owned, Announced, Announcing, Written, Writers, ClosesOnce, Queued, Numbered, Fated, Lifecycle;
    MuxFlow.RunInvariant(states, acts, j + 1);
  }

  /** EOF means that everything the peer has written so far was read, if and only if readLoop held no chunk for the
      stream when it was shut, and all the peer's data frames for it had been read off the wire by then. */
  lemma EofIsCompleteIff(states: seq<System>, acts: seq<Action>, j: nat, k: nat, side: Side, i: nat, n: nat)
    requires Run(states, acts) && ShutAt(states, acts, j, side, i) && j < k < |states|
    requires i < |states[k].At(side).core.objs| && ReadResult(states[k].At(side).core.objs[i], n) == Eof
    ensures var e, e', peer := states[j].At(side), states[k].At(side), states[k].At(Peer(side));
      var id := e.core.objs[i].id;
      && i < |e'.hist| && e.rd <= |peer.log|
      && (e'.hist[i].consumed == MuxTheorems.Sent(peer, id) <==>
            InHand(e.loop, i) == [] && DataOf(peer.log[e.rd..], id) == [])
  {
    hide Run, ShutAt, MuxTheorems.Sent, DataOf, InHand;
    ShutAccounts(states, acts, j, k, side, i);
    ShutFacts(states, acts, j, side, i);
    var s, h := states[k].At(side).core.objs[i], states[k].At(side).hist[i];
    ReadTakesFront(s, n);
    assert h.consumed + [] == h.consumed;
    NothingLost(h.consumed, Lost(states, j, k, side, i));
  }

  lemma NothingLost(a: Bytes, lost: Bytes)
    ensures a == a + lost <==> lost == []
  {
    assert |a + lost| == |a| + |lost|;
  }

  /** After a close by the peer that is what the peer wrote on the ID after its StreamClose: a Write that was under way
      when its user closed the stream, or one after the peer's own readLoop had dropped it. */
  lemma LostAfterPeerClose(states: seq<System>, acts: seq<Action>, j: nat, k: nat, side: Side, i: nat)
    requires Run(states, acts) && ShutAt(states, acts, j, side, i) && j < k < |states| && acts[j].ev.Receive?
    ensures var e, later := states[j].At(side), states[k].At(Peer(side)).log;
      && e.rd < |later| && later[e.rd].kind == STREAM_CLOSE
      && Lost(states, j, k, side, i) == DataOf(later[e.rd + 1..], e.core.objs[i].id)
  {
    hide Run, ShutAt, Linked, Local, Got, Buffered, MuxTheorems.Sent, DataOf, Step;
    var e, before, later := states[j].At(side), states[j].At(Peer(side)).log, states[k].At(Peer(side)).log;
    ShutFacts(states, acts, j, side, i);
    ShutAccounts(states, acts, j, k, side, i);
    MuxCloses.RunGrows(states, acts, j, k, Peer(side));
    ReceivedClose(states, acts, j, side, i);
    var id := e.core.objs[i].id;
    assert later[e.rd] == before[e.rd];
    assert later[e.rd..] == [later[e.rd]] + later[e.rd + 1..];
    DataOfAppend([later[e.rd]], later[e.rd + 1..], id);
    NoDataIn([later[e.rd]], id);
    assert [] + DataOf(later[e.rd + 1..], id) == DataOf(later[e.rd + 1..], id);
  }

  lemma ReceivedClose(states: seq<System>, acts: seq<Action>, j: nat, side: Side, i: nat)
    requires Run(states, acts) && ShutAt(states, acts, j, side, i) && acts[j].ev.Receive?
    ensures var e, log := states[j].At(side), states[j].At(Peer(side)).log;
      e.rd < |log| && log[e.rd].kind == STREAM_CLOSE && e.loop == Idle
  {
    hide Handle, Ready, Shape, Local, Linked, SameGot;
    ShutStep(states, acts, j, side, i);
    var e, ev := states[j].At(side), acts[j].ev;
    assert Step(states[j], side, ev, states[j + 1]);
    assert states[j + 1].At(side) == Handle(e, ev.frame);
    MuxCloses.ReceivesIdle(e, ev);
    OnlyCloseShuts(e, ev.frame, i);
  }

  lemma OnlyCloseShuts(e: Endpoint, f: Frame, i: nat)
    requires Shape(e) && i < |e.core.objs| && e.core.objs[i].chanOpen
    ensures f.kind == STREAM_CLOSE || StillOpen(Handle(e, f), i)
  {
  }

  // ---- Every EOF has such a step ----

  /** No stream that enters a table is shut. */
  lemma NewIsOpen(e: Endpoint, ev: Event, i: nat)
    requires Shape(e) && Ready(e, ev)
    ensures |e.core.objs| <= i < |Next(e, ev).core.objs| ==> StillOpen(Next(e, ev), i)
  {
    hide Handle, CloseLocally, CloseSession, ReadStream, AcceptNext, OfferStream, DeliverChunk, SendOpenFrame,
         WriteNextChunk, WellFormed;
    if ev.Receive? {
      HandleNew(e, ev.frame, i);
    } else if ev.CloseStream? {
      CloseSize(Finish(e, Closing(ev.id)), ev.id);
    } else if ev.Reject? || ev.GiveUp? {
      CloseSize(e, e.core.objs[e.loop.i].id);
    } else {
      OtherSize(e, ev);
    }
  }

  lemma HandleNew(e: Endpoint, f: Frame, i: nat)
    requires Shape(e)
    ensures |e.core.objs| <= i < |Handle(e, f).core.objs| ==> StillOpen(Handle(e, f), i)
  {
  }

  lemma CloseSize(e: Endpoint, id: uint32)
    requires Shape(e)
    ensures |CloseLocally(e, id).core.objs| == |e.core.objs|
  {
  }

  lemma OtherSize(e: Endpoint, ev: Event)
    requires Shape(e) && Ready(e, ev)
    requires !ev.Receive? && !ev.CloseStream? && !ev.Reject? && !ev.GiveUp?
    ensures ev.OpenStream? ==> Next(e, ev).core.objs == e.core.objs + [NewStream(NextID(e.core), ev.target)]
    ensures !ev.OpenStream? ==> |Next(e, ev).core.objs| == |e.core.objs|
  {
    hide CloseLocally, Handle, ReadStream, CloseSession, DeliverChunk, WriteNextChunk, SendOpenFrame, OfferStream;
    if ev.Read? {
      ReadSize(e, ev.i, ev.n);
    } else if ev.ShutStreams? {
      ShutSize(e);
    } else if ev.Deliver? || ev.WriteChunk? || ev.SendOpen? || ev.Offer? {
      MoverSize(e, ev);
    }
  }

  lemma ReadSize(e: Endpoint, i: nat, n: nat)
    requires Shape(e) && i < |e.hist|
    ensures |ReadStream(e, i, n).core.objs| == |e.core.objs|
  {
  }

  lemma ShutSize(e: Endpoint)
    requires Shape(e)
    ensures |CloseSession(e).core.objs| == |e.core.objs|
  {
  }

  lemma MoverSize(e: Endpoint, ev: Event)
    requires Shape(e) && Ready(e, ev) && (ev.Deliver? || ev.WriteChunk? || ev.SendOpen? || ev.Offer?)
    ensures |Next(e, ev).core.objs| == |e.core.objs|
  {
    hide CloseLocally, Handle, ReadStream, CloseSession, NextChunk, AcceptNext;
  }

  /** A stream that is shut was shut by a step of the run. */
  lemma {:induction false} ShutSometime(states: seq<System>, acts: seq<Action>, k: nat, side: Side, i: nat)
    returns (j: nat)
    requires Run(states, acts) && k < |states|
    requires i < |states[k].At(side).core.objs| && !states[k].At(side).core.objs[i].chanOpen
    ensures j < k && ShutAt(states, acts, j, side, i)
  {
    hide Next, Ready, Shape, NewEndpoint;
    if k == 0 {
      StartsEmpty();
    }
    var e, e', a := states[k - 1].At(side), states[k].At(side), acts[k - 1];
    assert Step(states[k - 1], a.side, a.ev, states[k]);
    if a.side == side {
      NewIsOpen(e, a.ev, i);
    } else {
      MuxCloses.OtherSide(states[k - 1], a.side, a.ev, states[k]);
    }
    if e.core.objs[i].chanOpen {
      j := k - 1;
    } else {
      j := ShutSometime(states, acts, k - 1, side, i);
    }
  }

  lemma StartsEmpty()
    ensures forall side: Side :: NewSystem().At(side).core.objs == []
  {
  }

  /** So the account is complete: whenever Read says EOF, a step of the run has shut the stream, and the bytes returned
      are what the peer has written up to then but for what was lost at that step. */
  lemma EofAccounts(states: seq<System>, acts: seq<Action>, k: nat, side: Side, i: nat, n: nat) returns (j: nat)
    requires Run(states, acts) && k < |states|
    requires i < |states[k].At(side).core.objs| && ReadResult(states[k].At(side).core.objs[i], n) == Eof
    ensures j < k && ShutAt(states, acts, j, side, i)
    ensures var e', peer := states[k].At(side), states[k].At(Peer(side));
      && i < |e'.hist| && states[j].At(side).rd <= |peer.log|
      && e'.hist[i].consumed + Lost(states, j, k, side, i) == MuxTheorems.Sent(peer, e'.core.objs[i].id)
  {
    hide Run, ShutAt, MuxTheorems.Sent, DataOf, InHand;
    j := ShutSometime(states, acts, k, side, i);
    ShutAccounts(states, acts, j, k, side, i);
    ShutFacts(states, acts, j, side, i);
    ReadTakesFront(states[k].At(side).core.objs[i], n);
    var h := states[k].At(side).hist[i];
    assert h.consumed + [] == h.consumed;
  }
}
