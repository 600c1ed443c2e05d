/** What every run of two joined sessions promises to their users. */
module MuxTheorems {
  import opened Bytes
  import opened Wrappers
  import opened Frame
  import opened MuxCore
  import opened Mux
  import opened MuxInvariant
  import Chunks
  import MuxLink
  import opened MuxFlow
  import MuxHistory

  /** The bytes that Write calls have put on the wire for id. */
  function Sent(e: Endpoint, id: uint32): Bytes {
    if id in e.owner && e.owner[id] < |e.hist| then e.hist[e.owner[id]].written else []
  }

  /** The bytes that Read calls have returned on id. */
  function Returned(e: Endpoint, id: uint32): Bytes {
    if id in e.owner && e.owner[id] < |e.hist| then e.hist[e.owner[id]].consumed else []
  }

  lemma SentIsLogged(e: Endpoint, id: uint32)
    requires Local(e)
    ensures Sent(e, id) == DataOf(e.log, id)
  {
    hide Announced, Announcing, Writers, ClosesOnce, Queued, Numbered, Lifecycle, Fated;
    if id in e.owner {
      assert e.core.objs[e.owner[id]].id == id;
    } else {
      NoDataIn(e.log, id);
    }
  }

  /** Stream i has got a prefix of what the peer wrote on its ID, and all of it but what is in flight while it
      is in the map. */
  lemma Conservation(e: Endpoint, peer: Endpoint, i: nat)
    requires Local(e) && Local(peer) && Linked(e, peer.log) && i < |e.hist|
    ensures e.rd <= |peer.log|
    ensures var s, h := e.core.objs[i], e.hist[i]; var sent := Sent(peer, s.id);
      && h.consumed <= sent
      && h.consumed + Buffered(s) <= sent
      && (s.id in e.core.streams && e.core.streams[s.id] == i ==>
            h.consumed + s.readBuf + Concat(s.chan) + InHand(e.loop, i) + DataOf(peer.log[e.rd..], s.id) == sent)
  {
    hide Announced, Announcing, Writers, ClosesOnce, Queued, Numbered, Fated, Arriving, Created, Owned, Written;
    hide Concat, DataOf, Sent;
    var s, h := e.core.objs[i], e.hist[i];
    var read, ahead := peer.log[..e.rd], peer.log[e.rd..];
    SentIsLogged(peer, s.id);
    assert peer.log == read + ahead;
    DataOfAppend(read, ahead, s.id);
    assert FlowingAt(s, h, InHand(e.loop, i), read);
    assert h.consumed + (s.readBuf + Concat(s.chan)) == h.consumed + s.readBuf + Concat(s.chan);
  }

  /** In every state of every run, the bytes Read has returned on a Stream are a prefix, without gap,
      duplicate or byte of another stream, of the bytes the peer's Write calls framed on its ID; while the
      Stream is in the map nothing is lost, and what is not yet returned is buffered, in readLoop's hand or in
      flight. */
  lemma EndToEnd(states: seq<System>, acts: seq<Action>, k: nat, side: Side, i: nat)
    requires Run(states, acts) && k < |states| && i < |states[k].At(side).core.objs|
    ensures var e, peer := states[k].At(side), states[k].At(Peer(side));
      && Shape(e) && e.rd <= |peer.log|
      && var s, h := e.core.objs[i], e.hist[i];
      && h.consumed <= Sent(peer, s.id)
      && (s.id in e.core.streams ==>
            var pending := s.readBuf + Concat(s.chan) + InHand(e.loop, i) + DataOf(peer.log[e.rd..], s.id);
            h.consumed + pending == Sent(peer, s.id))
  {
    hide Run, Linked, Announced, Announcing, Written, Writers, ClosesOnce, Queued, Numbered, Fated;
    RunInvariant(states, acts, k);
    Conservation(states[k].At(side), states[k].At(Peer(side)), i);
  }

  /** Once everything written has been read off the wire, delivered and read, it has all been returned. */
  lemma DrainedMeansDelivered(states: seq<System>, acts: seq<Action>, k: nat, side: Side, i: nat)
    requires Run(states, acts) && k < |states| && i < |states[k].At(side).core.objs|
    requires var e, peer := states[k].At(side), states[k].At(Peer(side));
      && e.rd == |peer.log| && AtRest(e.loop) && Buffered(e.core.objs[i]) == [] && e.core.objs[i].id in e.core.streams
    ensures var e, peer := states[k].At(side), states[k].At(Peer(side));
      |e.hist| == |e.core.objs| && e.hist[i].consumed == Sent(peer, e.core.objs[i].id)
  {
    hide Run;
    EndToEnd(states, acts, k, side, i);
    var e, peer := states[k].At(side), states[k].At(Peer(side));
    assert peer.log[e.rd..] == [];
    var s := e.core.objs[i];
    assert s.readBuf == [] && Concat(s.chan) == [];
  }

  /** So once everything written has been read off the wire and delivered, further reads return the rest of it. */
  lemma ReadsDeliver(states: seq<System>, acts: seq<Action>, k: nat, side: Side, i: nat, sizes: seq<nat>)
    requires Run(states, acts) && k < |states| && i < |states[k].At(side).core.objs|
    requires var e, peer := states[k].At(side), states[k].At(Peer(side));
      e.rd == |peer.log| && AtRest(e.loop) && e.core.objs[i].id in e.core.streams
    requires forall j :: 0 <= j < |sizes| ==> sizes[j] > 0
    requires var s := states[k].At(side).core.objs[i]; |sizes| >= |Buffered(s)| + |s.chan|
    ensures var e, peer := states[k].At(side), states[k].At(Peer(side));
      && i < |e.hist|
      && e.hist[i].consumed + Chunks.ReadMany(e.core.objs[i], sizes).0 == Sent(peer, e.core.objs[i].id)
  {
    hide Run, Chunks.ReadMany;
    EndToEnd(states, acts, k, side, i);
    var e, peer := states[k].At(side), states[k].At(Peer(side));
    assert peer.log[e.rd..] == [];
    var s := e.core.objs[i];
    Chunks.ReadsDrain(s, sizes);
    assert s.readBuf + Concat(s.chan) + [] + [] == Buffered(s);
  }

  /** A Stream is in its session's map iff its channel is open, so no path closes a channel twice; and no two
      Streams of a session ever had the same ID. */
  lemma ChannelLifecycle(states: seq<System>, acts: seq<Action>, k: nat, side: Side)
    requires Run(states, acts) && k < |states|
    ensures var e := states[k].At(side); var objs := e.core.objs;
      && (forall i :: 0 <= i < |objs| ==>
            (objs[i].chanOpen <==> objs[i].id in e.core.streams && e.core.streams[objs[i].id] == i))
      && (forall i, j :: 0 <= i < j < |objs| ==> objs[i].id != objs[j].id)
      && e.panic != Some(CloseOfClosed)
  {
    hide Run, Linked, Announced, Announcing, Written, Writers, ClosesOnce, Queued, Numbered, Fated;
    RunInvariant(states, acts, k);
    var e := states[k].At(side);
    forall i, j | 0 <= i < j < |e.core.objs| ensures e.core.objs[i].id != e.core.objs[j].id {
      assert e.owner[e.core.objs[i].id] != e.owner[e.core.objs[j].id];
    }
  }

  /** A StreamOpen frame is always for an ID that no Stream of the receiver ever had, so it never overwrites
      a live stream; the server's IDs are odd and the client's even. */
  lemma OpenNeverOverwrites(states: seq<System>, acts: seq<Action>, k: nat)
    requires Run(states, acts) && k < |acts| && acts[k].ev.Receive? && acts[k].ev.frame.kind == STREAM_OPEN
    ensures var e, id := states[k].At(acts[k].side), acts[k].ev.frame.id;
      && id !in e.core.streams
      && (forall i :: 0 <= i < |e.core.objs| ==> e.core.objs[i].id != id)
      && id % 2 == (if acts[k].side == AtServer then 0 else 1)
  {
    hide Linked, Announced, Announcing, Written, Writers, ClosesOnce, Queued, Numbered, Fated;
    RunInvariant(states, acts, k);
    assert Step(states[k], acts[k].side, acts[k].ev, states[k + 1]);
    var e := states[k].At(acts[k].side);
    CanReceive(e, acts[k].ev, states[k].At(Peer(acts[k].side)).log);
    MuxLink.AnnouncedIsFresh(e, states[k].At(Peer(acts[k].side)));
    forall i | 0 <= i < |e.core.objs| ensures e.core.objs[i].id != acts[k].ev.frame.id {
      assert e.core.objs[i].id in e.owner;
    }
  }

  lemma CanReceive(e: Endpoint, ev: Event, peerLog: seq<Frame>)
    requires Enabled(e, ev, peerLog) && ev.Receive?
    ensures e.rd < |peerLog| && ev.frame == peerLog[e.rd]
  {
  }

  /** What happens after a Stream was removed, by a drop, by either side's close or with the session, is
      final: it never returns to the map, gets no further byte, and Read returns at most what it had got. */
  lemma ClosedIsFinal(states: seq<System>, acts: seq<Action>, j: nat, k: nat, side: Side, i: nat)
    requires Run(states, acts) && j <= k < |states|
    requires var e := states[j].At(side); i < |e.core.objs| && !e.core.objs[i].chanOpen
    ensures var e, e' := states[j].At(side), states[k].At(side);
      && |e.hist| == |e.core.objs| <= |e'.core.objs| == |e'.hist|
      && e'.core.objs[i].id == e.core.objs[i].id && e'.core.objs[i].id !in e'.core.streams
      && Got(e'.core.objs[i], e'.hist[i]) == Got(e.core.objs[i], e.hist[i])
      && e.hist[i].consumed <= e'.hist[i].consumed <= Got(e.core.objs[i], e.hist[i])
  {
    hide Run, Linked, Announced, Announcing, Written, Writers, ClosesOnce, Queued, Numbered, Fated;
    RunInvariant(states, acts, k);
    MuxHistory.RunFollows(states, acts, j, k, side);
    var e, e' := states[j].At(side), states[k].At(side);
    assert MuxHistory.Follows(e.core.objs[i], e.hist[i], e'.core.objs[i], e'.hist[i]);
  }

  /** After Read has returned EOF, nothing more is ever returned on the Stream. */
  lemma EofIsFinal(states: seq<System>, acts: seq<Action>, j: nat, k: nat, side: Side, i: nat, n: nat)
    requires Run(states, acts) && j <= k < |states|
    requires var e := states[j].At(side); i < |e.core.objs| && ReadResult(e.core.objs[i], n) == Eof
    ensures var e, e' := states[j].At(side), states[k].At(side);
      |e.hist| == |e.core.objs| <= |e'.hist| && e'.hist[i].consumed == e.hist[i].consumed
  {
    hide Run;
    ReadTakesFront(states[j].At(side).core.objs[i], n);
    ClosedIsFinal(states, acts, j, k, side, i);
  }

  /** Each endpoint sends at most one StreamClose per ID. */
  lemma AtMostOneClose(states: seq<System>, acts: seq<Action>, k: nat, side: Side, id: uint32)
    requires Run(states, acts) && k < |states|
    ensures CloseCount(states[k].At(side).log, id) <= 1
  {
    hide Run, Linked, Announced, Announcing, Written, Writers, Queued, Numbered, Fated, Owned, Lifecycle;
    RunInvariant(states, acts, k);
    var e := states[k].At(side);
    assert CloseCount(e.log, id) + e.threads[CloseSend(id)] <= ClosesAllowed(e.hist, e.owner, id);
  }

  lemma ClosedByPeerNow(e: Endpoint, id: uint32)
    requires Local(e) && id in e.core.streams
    ensures var e' := Handle(e, Frame(STREAM_CLOSE, id, []));
      && |e'.hist| == |e.hist| == |e'.core.objs|
      && id in e.owner && e.owner[id] < |e.hist|
      && e'.core.objs[e.owner[id]].id == id && !e'.core.objs[e.owner[id]].chanOpen
      && e'.hist[e.owner[id]].fate == ClosedByPeer
  {
    hide Announced, Announcing, Written, Writers, ClosesOnce, Queued, Numbered;
  }

  lemma SameFrameEffect(e: Endpoint, f: Frame)
    requires Shape(e) && f.kind == STREAM_CLOSE
    ensures Handle(e, f) == Handle(e, Frame(STREAM_CLOSE, f.id, []))
  {
  }

  /** An endpoint that processed the peer's StreamClose for a stream in its map never sends one for it. */
  lemma NoCloseAfterPeerClose(states: seq<System>, acts: seq<Action>, j: nat, k: nat)
    requires Run(states, acts) && j < k < |states|
    requires acts[j].ev.Receive? && acts[j].ev.frame.kind == STREAM_CLOSE
    requires acts[j].ev.frame.id in states[j].At(acts[j].side).core.streams
    ensures CloseCount(states[k].At(acts[j].side).log, acts[j].ev.frame.id) == 0
  {
    hide Linked, Announced, Announcing, Written, Writers, Queued, Numbered, Fated, Lifecycle, Handle;
    var side, f := acts[j].side, acts[j].ev.frame;
    var e, e', last := states[j].At(side), states[j + 1].At(side), states[k].At(side);
    RunInvariant(states, acts, j);
    assert Step(states[j], side, acts[j].ev, states[j + 1]);
    assert e' == Handle(e, f);
    SameFrameEffect(e, f);
    ClosedByPeerNow(e, f.id);
    MuxHistory.RunFollows(states, acts, j + 1, k, side);
    RunInvariant(states, acts, k);
    var i := e.owner[f.id];
    assert MuxHistory.Follows(e'.core.objs[i], e'.hist[i], last.core.objs[i], last.hist[i]);
    assert last.owner[f.id] == i;
    assert CloseCount(last.log, f.id) + last.threads[CloseSend(f.id)] <= ClosesAllowed(last.hist, last.owner, f.id);
  }

  /** AcceptStream returns the peer's streams in the order in which the peer announced them, each once and
      with its target; a stream that was announced and read is in that queue, or was removed from the map. */
  lemma AcceptOrder(states: seq<System>, acts: seq<Action>, k: nat, side: Side)
    requires Run(states, acts) && k < |states|
    ensures var e, peer := states[k].At(side), states[k].At(Peer(side));
      && |e.hist| == |e.core.objs| && e.rd <= |peer.log|
      && (forall a :: 0 <= a < |e.accepted| ==>
            && e.accepted[a] < |e.hist| && e.hist[e.accepted[a]].origin.Arrived?
            && e.hist[e.accepted[a]].origin.at < e.rd
            && peer.log[e.hist[e.accepted[a]].origin.at] ==
                 Frame(STREAM_OPEN, e.core.objs[e.accepted[a]].id, e.core.objs[e.accepted[a]].target))
      && (forall a, b :: 0 <= a < b < |e.accepted| ==>
            e.hist[e.accepted[a]].origin.at < e.hist[e.accepted[b]].origin.at)
      && (forall p :: 0 <= p < e.rd && peer.log[p].kind == STREAM_OPEN ==>
            && peer.log[p].id in e.owner && e.owner[peer.log[p].id] < |e.hist|
            && e.hist[e.owner[peer.log[p].id]].origin == Arrived(p)
            && (e.owner[peer.log[p].id] in Queue(e) || e.loop == Rejecting(e.owner[peer.log[p].id]) ||
                peer.log[p].id !in e.core.streams))
  {
    hide Run, Announcing, Written, Writers, ClosesOnce, Flowing;
    RunInvariant(states, acts, k);
    var e, peer := states[k].At(side), states[k].At(Peer(side));
    AcceptedInOrder(e, peer.log[..e.rd]);
    forall p | 0 <= p < e.rd && peer.log[p].kind == STREAM_OPEN
      ensures peer.log[p].id in e.owner && e.owner[peer.log[p].id] < |e.hist|
      ensures e.hist[e.owner[peer.log[p].id]].origin == Arrived(p)
    {
      OpenCreatedOne(e, peer, p);
    }
  }

  lemma AcceptedInOrder(e: Endpoint, read: seq<Frame>)
    requires |e.hist| == |e.core.objs| && Queued(Queue(e), e.loop, e.hist) && Arriving(e.core.objs, e.hist, read)
    ensures forall a :: 0 <= a < |e.accepted| ==>
      && e.accepted[a] < |e.hist| && e.hist[e.accepted[a]].origin.Arrived?
      && e.hist[e.accepted[a]].origin.at < |read|
      && read[e.hist[e.accepted[a]].origin.at] ==
           Frame(STREAM_OPEN, e.core.objs[e.accepted[a]].id, e.core.objs[e.accepted[a]].target)
    ensures forall a, b :: 0 <= a < b < |e.accepted| ==>
      e.hist[e.accepted[a]].origin.at < e.hist[e.accepted[b]].origin.at
  {
    assert forall a :: 0 <= a < |e.accepted| ==> Queue(e)[a] == e.accepted[a];
  }

  lemma OpenCreatedOne(e: Endpoint, peer: Endpoint, p: nat)
    requires Local(e) && Local(peer) && e.isServer != peer.isServer && Linked(e, peer.log)
    requires p < e.rd && peer.log[p].kind == STREAM_OPEN
    ensures var id := peer.log[p].id;
      id in e.owner && e.owner[id] < |e.hist| && e.hist[e.owner[id]].origin == Arrived(p)
  {
    hide Announcing, Written, Writers, ClosesOnce, Flowing, Queued, Lifecycle, Fated;
    var id := peer.log[p].id;
    assert peer.log[..e.rd][p] == peer.log[p];
    var i, j := e.owner[id], peer.owner[id];
    assert peer.hist[j].origin.sentAt == p;
    match e.hist[i].origin
    case Opened(order, _) => IdsDistinct(e.isServer, order, peer.hist[j].origin.order);
    case Arrived(at) => assert peer.log[..e.rd][at] == peer.log[at];
  }
}
