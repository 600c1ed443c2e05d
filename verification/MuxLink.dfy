/** Every step of an endpoint keeps what Linked says of it and the frames its peer wrote. */
module MuxLink {
  import opened Bytes
  import opened Frame
  import opened MuxCore
  import opened Mux
  import opened MuxInvariant

  /** No Stream changes its identity or loses or gains bytes; none is reopened. */
  lemma FlowKept(objs: seq<Stream>, hist: seq<History>, objs': seq<Stream>, hist': seq<History>, loop: Loop,
                 read: seq<Frame>)
    requires Flowing(objs, hist, loop, read) && Arriving(objs, hist, read)
    requires |objs'| == |hist'| == |objs|
    requires forall i :: 0 <= i < |objs| ==>
      && objs'[i].id == objs[i].id && objs'[i].target == objs[i].target
      && (hist'[i].origin == hist[i].origin || (hist'[i].origin.Opened? && hist[i].origin.Opened?))
      && (objs'[i].chanOpen ==> objs[i].chanOpen)
      && Got(objs'[i], hist'[i]) == Got(objs[i], hist[i])
    ensures Flowing(objs', hist', loop, read) && Arriving(objs', hist', read)
  {
  }

  lemma FlowLoop(objs: seq<Stream>, hist: seq<History>, loop: Loop, loop': Loop, read: seq<Frame>)
    requires Flowing(objs, hist, loop, read)
    requires forall i :: 0 <= i < |objs| && objs[i].chanOpen ==> InHand(loop', i) == InHand(loop, i)
    ensures Flowing(objs, hist, loop', read)
  {
  }

  lemma PushedAt(s: Stream, h: History, chunk: Bytes, read: seq<Frame>)
    requires FlowingAt(s, h, chunk, read) && s.chanOpen
    ensures FlowingAt(Push(s, chunk), h, [], read)
  {
    PushAppends(s, chunk);
    assert h.consumed + (Buffered(s) + chunk) == Got(s, h) + chunk;
    assert DataOf(read, s.id) + [] == DataOf(read, s.id);
  }

  lemma FlowDelivered(objs: seq<Stream>, hist: seq<History>, i: nat, chunk: Bytes, read: seq<Frame>)
    requires Flowing(objs, hist, Delivering(i, chunk), read) && Arriving(objs, hist, read)
    requires i < |objs| && objs[i].chanOpen
    ensures Flowing(objs[i := Push(objs[i], chunk)], hist, Idle, read)
    ensures Arriving(objs[i := Push(objs[i], chunk)], hist, read)
  {
    assert FlowingAt(objs[i], hist[i], InHand(Delivering(i, chunk), i), read);
    PushedAt(objs[i], hist[i], chunk, read);
    forall j | 0 <= j < |objs| && j != i ensures FlowingAt(objs[j], hist[j], InHand(Idle, j), read) {
      assert FlowingAt(objs[j], hist[j], InHand(Delivering(i, chunk), j), read);
    }
  }

  lemma FlowRead(objs: seq<Stream>, hist: seq<History>, i: nat, n: nat, loop: Loop, read: seq<Frame>)
    requires Flowing(objs, hist, loop, read) && Arriving(objs, hist, read) && i < |objs|
    ensures var objs' := objs[i := AfterRead(objs[i], n)];
      match ReadResult(objs[i], n)
      case Data(b) =>
        var hist' := hist[i := hist[i].(consumed := hist[i].consumed + b)];
        Flowing(objs', hist', loop, read) && Arriving(objs', hist', read)
      case _ => Flowing(objs', hist, loop, read) && Arriving(objs', hist, read)
  {
    ReadTakesFront(objs[i], n);
    var objs' := objs[i := AfterRead(objs[i], n)];
    match ReadResult(objs[i], n)
    case Data(b) =>
      var hist' := hist[i := hist[i].(consumed := hist[i].consumed + b)];
      assert hist[i].consumed + (b + Buffered(objs'[i])) == (hist[i].consumed + b) + Buffered(objs'[i]);
      FlowKept(objs, hist, objs', hist', loop, read);
    case _ =>
      FlowKept(objs, hist, objs', hist, loop, read);
  }

  /** One more frame is read; if it carries data for a Stream in the map, readLoop has it in hand. */
  lemma FlowReceived(objs: seq<Stream>, hist: seq<History>, loop': Loop, read: seq<Frame>, f: Frame)
    requires Flowing(objs, hist, Idle, read) && Arriving(objs, hist, read)
    requires forall i :: 0 <= i < |objs| && objs[i].chanOpen ==> InHand(loop', i) == DataIn(f, objs[i].id)
    ensures Flowing(objs, hist, loop', read + [f]) && Arriving(objs, hist, read + [f])
  {
    forall i | 0 <= i < |objs| ensures FlowingAt(objs[i], hist[i], InHand(loop', i), read + [f]) {
      assert FlowingAt(objs[i], hist[i], InHand(Idle, i), read);
      ReceivedAt(objs[i], hist[i], InHand(loop', i), read, f);
    }
  }

  lemma ReceivedAt(s: Stream, h: History, inHand: Bytes, read: seq<Frame>, f: Frame)
    requires FlowingAt(s, h, [], read) && (s.chanOpen ==> inHand == DataIn(f, s.id))
    ensures FlowingAt(s, h, inHand, read + [f])
  {
    DataOfSnoc(read, f, s.id);
    assert Got(s, h) + [] == Got(s, h);
  }

  /** A Stream enters whose ID no data read so far was for. */
  lemma FlowEnter(objs: seq<Stream>, hist: seq<History>, loop: Loop, read: seq<Frame>, s: Stream, h: History)
    requires Flowing(objs, hist, loop, read)
    requires Got(s, h) == [] && DataOf(read, s.id) == [] && InHand(loop, |objs|) == []
    ensures Flowing(objs + [s], hist + [h], loop, read)
  {
    assert FlowingAt(s, h, [], read);
  }

  lemma ArrivingEnter(objs: seq<Stream>, hist: seq<History>, read: seq<Frame>, read': seq<Frame>, s: Stream, h: History)
    requires Arriving(objs, hist, read) && read <= read'
    requires h.origin.Arrived? ==>
      |read| <= h.origin.at < |read'| && read'[h.origin.at] == Frame(STREAM_OPEN, s.id, s.target)
    ensures Arriving(objs + [s], hist + [h], read')
  {
  }

  /** Data for an ID this endpoint has not opened yet cannot have been sent: the peer would have to hold a
      stream it never accepted. */
  lemma NoDataBeforeOpen(e: Endpoint, peer: Endpoint, id: uint32)
    requires Local(e) && Local(peer) && e.isServer != peer.isServer
    requires Linked(peer, e.log)
    requires id !in e.owner && id % 2 == (if e.isServer then 1 else 0)
    ensures forall k :: 0 <= k <= |peer.log| ==> DataOf(peer.log[..k], id) == []
  {
    if id in peer.owner {
      var j := peer.owner[id];
      assert peer.core.objs[j].id == id;
      match peer.hist[j].origin
      case Opened(k, _) => IdsDistinct(peer.isServer, k, 0);
      case Arrived(at) => assert false;
    }
    forall k | 0 <= k <= |peer.log| ensures DataOf(peer.log[..k], id) == [] {
      NoDataIn(peer.log[..k], id);
    }
  }

  /** A StreamOpen frame of the peer announces an ID that has no Stream here, and that no data was read for. */
  lemma AnnouncedIsFresh(e: Endpoint, peer: Endpoint)
    requires Local(e) && Local(peer) && e.isServer != peer.isServer
    requires Linked(e, peer.log) && e.rd < |peer.log| && peer.log[e.rd].kind == STREAM_OPEN
    ensures var id := peer.log[e.rd].id;
      && id !in e.owner && id !in e.core.streams
      && id % 2 == (if e.isServer then 0 else 1)
      && DataOf(peer.log[..e.rd], id) == []
  {
    hide Announcing, Writers, ClosesOnce, Queued, Fated, Flowing, Created, Shape, IdOf, DataOf;
    var id := peer.log[e.rd].id;
    var j := peer.owner[id];
    IdsDistinct(peer.isServer, peer.hist[j].origin.order, 0);
    if id in e.owner {
      var i := e.owner[id];
      assert e.core.objs[i].id == id;
      match e.hist[i].origin
      case Opened(k, _) => IdsDistinct(e.isServer, k, 0);
      case Arrived(at) => assert false;
    }
    NoDataIn(peer.log[..e.rd], id);
  }

  lemma ReadMore(log: seq<Frame>, k: nat)
    requires k < |log|
    ensures log[..k + 1] == log[..k] + [log[k]]
  {
  }

  /** What is linked stays linked while the peer writes on. */
  lemma LinkedAfterWrite(e: Endpoint, log: seq<Frame>, log': seq<Frame>)
    requires Linked(e, log) && log <= log'
    ensures Linked(e, log')
  {
    assert log'[..e.rd] == log[..e.rd];
  }
}
