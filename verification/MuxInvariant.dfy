/** What every step of an endpoint keeps. */
module MuxInvariant {
  import opened Bytes
  import opened Frame
  import opened MuxCore
  import opened Mux

  /** The ID of the k-th stream a side opens: uint32 addition wraps around. */
  function IdOf(isServer: bool, k: nat): uint32 {
    ((if isServer then 1 else 2) + 2 * k) % 0x1_0000_0000
  }

  lemma IdValue(isServer: bool, k: nat)
    ensures IdOf(isServer, k) == if isServer then 1 + 2 * (k % MAX_OPENS) else 2 * ((k + 1) % MAX_OPENS)
  {
    var q, r := k / MAX_OPENS, k % MAX_OPENS;
    assert k == q * MAX_OPENS + r;
    if isServer {
      assert 1 + 2 * k == q * 0x1_0000_0000 + (1 + 2 * r);
    } else if r == MAX_OPENS - 1 {
      assert 2 + 2 * k == (q + 1) * 0x1_0000_0000;
      assert k + 1 == (q + 1) * MAX_OPENS;
    } else {
      assert 2 + 2 * k == q * 0x1_0000_0000 + (2 + 2 * r);
      assert k + 1 == q * MAX_OPENS + (r + 1);
    }
  }

  lemma ShiftedResidues(j: nat, k: nat)
    ensures (j + 1) % MAX_OPENS == (k + 1) % MAX_OPENS <==> j % MAX_OPENS == k % MAX_OPENS
  {
    var a, b := j / MAX_OPENS, k / MAX_OPENS;
    assert j == a * MAX_OPENS + j % MAX_OPENS && k == b * MAX_OPENS + k % MAX_OPENS;
  }

  /** IDs repeat with period 2^31 and no sooner, and the two sides never share one; the first ones are 3 and 4. */
  lemma IdsDistinct(isServer: bool, j: nat, k: nat)
    ensures IdOf(isServer, j) == IdOf(isServer, k) <==> j % MAX_OPENS == k % MAX_OPENS
    ensures IdOf(isServer, j) % 2 == (if isServer then 1 else 0)
    ensures IdOf(isServer, j) != IdOf(!isServer, k)
    ensures NextID(NewCore(isServer)) == (if isServer then 3 else 4)
  {
    hide IdOf;
    IdValue(isServer, j);
    IdValue(isServer, k);
    IdValue(!isServer, k);
    if !isServer { ShiftedResidues(j, k); }
  }

  /** The bytes of all Data frames for id, in order. */
  function DataOf(log: seq<Frame>, id: uint32): Bytes
  {
    if log == [] then [] else DataOf(log[..|log| - 1], id) + DataIn(log[|log| - 1], id)
  }

  function DataIn(f: Frame, id: uint32): Bytes {
    if f.kind == DATA && f.id == id then f.payload else []
  }

  /** How many StreamClose frames for id there are. */
  function CloseCount(log: seq<Frame>, id: uint32): nat
  {
    if log == [] then 0 else CloseCount(log[..|log| - 1], id) + CloseIn(log[|log| - 1], id)
  }

  function CloseIn(f: Frame, id: uint32): nat {
    if f.kind == STREAM_CLOSE && f.id == id then 1 else 0
  }

  lemma DataOfSnoc(log: seq<Frame>, f: Frame, id: uint32)
    ensures DataOf(log + [f], id) == DataOf(log, id) + DataIn(f, id)
    ensures CloseCount(log + [f], id) == CloseCount(log, id) + CloseIn(f, id)
  {
    assert (log + [f])[..|log|] == log;
  }

  lemma {:induction false} DataOfAppend(a: seq<Frame>, b: seq<Frame>, id: uint32)
    ensures DataOf(a + b, id) == DataOf(a, id) + DataOf(b, id)
  {
    if b == [] {
      assert a + b == a;
    } else {
      var front, last := b[..|b| - 1], b[|b| - 1];
      assert b == front + [last] && a + b == (a + front) + [last];
      DataOfAppend(a, front, id);
      DataOfSnoc(a + front, last, id);
      DataOfSnoc(front, last, id);
      assert DataOf(a, id) + (DataOf(front, id) + DataIn(last, id))
          == (DataOf(a, id) + DataOf(front, id)) + DataIn(last, id);
    }
  }

  lemma {:induction false} NoDataIn(log: seq<Frame>, id: uint32)
    requires forall p :: 0 <= p < |log| ==> log[p].kind != DATA || log[p].id != id
    ensures DataOf(log, id) == []
  {
    if log != [] {
      NoDataIn(log[..|log| - 1], id);
    }
  }

  /** Every Stream has an ID of its own, and owner finds it. */
  ghost predicate Owned(objs: seq<Stream>, owner: map<uint32, nat>) {
    && (forall i :: 0 <= i < |objs| ==> objs[i].id in owner && owner[objs[i].id] == i)
    && (forall id :: id in owner ==> owner[id] < |objs| && objs[owner[id]].id == id)
  }

  /** A Stream is in the map exactly while its channel is open. */
  ghost predicate Lifecycle(objs: seq<Stream>, streams: map<uint32, nat>, owner: map<uint32, nat>) {
    && (forall id :: id in streams ==> id in owner && streams[id] == owner[id])
    && (forall i :: 0 <= i < |objs| ==> (objs[i].chanOpen <==> objs[i].id in streams))
  }

  ghost predicate Fated(objs: seq<Stream>, hist: seq<History>) {
    |hist| == |objs| && forall i :: 0 <= i < |objs| ==> (hist[i].fate.Live? <==> objs[i].chanOpen)
  }

  /** Own streams have the IDs of the endpoint's opens; the peer's streams have the other parity. */
  ghost predicate Numbered(isServer: bool, opens: nat, nextStreamID: uint32, objs: seq<Stream>, hist: seq<History>) {
    && |hist| == |objs|
    && opens <= MAX_OPENS
    && nextStreamID == IdOf(isServer, opens)
    && (forall i :: 0 <= i < |hist| ==>
          match hist[i].origin
          case Opened(k, _) => 1 <= k <= opens && objs[i].id == IdOf(isServer, k)
          case Arrived(_) => objs[i].id % 2 == (if isServer then 0 else 1))
  }

  /** Each own stream is announced at most once, and before its caller gets it. */
  ghost predicate Announced(log: seq<Frame>, objs: seq<Stream>, hist: seq<History>, owner: map<uint32, nat>) {
    && |hist| == |objs|
    && (forall p :: 0 <= p < |log| && log[p].kind == STREAM_OPEN ==>
          && log[p].id in owner && owner[log[p].id] < |hist|
          && hist[owner[log[p].id]].origin.Opened? && hist[owner[log[p].id]].origin.sentAt == p)
    && (forall i :: 0 <= i < |hist| && hist[i].origin.Opened? ==>
          && -1 <= hist[i].origin.sentAt < |log|
          && (hist[i].handed ==> hist[i].origin.sentAt >= 0)
          && (hist[i].origin.sentAt >= 0 ==>
                log[hist[i].origin.sentAt] == Frame(STREAM_OPEN, objs[i].id, objs[i].target)))
  }

  /** The goroutine that will announce a stream is the only one, and has not done it yet. */
  ghost predicate Announcing(threads: multiset<Thread>, hist: seq<History>) {
    forall i: nat :: OpenSend(i) in threads ==>
      i < |hist| && hist[i].origin.Opened? && hist[i].origin.sentAt == -1 && threads[OpenSend(i)] == 1
  }

  /** Only on streams that a caller holds is data written, and what was written is what the Data frames carry. */
  ghost predicate Written(log: seq<Frame>, objs: seq<Stream>, hist: seq<History>, owner: map<uint32, nat>) {
    && |hist| == |objs|
    && (forall p :: 0 <= p < |log| && log[p].kind == DATA ==>
          && log[p].id in owner && owner[log[p].id] < |hist|
          && hist[owner[log[p].id]].handed
          && (hist[owner[log[p].id]].origin.Opened? ==> hist[owner[log[p].id]].origin.sentAt < p))
    && (forall i :: 0 <= i < |hist| ==> hist[i].written == DataOf(log, objs[i].id))
  }

  ghost predicate Writers(threads: multiset<Thread>, writeMu: WriteLock, hist: seq<History>) {
    && (forall i: nat, data :: Writing(i, data) in threads ==> i < |hist| && hist[i].handed)
    && (writeMu.Held? ==> writeMu.i < |hist| && hist[writeMu.i].handed)
  }

  /** At most one StreamClose per ID, sent or to be sent, and only if closeStream removed the Stream here. */
  ghost predicate ClosesOnce(log: seq<Frame>, threads: multiset<Thread>, hist: seq<History>, owner: map<uint32, nat>) {
    forall id: uint32 :: CloseCount(log, id) + threads[CloseSend(id)] <= ClosesAllowed(hist, owner, id)
  }

  ghost function ClosesAllowed(hist: seq<History>, owner: map<uint32, nat>, id: uint32): nat {
    if id in owner && owner[id] < |hist| && hist[owner[id]].fate.ClosedHere? then 1 else 0
  }

  /** The peer's streams that were or will be handed to AcceptStream, in order. */
  function Queue(e: Endpoint): seq<nat> {
    e.accepted + e.core.acceptChan + if e.loop.Offering? then [e.loop.i] else []
  }

  ghost predicate Queued(q: seq<nat>, loop: Loop, hist: seq<History>) {
    && (forall k :: 0 <= k < |q| ==> q[k] < |hist| && hist[q[k]].origin.Arrived?)
    && (forall k, l :: 0 <= k < l < |q| ==> q[k] < q[l])
    && (forall i :: 0 <= i < |hist| && hist[i].origin.Arrived? && hist[i].fate.Live? ==>
          i in q || loop == Rejecting(i))
  }

  /** The chunk for Stream i that readLoop has taken off the wire and not yet put into the channel. */
  function InHand(loop: Loop, i: nat): Bytes {
    if (loop.Delivering? || loop.TimedOut?) && loop.i == i then loop.chunk else []
  }

  /** What has reached a Stream so far. */
  function Got(s: Stream, h: History): Bytes {
    h.consumed + Buffered(s)
  }

  /** A Stream in the map has got all data read off the wire for its ID, but for the chunk in hand; one that
      was removed has got a prefix. */
  ghost predicate FlowingAt(s: Stream, h: History, inHand: Bytes, read: seq<Frame>) {
    && Got(s, h) <= DataOf(read, s.id)
    && (s.chanOpen ==> Got(s, h) + inHand == DataOf(read, s.id))
  }

  ghost predicate Flowing(objs: seq<Stream>, hist: seq<History>, loop: Loop, read: seq<Frame>) {
    && |hist| == |objs|
    && (forall i :: 0 <= i < |hist| ==> FlowingAt(objs[i], hist[i], InHand(loop, i), read))
  }

  /** The peer's streams were created by StreamOpen frames that were read, in order, with their targets. */
  ghost predicate Arriving(objs: seq<Stream>, hist: seq<History>, read: seq<Frame>) {
    && |hist| == |objs|
    && (forall i :: 0 <= i < |hist| && hist[i].origin.Arrived? ==>
          && hist[i].origin.at < |read|
          && read[hist[i].origin.at] == Frame(STREAM_OPEN, objs[i].id, objs[i].target))
    && (forall i, j :: 0 <= i < j < |hist| && hist[i].origin.Arrived? && hist[j].origin.Arrived? ==>
          hist[i].origin.at < hist[j].origin.at)
  }

  /** Every StreamOpen frame that was read created a Stream. */
  ghost predicate Created(owner: map<uint32, nat>, read: seq<Frame>) {
    forall p :: 0 <= p < |read| && read[p].kind == STREAM_OPEN ==> read[p].id in owner
  }

  ghost predicate Local(e: Endpoint) {
    && Shape(e)
    && Owned(e.core.objs, e.owner)
    && Lifecycle(e.core.objs, e.core.streams, e.owner)
    && Fated(e.core.objs, e.hist)
    && Numbered(e.isServer, e.opens, e.core.nextStreamID, e.core.objs, e.hist)
    && Announced(e.log, e.core.objs, e.hist, e.owner)
    && Announcing(e.threads, e.hist)
    && Written(e.log, e.core.objs, e.hist, e.owner)
    && Writers(e.threads, e.writeMu, e.hist)
    && ClosesOnce(e.log, e.threads, e.hist, e.owner)
    && Queued(Queue(e), e.loop, e.hist)
  }

  ghost predicate Linked(e: Endpoint, peerLog: seq<Frame>) {
    && e.rd <= |peerLog|
    && Flowing(e.core.objs, e.hist, e.loop, peerLog[..e.rd])
    && Arriving(e.core.objs, e.hist, peerLog[..e.rd])
    && Created(e.owner, peerLog[..e.rd])
  }

  ghost predicate Invariant(s: System) {
    && s.server.isServer && !s.client.isServer
    && Local(s.server) && Local(s.client)
    && Linked(s.server, s.client.log) && Linked(s.client, s.server.log)
  }
}
