/** A new Stream in the tables: one opened here, and one announced by the peer. */
module MuxEnter {
  import opened Bytes
  import opened Frame
  import opened MuxCore
  import opened Mux
  import opened MuxInvariant

  lemma NextIDIsFresh(e: Endpoint)
    requires Local(e) && e.opens < MAX_OPENS
    ensures NextID(e.core) == IdOf(e.isServer, e.opens + 1)
    ensures NextID(e.core) !in e.owner
  {
    var id := IdOf(e.isServer, e.opens + 1);
    NextIDFollows(e.isServer, e.opens);
    if id in e.owner {
      var i := e.owner[id];
      assert e.core.objs[i].id == id;
      IdsDistinct(e.isServer, e.opens + 1, 0);
      if e.hist[i].origin.Opened? {
        var k := e.hist[i].origin.order;
        IdsDistinct(e.isServer, k, e.opens + 1);
        SmallResidues(k, e.opens + 1);
      }
    }
  }

  lemma NextIDFollows(isServer: bool, k: nat)
    ensures (IdOf(isServer, k) + 2) % 0x1_0000_0000 == IdOf(isServer, k + 1)
  {
  }

  lemma SmallResidues(j: nat, k: nat)
    requires 1 <= j < k <= MAX_OPENS
    ensures j % MAX_OPENS != k % MAX_OPENS
  {
  }

  lemma OwnedEnter(objs: seq<Stream>, owner: map<uint32, nat>, s: Stream)
    requires Owned(objs, owner) && s.id !in owner
    ensures Owned(objs + [s], owner[s.id := |objs|])
  {
  }

  lemma LifecycleEnter(objs: seq<Stream>, streams: map<uint32, nat>, owner: map<uint32, nat>, s: Stream)
    requires Owned(objs, owner) && Lifecycle(objs, streams, owner) && s.id !in owner && s.chanOpen
    ensures Lifecycle(objs + [s], streams[s.id := |objs|], owner[s.id := |objs|])
  {
  }

  lemma AnnouncedEnter(log: seq<Frame>, objs: seq<Stream>, hist: seq<History>, owner: map<uint32, nat>, s: Stream,
                       h: History)
    requires Announced(log, objs, hist, owner) && s.id !in owner && !h.handed
    requires h.origin.Opened? ==> h.origin.sentAt == -1
    ensures Announced(log, objs + [s], hist + [h], owner[s.id := |objs|])
  {
  }

  lemma WrittenEnter(log: seq<Frame>, objs: seq<Stream>, hist: seq<History>, owner: map<uint32, nat>, s: Stream,
                     h: History)
    requires Written(log, objs, hist, owner) && s.id !in owner && h.written == []
    ensures Written(log, objs + [s], hist + [h], owner[s.id := |objs|])
  {
    NoDataIn(log, s.id);
  }

  lemma ClosesEnter(log: seq<Frame>, threads: multiset<Thread>, hist: seq<History>, owner: map<uint32, nat>,
                    id: uint32, h: History)
    requires ClosesOnce(log, threads, hist, owner) && id !in owner
    requires forall other :: other in owner ==> owner[other] < |hist|
    ensures ClosesOnce(log, threads, hist + [h], owner[id := |hist|])
  {
    forall other: uint32
      ensures CloseCount(log, other) + threads[CloseSend(other)]
           <= ClosesAllowed(hist + [h], owner[id := |hist|], other)
    {
      assert CloseCount(log, other) + threads[CloseSend(other)] <= ClosesAllowed(hist, owner, other);
    }
  }

  lemma ThreadsEnter(threads: multiset<Thread>, writeMu: WriteLock, hist: seq<History>, h: History)
    requires Announcing(threads, hist) && Writers(threads, writeMu, hist)
    ensures Announcing(threads, hist + [h]) && Writers(threads, writeMu, hist + [h])
    ensures h.origin.Opened? && h.origin.sentAt == -1 ==>
      var more := threads + multiset{OpenSend(|hist|)};
      Announcing(more, hist + [h]) && Writers(more, writeMu, hist + [h])
  {
    var threads' := threads + multiset{OpenSend(|hist|)};
    assert OpenSend(|hist|) !in threads;
    assert forall t :: t in threads' ==> t in threads || t == OpenSend(|hist|);
    assert forall t :: t != OpenSend(|hist|) ==> threads'[t] == threads[t];
  }

  /** What Enter makes of the tables, whatever happens to threads and readLoop. */
  lemma EnterKeeps(e: Endpoint, id: uint32, target: Bytes, origin: Origin)
    requires Local(e) && id !in e.owner
    requires origin.Opened? ==> origin.sentAt == -1
    ensures var e' := Enter(e, Insert(e.core, id, target), id, origin);
      && Shape(e')
      && Owned(e'.core.objs, e'.owner)
      && Lifecycle(e'.core.objs, e'.core.streams, e'.owner)
      && Fated(e'.core.objs, e'.hist)
      && Announced(e.log, e'.core.objs, e'.hist, e'.owner)
      && Written(e.log, e'.core.objs, e'.hist, e'.owner)
      && ClosesOnce(e.log, e.threads, e'.hist, e'.owner)
      && Announcing(e.threads, e'.hist)
      && Writers(e.threads, e.writeMu, e'.hist)
  {
    hide Lifecycle, Numbered, Announced, Announcing, Written, Writers, ClosesOnce, Queued;
    var s, h := NewStream(id, target), History(origin, false, [], [], Live);
    OwnedEnter(e.core.objs, e.owner, s);
    LifecycleEnter(e.core.objs, e.core.streams, e.owner, s);
    AnnouncedEnter(e.log, e.core.objs, e.hist, e.owner, s, h);
    WrittenEnter(e.log, e.core.objs, e.hist, e.owner, s, h);
    ClosesEnter(e.log, e.threads, e.hist, e.owner, id, h);
    ThreadsEnter(e.threads, e.writeMu, e.hist, h);
  }

  lemma NumberedEnter(isServer: bool, opens: nat, next: uint32, objs: seq<Stream>, hist: seq<History>, s: Stream,
                      h: History)
    requires Numbered(isServer, opens, next, objs, hist)
    ensures h.origin.Arrived? && s.id % 2 == (if isServer then 0 else 1) ==>
      Numbered(isServer, opens, next, objs + [s], hist + [h])
    ensures h.origin.Opened? && h.origin.order == opens + 1 <= MAX_OPENS && s.id == IdOf(isServer, opens + 1) ==>
      Numbered(isServer, opens + 1, s.id, objs + [s], hist + [h])
  {
  }

  lemma QueuedEnter(q: seq<nat>, loop: Loop, hist: seq<History>, h: History)
    requires Queued(q, loop, hist)
    ensures h.origin.Opened? ==> Queued(q, loop, hist + [h])
    ensures h.origin.Arrived? && loop.Idle? ==> Queued(q + [|hist|], Offering(|hist|), hist + [h])
  {
    assert forall i :: i in q ==> i in q + [|hist|];
    assert |hist| in q + [|hist|];
  }

  lemma OpenStreamKeeps(e: Endpoint, target: Bytes)
    requires Local(e) && e.opens < MAX_OPENS
    ensures var entered := Enter(e, Register(e.core, target), NextID(e.core), Opened(e.opens + 1, -1));
      var e' := Fork(entered, OpenSend(|e.core.objs|))
        .(opens := e.opens + 1);
      Local(e')
  {
    hide Owned, Lifecycle, Fated, Numbered, Announced, Announcing, Written, Writers, ClosesOnce, Queued;
    var id, h := NextID(e.core), History(Opened(e.opens + 1, -1), false, [], [], Live);
    var mid := Enter(e, Insert(e.core, id, target), id, Opened(e.opens + 1, -1));
    var entered := Enter(e, Register(e.core, target), id, Opened(e.opens + 1, -1));
    var e' := Fork(entered, OpenSend(|e.core.objs|)).(opens := e.opens + 1);
    NextIDIsFresh(e);
    EnterKeeps(e, id, target, Opened(e.opens + 1, -1));
    NumberedEnter(e.isServer, e.opens, e.core.nextStreamID, e.core.objs, e.hist, NewStream(id, target), h);
    QueuedEnter(Queue(e), e.loop, e.hist, h);
    ThreadsEnter(e.threads, e.writeMu, e.hist, h);
    ForkedClose(e.log, e.threads, mid.hist, mid.owner, OpenSend(|e.hist|));
    assert Shape(e');
    assert Queue(e') == Queue(e);
  }

  lemma ForkedClose(log: seq<Frame>, threads: multiset<Thread>, hist: seq<History>, owner: map<uint32, nat>, t: Thread)
    requires ClosesOnce(log, threads, hist, owner) && !t.CloseSend?
    ensures ClosesOnce(log, threads + multiset{t}, hist, owner)
  {
  }

  lemma ReceiveOpenKeeps(e: Endpoint, f: Frame)
    requires Local(e) && f.kind == STREAM_OPEN && e.loop.Idle?
    requires f.id !in e.owner && f.id % 2 == (if e.isServer then 0 else 1)
    ensures Local(Handle(e, f))
  {
    hide Owned, Lifecycle, Fated, Numbered, Announced, Announcing, Written, Writers, ClosesOnce, Queued;
    var h := History(Arrived(e.rd), false, [], [], Live);
    var e' := Handle(e, f);
    EnterKeeps(e, f.id, f.payload, Arrived(e.rd));
    NumberedEnter(e.isServer, e.opens, e.core.nextStreamID, e.core.objs, e.hist, NewStream(f.id, f.payload), h);
    QueuedEnter(Queue(e), e.loop, e.hist, h);
    assert Shape(e');
    assert Queue(e') == Queue(e) + [|e.hist|];
  }
}
