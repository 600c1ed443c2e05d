/** Every step of an endpoint keeps what Local says of it. */
module MuxLocal {
  import opened Bytes
  import opened Wrappers
  import opened Frame
  import opened MuxCore
  import opened Mux
  import opened MuxInvariant

  /** Streams keep their identity, only streams of the peer newly get a holder, and no Stream is revived. */
  ghost predicate SameStreams(objs: seq<Stream>, hist: seq<History>, objs': seq<Stream>, hist': seq<History>) {
    && |objs| == |objs'| == |hist| == |hist'|
    && (forall i :: 0 <= i < |objs| ==>
          && objs'[i].id == objs[i].id && objs'[i].target == objs[i].target
          && hist'[i].origin == hist[i].origin
          && (hist[i].handed ==> hist'[i].handed)
          && (hist'[i].handed && hist[i].origin.Opened? ==> hist[i].handed)
          && (hist[i].fate.ClosedHere? ==> hist'[i].fate.ClosedHere?)
          && (hist'[i].fate.Live? ==> hist[i].fate.Live?))
  }

  ghost predicate SameWritten(hist: seq<History>, hist': seq<History>) {
    |hist| == |hist'| && forall i :: 0 <= i < |hist| ==> hist'[i].written == hist[i].written
  }

  lemma SameStreamsKeep(e: Endpoint, objs': seq<Stream>, hist': seq<History>)
    requires Local(e) && SameStreams(e.core.objs, e.hist, objs', hist')
    ensures Owned(objs', e.owner)
    ensures Numbered(e.isServer, e.opens, e.core.nextStreamID, objs', hist')
    ensures Announced(e.log, objs', hist', e.owner)
    ensures SameWritten(e.hist, hist') ==> Written(e.log, objs', hist', e.owner)
    ensures Announcing(e.threads, hist')
    ensures Writers(e.threads, e.writeMu, hist')
    ensures ClosesOnce(e.log, e.threads, hist', e.owner)
    ensures Queued(Queue(e), e.loop, hist')
  {
    hide Owned, Lifecycle, Fated, Numbered, Announced, Written;
    OwnedKept(e.core.objs, e.hist, objs', hist', e.owner);
    NumberedKept(e.isServer, e.opens, e.core.nextStreamID, e.core.objs, e.hist, objs', hist');
    AnnouncedKept(e.log, e.core.objs, e.hist, objs', hist', e.owner);
    if SameWritten(e.hist, hist') {
      WrittenKept(e.log, e.core.objs, e.hist, objs', hist', e.owner);
    }
  }

  lemma OwnedKept(objs: seq<Stream>, hist: seq<History>, objs': seq<Stream>, hist': seq<History>, owner: map<uint32,
                  nat>)
    requires SameStreams(objs, hist, objs', hist') && Owned(objs, owner)
    ensures Owned(objs', owner)
  {
  }

  lemma NumberedKept(isServer: bool, opens: nat, next: uint32,
                     objs: seq<Stream>, hist: seq<History>, objs': seq<Stream>, hist': seq<History>)
    requires SameStreams(objs, hist, objs', hist') && Numbered(isServer, opens, next, objs, hist)
    ensures Numbered(isServer, opens, next, objs', hist')
  {
  }

  lemma AnnouncedKept(log: seq<Frame>, objs: seq<Stream>, hist: seq<History>, objs': seq<Stream>, hist': seq<History>,
                      owner: map<uint32, nat>)
    requires SameStreams(objs, hist, objs', hist') && Announced(log, objs, hist, owner)
    ensures Announced(log, objs', hist', owner)
  {
  }

  lemma WrittenKept(log: seq<Frame>, objs: seq<Stream>, hist: seq<History>, objs': seq<Stream>, hist': seq<History>,
                    owner: map<uint32, nat>)
    requires SameStreams(objs, hist, objs', hist') && SameWritten(hist, hist') && Written(log, objs, hist, owner)
    ensures Written(log, objs', hist', owner)
  {
  }

  lemma ForkKeeps(e: Endpoint, t: Thread)
    requires Local(e) && (t.Closing? || (t.Writing? && Holds(e, t.i)))
    ensures Local(Fork(e, t))
  {
    assert Queue(Fork(e, t)) == Queue(e);
    assert forall u :: u in Fork(e, t).threads ==> u in e.threads || u == t;
    assert forall u :: u != t ==> Fork(e, t).threads[u] == e.threads[u];
  }

  lemma FinishKeeps(e: Endpoint, t: Thread)
    requires Local(e)
    ensures Local(Finish(e, t))
  {
    assert Queue(Finish(e, t)) == Queue(e);
    assert forall u :: Finish(e, t).threads[u] <= e.threads[u];
    assert forall u :: u in Finish(e, t).threads ==> u in e.threads;
  }

  lemma LockKeeps(e: Endpoint, w: WriteLock)
    requires Local(e) && (w.Held? ==> Holds(e, w.i) && w.offset <= |w.data|)
    ensures Local(e.(writeMu := w))
  {
    assert Queue(e.(writeMu := w)) == Queue(e);
  }

  lemma LoopKeeps(e: Endpoint, l: Loop)
    requires Local(e) && !e.loop.Offering? && !e.loop.Rejecting? && !l.Offering? && !l.Rejecting?
    requires l.Delivering? || l.TimedOut? ==> l.i < |e.hist|
    ensures Local(e.(loop := l))
  {
    assert Queue(e.(loop := l)) == Queue(e);
  }

  lemma FlagsKeep(e: Endpoint, panic: Option<Panic>, connUp: bool, shutdown: nat, acceptOpen: bool, rd: nat)
    requires Local(e)
    ensures Local(e.(panic := panic, connUp := connUp, shutdown := shutdown, rd := rd,
                     core := e.core.(acceptOpen := acceptOpen)))
  {
    var core := e.core.(acceptOpen := acceptOpen);
    var e' := e.(panic := panic, connUp := connUp, shutdown := shutdown, rd := rd, core := core);
    assert Queue(e') == Queue(e);
  }

  /** A frame at the end of the log adds nothing to the announcements or to the data of other frames. */
  lemma AppendKeeps(e: Endpoint, f: Frame)
    requires Local(e)
    ensures f.kind != STREAM_OPEN ==> Announced(e.log + [f], e.core.objs, e.hist, e.owner)
    ensures f.kind != DATA ==> Written(e.log + [f], e.core.objs, e.hist, e.owner)
    ensures f.kind != STREAM_CLOSE ==> ClosesOnce(e.log + [f], e.threads, e.hist, e.owner)
  {
    forall id: uint32 ensures DataOf(e.log + [f], id) == DataOf(e.log, id) + DataIn(f, id)
                      ensures CloseCount(e.log + [f], id) == CloseCount(e.log, id) + CloseIn(f, id) {
      DataOfSnoc(e.log, f, id);
    }
  }

  lemma SendKeeps(e: Endpoint, f: Frame)
    requires Local(e) && f.kind != STREAM_OPEN && f.kind != DATA && f.kind != STREAM_CLOSE
    ensures Local(Send(e, f))
  {
    AppendKeeps(e, f);
    assert Queue(Send(e, f)) == Queue(e);
  }

  lemma CloseSent(log: seq<Frame>, threads: multiset<Thread>, hist: seq<History>, owner: map<uint32, nat>, id: uint32)
    requires ClosesOnce(log, threads, hist, owner) && CloseSend(id) in threads
    ensures ClosesOnce(log + [Frame(STREAM_CLOSE, id, [])], threads - multiset{CloseSend(id)}, hist, owner)
  {
    forall other: uint32 {
      DataOfSnoc(log, Frame(STREAM_CLOSE, id, []), other);
    }
  }

  lemma SendCloseKeeps(e: Endpoint, id: uint32)
    requires Local(e) && CloseSend(id) in e.threads
    ensures Local(Send(Finish(e, CloseSend(id)), Frame(STREAM_CLOSE, id, [])))
  {
    hide Owned, Lifecycle, Fated, Numbered, Announced, Announcing, Written, Writers, ClosesOnce, Queued;
    var f := Frame(STREAM_CLOSE, id, []);
    AppendKeeps(e, f);
    FinishKeeps(e, CloseSend(id));
    CloseSent(e.log, e.threads, e.hist, e.owner, id);
    assert Queue(Send(Finish(e, CloseSend(id)), f)) == Queue(e);
  }

  ghost function Announce(h: History, at: int): History
    requires h.origin.Opened?
  {
    h.(origin := h.origin.(sentAt := at), handed := true)
  }

  lemma OpenSent(log: seq<Frame>, objs: seq<Stream>, hist: seq<History>, owner: map<uint32, nat>, i: nat)
    requires Owned(objs, owner) && Announced(log, objs, hist, owner) && Written(log, objs, hist, owner)
    requires i < |hist| && hist[i].origin.Opened? && hist[i].origin.sentAt == -1
    ensures var log' := log + [Frame(STREAM_OPEN, objs[i].id, objs[i].target)];
            var hist' := hist[i := Announce(hist[i], |log|)];
      Announced(log', objs, hist', owner) && Written(log', objs, hist', owner)
  {
    forall id: uint32 {
      DataOfSnoc(log, Frame(STREAM_OPEN, objs[i].id, objs[i].target), id);
    }
  }

  lemma OpenSentThreads(threads: multiset<Thread>, writeMu: WriteLock, hist: seq<History>, i: nat, at: int)
    requires Announcing(threads, hist) && Writers(threads, writeMu, hist) && OpenSend(i) in threads
    ensures Announcing(threads - multiset{OpenSend(i)}, hist[i := Announce(hist[i], at)])
    ensures Writers(threads - multiset{OpenSend(i)}, writeMu, hist[i := Announce(hist[i], at)])
  {
    assert OpenSend(i) !in threads - multiset{OpenSend(i)};
    assert forall t :: t in threads - multiset{OpenSend(i)} ==> t in threads;
  }

  lemma SendOpenKeeps(e: Endpoint, i: nat)
    requires Local(e) && OpenSend(i) in e.threads
    ensures Local(SendOpenFrame(e, i, true))
  {
    hide Owned, Lifecycle, Fated, Numbered, Announced, Written, Writers, ClosesOnce, Queued;
    var e', s := SendOpenFrame(e, i, true), e.core.objs[i];
    OpenSent(e.log, e.core.objs, e.hist, e.owner, i);
    OpenSentThreads(e.threads, e.writeMu, e.hist, i, |e.log|);
    assert e'.hist == e.hist[i := Announce(e.hist[i], |e.log|)];
    OpenSentCounts(e.log, e.threads, e.core.objs, e.hist, e.owner, i);
    OpenSentTables(e.isServer, e.opens, e.core.nextStreamID, e.core.objs, e.hist, i, |e.log|);
    OpenSentQueue(Queue(e), e.loop, e.hist, i, |e.log|);
    assert Queue(e') == Queue(e);
  }

  lemma OpenSentCounts(log: seq<Frame>, threads: multiset<Thread>, objs: seq<Stream>, hist: seq<History>,
                       owner: map<uint32, nat>, i: nat)
    requires ClosesOnce(log, threads, hist, owner) && i < |hist| == |objs| && hist[i].origin.Opened?
    ensures ClosesOnce(log + [Frame(STREAM_OPEN, objs[i].id, objs[i].target)], threads - multiset{OpenSend(i)},
                       hist[i := Announce(hist[i], |log|)], owner)
  {
    forall id: uint32 {
      DataOfSnoc(log, Frame(STREAM_OPEN, objs[i].id, objs[i].target), id);
    }
  }

  lemma OpenSentTables(isServer: bool, opens: nat, next: uint32, objs: seq<Stream>, hist: seq<History>, i: nat, at: int)
    requires Numbered(isServer, opens, next, objs, hist) && Fated(objs, hist) && i < |hist| && hist[i].origin.Opened?
    ensures Numbered(isServer, opens, next, objs, hist[i := Announce(hist[i], at)])
    ensures Fated(objs, hist[i := Announce(hist[i], at)])
  {
  }

  lemma OpenSentQueue(q: seq<nat>, loop: Loop, hist: seq<History>, i: nat, at: int)
    requires Queued(q, loop, hist) && i < |hist| && hist[i].origin.Opened?
    ensures Queued(q, loop, hist[i := Announce(hist[i], at)])
  {
  }

  lemma ChunkWritten(log: seq<Frame>, objs: seq<Stream>, hist: seq<History>, owner: map<uint32, nat>, i: nat,
                     chunk: Bytes)
    requires Owned(objs, owner) && Announced(log, objs, hist, owner) && Written(log, objs, hist, owner)
    requires i < |hist| && hist[i].handed
    ensures Written(log + [Frame(DATA, objs[i].id, chunk)], objs,
                    hist[i := hist[i].(written := hist[i].written + chunk)], owner)
  {
    forall id: uint32 {
      DataOfSnoc(log, Frame(DATA, objs[i].id, chunk), id);
    }
    var log', hist' := log + [Frame(DATA, objs[i].id, chunk)], hist[i := hist[i].(written := hist[i].written + chunk)];
    forall j | 0 <= j < |hist| ensures hist'[j].written == DataOf(log', objs[j].id) {
      DataOfSnoc(log, Frame(DATA, objs[i].id, chunk), objs[j].id);
      if j != i {
        assert owner[objs[j].id] != owner[objs[i].id];
        assert DataOf(log, objs[j].id) + [] == DataOf(log, objs[j].id);
      }
    }
  }

  lemma WriteChunkKeeps(e: Endpoint)
    requires Local(e) && e.writeMu.Held?
    ensures Local(WriteNextChunk(e))
  {
    hide Owned, Lifecycle, Fated, Numbered, Announced, Announcing, Written, ClosesOnce, Queued;
    var i, chunk := e.writeMu.i, NextChunk(e.writeMu);
    var f, h := Frame(DATA, e.core.objs[i].id, chunk), e.hist[i].(written := e.hist[i].written + chunk);
    var hist' := e.hist[i := h];
    AppendKeeps(e, f);
    ChunkWritten(e.log, e.core.objs, e.hist, e.owner, i, chunk);
    Replaced(e.core.objs, e.hist, e.core.streams, e.owner, i, e.core.objs[i], h);
    assert e.core.objs[i := e.core.objs[i]] == e.core.objs;
    SameStreamsKeep(e, e.core.objs, hist');
    AnnouncedKept(e.log + [f], e.core.objs, e.hist, e.core.objs, hist', e.owner);
    ClosesKept(e.log + [f], e.threads, e.core.objs, e.hist, e.core.objs, hist', e.owner);
    assert Queue(WriteNextChunk(e)) == Queue(e);
  }

  lemma ClosesKept(log: seq<Frame>, threads: multiset<Thread>,
                   objs: seq<Stream>, hist: seq<History>, objs': seq<Stream>, hist': seq<History>,
                   owner: map<uint32, nat>)
    requires SameStreams(objs, hist, objs', hist') && ClosesOnce(log, threads, hist, owner)
    ensures ClosesOnce(log, threads, hist', owner)
  {
  }

  lemma Replaced(objs: seq<Stream>, hist: seq<History>, streams: map<uint32, nat>, owner: map<uint32, nat>,
                 i: nat, s: Stream, h: History)
    requires Lifecycle(objs, streams, owner) && Fated(objs, hist) && i < |hist|
    requires s.id == objs[i].id && s.target == objs[i].target && s.chanOpen == objs[i].chanOpen
    requires h.origin == hist[i].origin && h.fate == hist[i].fate
    requires (hist[i].handed ==> h.handed) && (h.handed && h.origin.Opened? ==> hist[i].handed)
    ensures SameStreams(objs, hist, objs[i := s], hist[i := h])
    ensures h.written == hist[i].written ==> SameWritten(hist, hist[i := h])
    ensures Lifecycle(objs[i := s], streams, owner) && Fated(objs[i := s], hist[i := h])
  {
  }

  /** Replacing a Stream by one of the same identity, and its consumed bytes. */
  lemma StreamKeeps(e: Endpoint, i: nat, s: Stream, consumed: Bytes)
    requires Local(e) && i < |e.hist|
    requires s.id == e.core.objs[i].id && s.target == e.core.objs[i].target && s.chanOpen == e.core.objs[i].chanOpen
    ensures Local(SetHist(e, i, e.hist[i].(consumed := consumed)).(core := SetStream(e.core, i, s)))
  {
    hide Owned, Lifecycle, Fated, Numbered, Announced, Announcing, Written, Writers, ClosesOnce, Queued;
    var h := e.hist[i].(consumed := consumed);
    Replaced(e.core.objs, e.hist, e.core.streams, e.owner, i, s, h);
    SameStreamsKeep(e, e.core.objs[i := s], e.hist[i := h]);
    var e' := SetHist(e, i, h).(core := SetStream(e.core, i, s));
    assert e'.core.objs == e.core.objs[i := s] && e'.hist == e.hist[i := h] && e'.core.streams == e.core.streams;
    assert Shape(e');
    assert Queue(e') == Queue(e);
  }

  lemma Unlinked(objs: seq<Stream>, hist: seq<History>, streams: map<uint32, nat>, owner: map<uint32, nat>,
                 id: uint32, fate: Fate)
    requires Owned(objs, owner) && Lifecycle(objs, streams, owner) && Fated(objs, hist) && id in streams && !fate.Live?
    ensures var i := owner[id]; var objs' := objs[i := objs[i].(chanOpen := false)];
      && objs[i].id == id && objs[i].chanOpen && hist[i].fate.Live?
      && Lifecycle(objs', streams - {id}, owner)
      && Fated(objs', hist[i := hist[i].(fate := fate)])
      && SameStreams(objs, hist, objs', hist[i := hist[i].(fate := fate)])
  {
  }

  lemma UnlinkKeeps(e: Endpoint, id: uint32, fate: Fate)
    requires Local(e) && !fate.Live?
    ensures Local(Unlink(e, id, fate)) && Unlink(e, id, fate).panic == e.panic
  {
    hide Fated, Numbered, Announced, Announcing, Written, Writers, ClosesOnce, Queued;
    var e' := Unlink(e, id, fate);
    if id in e.core.streams {
      Unlinked(e.core.objs, e.hist, e.core.streams, e.owner, id, fate);
      SameStreamsKeep(e, e'.core.objs, e'.hist);
      assert Queue(e') == Queue(e);
    }
  }

  lemma CloseForked(log: seq<Frame>, threads: multiset<Thread>, hist: seq<History>, owner: map<uint32, nat>, id: uint32)
    requires ClosesOnce(log, threads, hist, owner)
    requires id in owner && owner[id] < |hist| && !hist[owner[id]].fate.ClosedHere?
    ensures ClosesOnce(log, threads + multiset{CloseSend(id)},
                       hist[owner[id] := hist[owner[id]].(fate := ClosedHere)], owner)
  {
    var hist', threads' := hist[owner[id] := hist[owner[id]].(fate := ClosedHere)], threads + multiset{CloseSend(id)};
    forall other: uint32
      ensures CloseCount(log, other) + threads'[CloseSend(other)] <= ClosesAllowed(hist', owner, other)
    {
      assert CloseCount(log, other) + threads[CloseSend(other)] <= ClosesAllowed(hist, owner, other);
    }
  }

  lemma ForkCloseKeeps(e: Endpoint, id: uint32)
    requires Local(e) && ClosesOnce(e.log, e.threads + multiset{CloseSend(id)}, e.hist, e.owner)
    ensures Local(Fork(e, CloseSend(id)))
  {
    hide Owned, Lifecycle, Fated, Numbered, Announced, Announcing, Written, Writers, ClosesOnce, Queued;
    ForkedThreads(e.threads, e.writeMu, e.hist, CloseSend(id));
    assert Queue(Fork(e, CloseSend(id))) == Queue(e);
  }

  lemma CloseLocallyKeeps(e: Endpoint, id: uint32)
    requires Local(e)
    ensures Local(CloseLocally(e, id)) && CloseLocally(e, id).panic == e.panic
    ensures CloseLocally(e, id).loop == e.loop && id !in CloseLocally(e, id).core.streams
    ensures Queue(CloseLocally(e, id)) == Queue(e)
  {
    hide Numbered, Announced, Announcing, Written, Writers, ClosesOnce, Queued;
    UnlinkKeeps(e, id, ClosedHere);
    if id in e.core.streams {
      CloseForked(e.log, e.threads, e.hist, e.owner, id);
      ForkCloseKeeps(Unlink(e, id, ClosedHere), id);
    }
  }

  lemma ForkedThreads(threads: multiset<Thread>, writeMu: WriteLock, hist: seq<History>, t: Thread)
    requires Announcing(threads, hist) && Writers(threads, writeMu, hist) && (t.Closing? || t.CloseSend?)
    ensures Announcing(threads + multiset{t}, hist) && Writers(threads + multiset{t}, writeMu, hist)
  {
    assert forall u :: u in threads + multiset{t} ==> u in threads || u == t;
  }

  lemma PopQueue(accepted: seq<nat>, chan: seq<nat>, tail: seq<nat>)
    requires chan != []
    ensures (accepted + [chan[0]]) + chan[1..] + tail == accepted + chan + tail
  {
    assert chan == [chan[0]] + chan[1..];
  }

  lemma PushQueue(accepted: seq<nat>, chan: seq<nat>, i: nat)
    ensures accepted + (chan + [i]) + [] == accepted + chan + [i]
    ensures accepted + chan + [] + [i] == accepted + chan + [i]
  {
  }

  lemma AcceptKeeps(e: Endpoint)
    requires Local(e) && e.core.acceptChan != []
    ensures Local(AcceptNext(e))
  {
    hide Owned, Lifecycle, Fated, Numbered, Announced, Announcing, Written, Writers, ClosesOnce;
    var e', i := AcceptNext(e), e.core.acceptChan[0];
    PopQueue(e.accepted, e.core.acceptChan, if e.loop.Offering? then [e.loop.i] else []);
    assert e.hist[i].origin.Arrived? by {
      assert Queue(e)[|e.accepted|] == i;
    }
    Replaced(e.core.objs, e.hist, e.core.streams, e.owner, i, e.core.objs[i], e'.hist[i]);
    assert e.core.objs[i := e.core.objs[i]] == e.core.objs;
    SameStreamsKeep(e, e'.core.objs, e'.hist);
    assert WellFormed(e'.core);
  }

  lemma QueuedLoop(q: seq<nat>, loop: Loop, loop': Loop, hist: seq<History>)
    requires Queued(q, loop, hist) && !loop.Rejecting?
    ensures Queued(q, loop', hist)
  {
  }

  lemma OfferKeeps(e: Endpoint)
    requires Local(e) && e.loop.Offering?
    ensures Local(OfferStream(e))
  {
    hide Owned, Lifecycle, Fated, Numbered, Announced, Announcing, Written, Writers, ClosesOnce, Queued;
    var e', i := OfferStream(e), e.loop.i;
    PushQueue(e.accepted, e.core.acceptChan, i);
    if e'.loop.Rejecting? {
      RejectQueued(Queue(e'), i, e.loop, e.hist);
    } else if e'.loop.Idle? {
      assert Queue(e') == Queue(e);
      QueuedLoop(Queue(e), e.loop, Idle, e.hist);
    }
  }

  lemma RejectQueued(q: seq<nat>, i: nat, loop: Loop, hist: seq<History>)
    requires Queued(q + [i], loop, hist) && loop.Offering?
    ensures Queued(q, Rejecting(i), hist)
  {
    assert forall k :: 0 <= k < |q| ==> (q + [i])[k] == q[k];
    assert forall j :: j in q + [i] ==> j in q || j == i;
  }

  lemma DropKeeps(e: Endpoint)
    requires Local(e) && (e.loop.Rejecting? || e.loop.TimedOut?)
    ensures Local(CloseLocally(e, e.core.objs[e.loop.i].id).(loop := Idle))
    ensures CloseLocally(e, e.core.objs[e.loop.i].id).panic == e.panic
  {
    hide Owned, Fated, Numbered, Announced, Announcing, Written, Writers, ClosesOnce, Queued;
    var i := e.loop.i;
    var mid := CloseLocally(e, e.core.objs[i].id);
    CloseLocallyKeeps(e, e.core.objs[i].id);
    assert Queue(mid.(loop := Idle)) == Queue(mid);
    DroppedQueued(Queue(mid), mid.loop, mid.core.objs, mid.hist, mid.core.streams, mid.owner);
  }

  lemma DroppedQueued(q: seq<nat>, loop: Loop, objs: seq<Stream>, hist: seq<History>, streams: map<uint32, nat>,
                      owner: map<uint32, nat>)
    requires Queued(q, loop, hist) && Lifecycle(objs, streams, owner) && Fated(objs, hist)
    requires loop.Rejecting? || loop.TimedOut?
    requires loop.i < |objs| && objs[loop.i].id !in streams
    ensures Queued(q, Idle, hist)
  {
  }

  lemma RemoveAllNeverPanics(e: Endpoint)
    requires Local(e)
    ensures !RemoveAllPanics(e.core)
    ensures forall i :: 0 <= i < |e.hist| ==> (Registered(e.core, i) <==> e.core.objs[i].chanOpen)
  {
    forall i | 0 <= i < |e.hist| ensures Registered(e.core, i) <==> e.core.objs[i].chanOpen {
      if e.core.objs[i].chanOpen {
        assert e.core.streams[e.core.objs[i].id] == i;
      }
    }
  }

  lemma CloseSessionKeeps(e: Endpoint)
    requires Local(e)
    ensures Local(CloseSession(e)) && CloseSession(e).panic == e.panic
  {
    hide Numbered, Announced, Announcing, Written, Writers, ClosesOnce, Queued;
    RemoveAllNeverPanics(e);
    var e' := CloseSession(e);
    SameStreamsKeep(e, e'.core.objs, e'.hist);
    assert Queue(e') == Queue(e);
  }
}
