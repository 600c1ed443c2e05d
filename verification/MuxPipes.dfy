/** Two joined sessions refine independent FIFO byte pipes, one for each stream ID and direction. */
module MuxPipes {
  import opened Bytes
  import opened Wrappers
  import opened Frame
  import opened MuxCore
  import opened Mux
  import opened MuxInvariant
  import MuxFlow
  import MuxHistory
  import opened MuxTheorems

  /** What the users of one stream direction see: the bytes written at one end, and returned at the other. Once the
      reader's stream has left its map, end says what will ever come out. */
  datatype Pipe = Pipe(sent: Bytes, returned: Bytes, end: Option<Bytes>) {
    /** Nothing comes out that was not put in, and in that order; and nothing beyond the end. */
    predicate Fifo() {
      returned <= sent && (end.Some? ==> returned <= end.value <= sent)
    }
  }

  function View(s: System, reader: Side, id: uint32): Pipe {
    Pipe(Sent(s.At(Peer(reader)), id), Returned(s.At(reader), id), Ending(s.At(reader), id))
  }

  function Ending(e: Endpoint, id: uint32): Option<Bytes> {
    if id in e.owner && e.owner[id] < |e.hist| && e.owner[id] < |e.core.objs| && !e.core.objs[e.owner[id]].chanOpen
    then Some(Got(e.core.objs[e.owner[id]], e.hist[e.owner[id]]))
    else None
  }

  /** The step is a Read on id that says EOF. */
  ghost predicate SaysEof(e: Endpoint, ev: Event, id: uint32)
    requires Shape(e) && Ready(e, ev)
  {
    ev.Read? && e.core.objs[ev.i].id == id && ReadResult(e.core.objs[ev.i], ev.n) == Eof
  }

  /** The bytes a step writes on id, and the bytes it returns on id. */
  ghost function Puts(e: Endpoint, ev: Event, id: uint32): Bytes
    requires Shape(e) && Ready(e, ev)
  {
    if ev.WriteChunk? && ev.ok && e.core.objs[e.writeMu.i].id == id then NextChunk(e.writeMu) else []
  }

  ghost function Takes(e: Endpoint, ev: Event, id: uint32): Bytes
    requires Shape(e) && Ready(e, ev)
  {
    if ev.Read? && e.core.objs[ev.i].id == id && ReadResult(e.core.objs[ev.i], ev.n).Data?
    then ReadResult(e.core.objs[ev.i], ev.n).bytes else []
  }

  /** Streams keep the bytes written and returned on them, and new ones have none. */
  ghost predicate SameBytes(hist: seq<History>, owner: map<uint32, nat>, hist': seq<History>, owner': map<uint32,
                            nat>) {
    && |hist| <= |hist'|
    && (forall i :: 0 <= i < |hist| ==> hist'[i].written == hist[i].written && hist'[i].consumed == hist[i].consumed)
    && (forall i :: |hist| <= i < |hist'| ==> hist'[i].written == [] && hist'[i].consumed == [])
    && (forall id :: id in owner ==> id in owner' && owner'[id] == owner[id])
    && (forall id :: id in owner' && id !in owner ==> owner'[id] >= |hist|)
  }

  lemma SameBytesShow(e: Endpoint, e': Endpoint, id: uint32)
    requires Owned(e.core.objs, e.owner) && |e.hist| == |e.core.objs| && SameBytes(e.hist, e.owner, e'.hist, e'.owner)
    ensures Sent(e', id) == Sent(e, id) && Returned(e', id) == Returned(e, id)
  {
  }

  lemma EnterSame(e: Endpoint, c: Core, id: uint32, origin: Origin)
    requires |e.hist| == |e.core.objs|
    ensures var e' := Enter(e, c, id, origin); SameBytes(e.hist, e.owner, e'.hist, e'.owner)
  {
  }

  lemma HistSame(hist: seq<History>, owner: map<uint32, nat>, i: nat, h: History)
    requires i < |hist| && h.written == hist[i].written && h.consumed == hist[i].consumed
    ensures SameBytes(hist, owner, hist[i := h], owner)
  {
  }

  lemma UnlinkSame(e: Endpoint, id: uint32, fate: Fate)
    requires Shape(e)
    ensures var e' := Unlink(e, id, fate); SameBytes(e.hist, e.owner, e'.hist, e'.owner)
  {
    hide SameBytes, Remove;
    SameItself(e.hist, e.owner);
    if id in e.core.streams {
      var i := e.core.streams[id];
      HistSame(e.hist, e.owner, i, e.hist[i].(fate := fate));
    }
  }

  lemma SameItself(hist: seq<History>, owner: map<uint32, nat>)
    ensures SameBytes(hist, owner, hist, owner)
  {
  }

  lemma ShutSame(e: Endpoint)
    requires Shape(e)
    ensures var e' := CloseSession(e); SameBytes(e.hist, e.owner, e'.hist, e'.owner)
  {
    hide RemoveAll;
  }

  lemma AcceptSame(e: Endpoint)
    requires Shape(e) && e.core.acceptChan != []
    ensures var e' := AcceptNext(e); SameBytes(e.hist, e.owner, e'.hist, e'.owner)
  {
    hide SameBytes;
    HistSame(e.hist, e.owner, e.core.acceptChan[0], e.hist[e.core.acceptChan[0]].(handed := true));
  }

  lemma SendOpenSame(e: Endpoint, i: nat, ok: bool)
    requires Shape(e) && i < |e.hist|
    ensures var e' := SendOpenFrame(e, i, ok); SameBytes(e.hist, e.owner, e'.hist, e'.owner)
  {
    hide SameBytes;
    SameItself(e.hist, e.owner);
    HistSame(e.hist, e.owner, i, SendOpenFrame(e, i, ok).hist[i]);
  }

  lemma OtherSame(e: Endpoint, ev: Event)
    requires Shape(e) && Ready(e, ev)
    requires !ev.Read? && !(ev.WriteChunk? && ev.ok)
    ensures var e' := Next(e, ev); SameBytes(e.hist, e.owner, e'.hist, e'.owner)
  {
    hide SameBytes, Unlink, Handle, Enter, CloseSession, AcceptNext, SendOpenFrame, WellFormed, Register;
    SameItself(e.hist, e.owner);
    if ev.OpenStream? {
      EnterSame(e, Register(e.core, ev.target), NextID(e.core), Opened(e.opens + 1, -1));
    } else if ev.Receive? {
      HandleSame(e, ev.frame);
    } else if ev.CloseStream? {
      UnlinkSame(Finish(e, Closing(ev.id)), ev.id, ClosedHere);
    } else if ev.Reject? || ev.GiveUp? {
      UnlinkSame(e, e.core.objs[e.loop.i].id, ClosedHere);
    } else if ev.ShutStreams? {
      ShutSame(e);
    } else if ev.Accept? {
      AcceptSame(e);
    } else if ev.SendOpen? {
      SendOpenSame(e, ev.i, ev.ok);
    }
  }

  lemma HandleSame(e: Endpoint, f: Frame)
    requires Shape(e)
    ensures var e' := Handle(e, f); SameBytes(e.hist, e.owner, e'.hist, e'.owner)
  {
    hide Unlink, Insert;
    if f.kind == STREAM_OPEN {
      EnterSame(e.(rd := e.rd + 1), Insert(e.core, f.id, f.payload), f.id, Arrived(e.rd));
    } else if f.kind == STREAM_CLOSE {
      UnlinkSame(e.(rd := e.rd + 1), f.id, ClosedByPeer);
    }
  }

  /** Only a chunk that was framed is put into the pipe of its ID, and only what Read returned is taken out. */
  lemma StepBytes(e: Endpoint, ev: Event, id: uint32)
    requires Local(e) && Ready(e, ev)
    ensures Sent(Next(e, ev), id) == Sent(e, id) + Puts(e, ev, id)
    ensures Returned(Next(e, ev), id) == Returned(e, id) + Takes(e, ev, id)
  {
    hide Announced, Announcing, Written, Writers, ClosesOnce, Queued;
    hide Numbered, Fated, Lifecycle, NextChunk, ReadResult, AfterRead;
    hide Sent, Returned, SameBytes, ReadStream, WriteNextChunk;
    if ev.Read? {
      ReadBytes(e, ev.i, ev.n, id);
    } else if ev.WriteChunk? && ev.ok {
      WriteBytes(e, id);
    } else {
      OtherSame(e, ev);
      SameBytesShow(e, Next(e, ev), id);
    }
  }

  lemma ReadBytes(e: Endpoint, i: nat, n: nat, id: uint32)
    requires Local(e) && i < |e.hist|
    ensures var e', r := ReadStream(e, i, n), ReadResult(e.core.objs[i], n);
      && Sent(e', id) == Sent(e, id)
      && Returned(e', id) == Returned(e, id) + (if r.Data? && e.core.objs[i].id == id then r.bytes else [])
  {
    hide Announced, Announcing, Written, Writers, ClosesOnce, Queued, Numbered, Fated, Lifecycle, ReadResult, AfterRead;
  }

  lemma WriteBytes(e: Endpoint, id: uint32)
    requires Local(e) && e.writeMu.Held?
    ensures var e' := WriteNextChunk(e);
      && Sent(e', id) == Sent(e, id) + (if e.core.objs[e.writeMu.i].id == id then NextChunk(e.writeMu) else [])
      && Returned(e', id) == Returned(e, id)
  {
    hide Announced, Announcing, Written, Writers, ClosesOnce, Queued, Numbered, Fated, Lifecycle, NextChunk;
  }

  lemma ViewIsFifo(s: System, reader: Side, id: uint32)
    requires Invariant(s)
    ensures View(s, reader, id).Fifo()
  {
    hide Linked, Announced, Announcing, Written, Writers, ClosesOnce, Queued, Numbered, Fated, Lifecycle, Buffered;
    var e, peer := s.At(reader), s.At(Peer(reader));
    if id in e.owner {
      assert e.core.objs[e.owner[id]].id == id;
      Conservation(e, peer, e.owner[id]);
    }
  }

  /** The end of a pipe is final. */
  lemma EndIsFinal(states: seq<System>, acts: seq<Action>, k: nat, reader: Side, id: uint32)
    requires Run(states, acts) && k < |acts|
    ensures var before, after := Ending(states[k].At(reader), id), Ending(states[k + 1].At(reader), id);
      before.Some? ==> after == before
  {
    hide Step, Linked, Announced, Announcing, Written, Writers, ClosesOnce, Queued, Numbered, Fated, Lifecycle, Got;
    MuxFlow.RunInvariant(states, acts, k);
    MuxFlow.RunInvariant(states, acts, k + 1);
    MuxHistory.RunFollows(states, acts, k, k + 1, reader);
    var e, e' := states[k].At(reader), states[k + 1].At(reader);
    if Ending(e, id).Some? {
      var i := e.owner[id];
      assert e.core.objs[i].id == id;
      assert MuxHistory.Follows(e.core.objs[i], e.hist[i], e'.core.objs[i], e'.hist[i]);
      assert e'.core.objs[i].id == id;
    }
  }

  /** Read says EOF only when everything up to the end has come out. */
  lemma EofAtEnd(e: Endpoint, ev: Event, id: uint32)
    requires Local(e) && Ready(e, ev) && SaysEof(e, ev, id)
    ensures Ending(e, id) == Some(Returned(e, id))
  {
    hide Announced, Announcing, Written, Writers, ClosesOnce, Queued, Numbered, Fated, Lifecycle, Buffered;
    ReadTakesFront(e.core.objs[ev.i], ev.n);
    assert e.owner[id] == ev.i;
    assert e.hist[ev.i].consumed + [] == e.hist[ev.i].consumed;
  }

  /** Refinement. Every step of every run acts on the pipes as follows: the chunk that writeStreamData frames
      is put into the pipe of its ID and of the direction to the peer; the bytes that Read returns are taken
      from the pipe of its ID and of the direction from the peer, and are the next ones; every other pipe, and
      every other step, puts in and takes out nothing. Where a pipe ends is final, and Read says EOF there. */
  lemma StepRefinesPipes(states: seq<System>, acts: seq<Action>, k: nat, reader: Side, id: uint32)
    requires Run(states, acts) && k < |acts|
    ensures var side, ev := acts[k].side, acts[k].ev; var e := states[k].At(side);
      var before, after := View(states[k], reader, id), View(states[k + 1], reader, id);
      && Shape(e) && Ready(e, ev)
      && before.Fifo() && after.Fifo()
      && after.sent == before.sent + (if side == Peer(reader) then Puts(e, ev, id) else [])
      && after.returned == before.returned + (if side == reader then Takes(e, ev, id) else [])
      && (before.end.Some? ==> after.end == before.end)
      && (side == reader && SaysEof(e, ev, id) ==> before.end == Some(before.returned))
  {
    hide SaysEof, Ending;
    hide Linked, Owned, Announced, Announcing, Written, Writers, ClosesOnce;
    hide Queued, Numbered, Fated, Lifecycle, Next, Ready, Puts, Takes;
    hide Sent, Returned;
    MuxFlow.RunInvariant(states, acts, k);
    MuxFlow.RunInvariant(states, acts, k + 1);
    var side, ev := acts[k].side, acts[k].ev;
    assert Step(states[k], side, ev, states[k + 1]);
    StepBytes(states[k].At(side), ev, id);
    ViewIsFifo(states[k], reader, id);
    ViewIsFifo(states[k + 1], reader, id);
    EndIsFinal(states, acts, k, reader, id);
    if side == reader && SaysEof(states[k].At(side), ev, id) {
      EofAtEnd(states[k].At(side), ev, id);
    }
  }
}
