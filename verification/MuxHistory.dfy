/** How a Stream evolves over a run. */
module MuxHistory {
  import opened Bytes
  import opened Frame
  import opened MuxCore
  import opened Mux
  import opened MuxInvariant
  import MuxLocal
  import MuxFlow

  /** A later state of the same Stream: its histories only grow, and once it was removed it stays removed, for
      the same reason, and gets no more bytes. */
  ghost predicate Follows(s: Stream, h: History, s': Stream, h': History) {
    && s'.id == s.id
    && h.written <= h'.written && h.consumed <= h'.consumed
    && (!s.chanOpen ==> !s'.chanOpen && h'.fate == h.fate && Got(s', h') == Got(s, h))
  }

  ghost predicate AllFollow(objs: seq<Stream>, hist: seq<History>, objs': seq<Stream>, hist': seq<History>) {
    && |hist| == |objs| <= |objs'| == |hist'|
    && (forall i :: 0 <= i < |objs| ==> Follows(objs[i], hist[i], objs'[i], hist'[i]))
  }

  lemma UnlinkFollows(e: Endpoint, id: uint32, fate: Fate)
    requires Local(e)
    ensures var e' := Unlink(e, id, fate); AllFollow(e.core.objs, e.hist, e'.core.objs, e'.hist)
  {
    hide Announced, Announcing, Written, Writers, ClosesOnce, Queued, Numbered, Fated;
  }

  lemma ShutFollows(e: Endpoint)
    requires Local(e)
    ensures var e' := CloseSession(e); AllFollow(e.core.objs, e.hist, e'.core.objs, e'.hist)
  {
    hide Announced, Announcing, Written, Writers, ClosesOnce, Queued, Numbered, Fated;
    MuxLocal.RemoveAllNeverPanics(e);
  }

  lemma ReplacedFollow(objs: seq<Stream>, hist: seq<History>, i: nat, s: Stream, h: History)
    requires |hist| == |objs| && i < |objs| && Follows(objs[i], hist[i], s, h)
    ensures AllFollow(objs, hist, objs[i := s], hist[i := h])
  {
  }

  lemma ReadFollowsAt(s: Stream, h: History, n: nat)
    ensures match ReadResult(s, n)
      case Data(b) => Follows(s, h, AfterRead(s, n), h.(consumed := h.consumed + b))
      case _ => Follows(s, h, AfterRead(s, n), h)
  {
    hide Buffered;
    ReadTakesFront(s, n);
    match ReadResult(s, n)
    case Data(b) => assert h.consumed + (b + Buffered(AfterRead(s, n))) == (h.consumed + b) + Buffered(AfterRead(s, n));
    case _ =>
  }

  lemma ReadFollows(e: Endpoint, i: nat, n: nat)
    requires Shape(e) && i < |e.hist|
    ensures var e' := ReadStream(e, i, n); AllFollow(e.core.objs, e.hist, e'.core.objs, e'.hist)
  {
    hide AfterRead, ReadResult, AllFollow, Follows;
    var s, h := e.core.objs[i], e.hist[i];
    ReadFollowsAt(s, h, n);
    match ReadResult(s, n)
    case Data(b) => ReplacedFollow(e.core.objs, e.hist, i, AfterRead(s, n), h.(consumed := h.consumed + b));
    case _ =>
      ReplacedFollow(e.core.objs, e.hist, i, AfterRead(s, n), h);
      assert e.hist[i := h] == e.hist;
  }

  lemma EnterFollows(e: Endpoint, c: Core, id: uint32, target: Bytes, origin: Origin)
    requires Shape(e) && c.objs == e.core.objs + [NewStream(id, target)]
    ensures var e' := Enter(e, c, id, origin); AllFollow(e.core.objs, e.hist, e'.core.objs, e'.hist)
  {
  }

  lemma HandleFollows(e: Endpoint, f: Frame)
    requires Local(e)
    ensures var e' := Handle(e, f); AllFollow(e.core.objs, e.hist, e'.core.objs, e'.hist)
  {
    hide Announced, Announcing, Written, Writers, ClosesOnce, Queued;
    hide Numbered, Fated, Lifecycle, Owned, AllFollow, Unlink;
    FollowsItself(e);
    if f.kind == STREAM_OPEN {
      EnterFollows(e.(rd := e.rd + 1), Insert(e.core, f.id, f.payload), f.id, f.payload, Arrived(e.rd));
    } else if f.kind == STREAM_CLOSE {
      MuxLocal.FlagsKeep(e, e.panic, e.connUp, e.shutdown, e.core.acceptOpen, e.rd + 1);
      assert e.core.(acceptOpen := e.core.acceptOpen) == e.core;
      UnlinkFollows(e.(rd := e.rd + 1), f.id, ClosedByPeer);
    }
  }

  /** Events that touch neither the Streams nor the bytes of Read. */
  predicate Still(ev: Event) {
    && !ev.OpenStream? && !ev.CallClose? && !ev.Read? && !ev.Receive? && !ev.Deliver?
    && !ev.CloseStream? && !ev.Reject? && !ev.GiveUp? && !ev.ShutStreams?
  }

  lemma HistFollows(e: Endpoint, i: nat, h: History)
    requires Shape(e) && i < |e.hist| && h.consumed == e.hist[i].consumed && h.fate == e.hist[i].fate
    requires e.hist[i].written <= h.written
    ensures AllFollow(e.core.objs, e.hist, e.core.objs, e.hist[i := h])
  {
  }

  lemma StillFollows(e: Endpoint, ev: Event)
    requires Shape(e) && Ready(e, ev) && Still(ev)
    ensures var e' := Next(e, ev); AllFollow(e.core.objs, e.hist, e'.core.objs, e'.hist)
  {
    hide NextChunk, AllFollow, WellFormed;
    FollowsItself(e);
    if ev.SendOpen? && ev.ok {
      HistFollows(e, ev.i, Next(e, ev).hist[ev.i]);
    } else if ev.WriteChunk? && ev.ok {
      HistFollows(e, e.writeMu.i, Next(e, ev).hist[e.writeMu.i]);
    } else if ev.Accept? {
      AcceptFollows(e);
    }
  }

  lemma AcceptFollows(e: Endpoint)
    requires Shape(e) && e.core.acceptChan != []
    ensures var e' := AcceptNext(e); AllFollow(e.core.objs, e.hist, e'.core.objs, e'.hist)
  {
    HistFollows(e, e.core.acceptChan[0], AcceptNext(e).hist[e.core.acceptChan[0]]);
  }

  lemma SetFollows(e: Endpoint, i: nat, s: Stream)
    requires Shape(e) && i < |e.hist| && Follows(e.core.objs[i], e.hist[i], s, e.hist[i])
    ensures AllFollow(e.core.objs, e.hist, e.core.objs[i := s], e.hist)
  {
  }

  lemma StepFollows(e: Endpoint, ev: Event)
    requires Local(e) && Ready(e, ev)
    ensures var e' := Next(e, ev); AllFollow(e.core.objs, e.hist, e'.core.objs, e'.hist)
  {
    hide Owned, Lifecycle, Fated, Numbered, Announced, Announcing;
    hide Written, Writers, ClosesOnce, Queued, WellFormed, AllFollow;
    hide Handle, Unlink, ReadStream, CloseSession, SendOpenFrame, WriteNextChunk, AcceptNext, OfferStream, AfterRead;
    if Still(ev) {
      StillFollows(e, ev);
    } else if ev.OpenStream? {
      EnterFollows(e, Register(e.core, ev.target), NextID(e.core), ev.target, Opened(e.opens + 1, -1));
    } else if ev.CallClose? {
      SetFollows(e, ev.i, e.core.objs[ev.i].(closed := true));
    } else if ev.Deliver? {
      FollowsItself(e);
      if e.core.objs[e.loop.i].chanOpen {
        SetFollows(e, e.loop.i, Push(e.core.objs[e.loop.i], e.loop.chunk));
      }
    } else if ev.Receive? {
      HandleFollows(e, ev.frame);
    } else if ev.Read? {
      ReadFollows(e, ev.i, ev.n);
    } else if ev.ShutStreams? {
      ShutFollows(e);
    } else if ev.CloseStream? {
      MuxLocal.FinishKeeps(e, Closing(ev.id));
      UnlinkFollows(Finish(e, Closing(ev.id)), ev.id, ClosedHere);
    } else {
      UnlinkFollows(e, e.core.objs[e.loop.i].id, ClosedHere);
    }
  }

  lemma FollowsTrans(a: Endpoint, b: Endpoint, c: Endpoint)
    requires AllFollow(a.core.objs, a.hist, b.core.objs, b.hist) && AllFollow(b.core.objs, b.hist, c.core.objs, c.hist)
    ensures AllFollow(a.core.objs, a.hist, c.core.objs, c.hist)
  {
  }

  lemma {:induction false} RunFollows(states: seq<System>, acts: seq<Action>, j: nat, k: nat, side: Side)
    requires Run(states, acts) && j <= k < |states|
    ensures var a, b := states[j].At(side), states[k].At(side); AllFollow(a.core.objs, a.hist, b.core.objs, b.hist)
    decreases k
  {
    hide Linked, AllFollow, Next, Ready, Owned, Lifecycle, Fated;
    hide Numbered, Announced, Announcing, Written, Writers, ClosesOnce, Queued;
    if j == k {
      MuxFlow.RunInvariant(states, acts, k);
      FollowsItself(states[k].At(side));
    } else {
      RunFollows(states, acts, j, k - 1, side);
      MuxFlow.RunInvariant(states, acts, k - 1);
      var act := acts[k - 1];
      assert Step(states[k - 1], act.side, act.ev, states[k]);
      StepFollows(states[k - 1].At(act.side), act.ev);
      if side != act.side {
        FollowsItself(states[k - 1].At(side));
      }
      FollowsTrans(states[j].At(side), states[k - 1].At(side), states[k].At(side));
    }
  }

  lemma FollowsItself(e: Endpoint)
    requires |e.hist| == |e.core.objs|
    ensures AllFollow(e.core.objs, e.hist, e.core.objs, e.hist)
  {
  }
}
