/** Two sessions joined by two byte streams refine two sessions joined by two queues of frames: what a reader
    parses off the bytes is exactly what the writer framed, in order, whatever the padding, the nonces and the
    byte at which a connection breaks. */
module ByteWire {
  import opened Bytes
  import opened Crypto
  import opened Frame
  import opened MuxCore
  import opened Mux
  import MuxInvariant
  import MuxFlow
  import MuxTheorems
  import MuxPipes

  /** out is every byte this side ever wrote and pos how many of the peer's bytes it has read. History: the
      noise of each whole frame, and the strict prefix of a frame at which the connection broke. */
  datatype Node = Node(e: Endpoint, out: Bytes, pos: nat, noises: seq<Noise>, tear: Bytes)

  datatype Net = Net(server: Node, client: Node) {
    function At(side: Side): Node {
      if side == AtServer then server else client
    }

    function With(side: Side, n: Node): Net {
      if side == AtServer then this.(server := n) else this.(client := n)
    }

    function Frames(): System {
      System(server.e, client.e)
    }
  }

  function NewNode(isServer: bool): Node {
    Node(NewEndpoint(isServer), [], 0, [], [])
  }

  function NewNet(): Net {
    Net(NewNode(true), NewNode(false))
  }

  /** A strict prefix of some frame: what a failed write may leave behind. */
  ghost predicate Torn(c: Aead, tear: Bytes) {
    tear == [] || exists f, n {:trigger Encode(c, f, n)} ::
      Representable(f) && ValidNoise(n) && tear <= Encode(c, f, n) && tear != Encode(c, f, n)
  }

  /** The target of a stream is short enough for the length field of its StreamOpen frame. */
  predicate Announceable(s: Stream) {
    Representable(Frame(STREAM_OPEN, s.id, s.target))
  }

  /** A frame is received if ReadFrame parses it off the unread bytes. */
  ghost predicate ByteEnabled(c: Aead, n: Node, ev: Event, noise: Noise, tear: Bytes, peerOut: Bytes) {
    && Shape(n.e) && Ready(n.e, ev)
    && ValidNoise(noise) && Torn(c, tear)
    && (tear != [] ==> ev.BreakWire? && n.e.connUp)
    && (ev.SendOpen? ==> Announceable(n.e.core.objs[ev.i]))
    && (ev.Receive? ==>
          && n.pos <= |peerOut|
          && Parse(c, peerOut[n.pos..]).Parsed? && Parse(c, peerOut[n.pos..]).frame == ev.frame)
  }

  /** WriteFrame for each frame the step writes; ReadFrame for the one it reads. */
  ghost function ByteNext(c: Aead, n: Node, ev: Event, noise: Noise, tear: Bytes, peerOut: Bytes): Node
    requires ByteEnabled(c, n, ev, noise, tear, peerOut)
  {
    var e' := Next(n.e, ev);
    var wrote := |e'.log| > |n.e.log|;
    Node(e',
         n.out + (if wrote then Encode(c, e'.log[|e'.log| - 1], noise) else []) + tear,
         if ev.Receive? then |peerOut| - |Parse(c, peerOut[n.pos..]).rest| else n.pos,
         if wrote then n.noises + [noise] else n.noises,
         n.tear + tear)
  }

  datatype ByteAction = ByteAction(act: Action, noise: Noise, tear: Bytes)

  ghost predicate ByteStep(c: Aead, s: Net, b: ByteAction, s': Net) {
    var n, peer := s.At(b.act.side), s.At(Peer(b.act.side));
    && ByteEnabled(c, n, b.act.ev, b.noise, b.tear, peer.out)
    && s' == s.With(b.act.side, ByteNext(c, n, b.act.ev, b.noise, b.tear, peer.out))
  }

  ghost predicate ByteRun(c: Aead, states: seq<Net>, acts: seq<ByteAction>) {
    && |states| == |acts| + 1
    && states[0] == NewNet()
    && (forall k :: 0 <= k < |acts| ==> ByteStep(c, states[k], acts[k], states[k + 1]))
  }

  /** The bytes a side wrote are its frames, and perhaps a torn one at which its connection broke. */
  ghost predicate Writes(c: Aead, n: Node) {
    && |n.noises| == |n.e.log|
    && (forall k :: 0 <= k < |n.noises| ==> ValidNoise(n.noises[k]) && Representable(n.e.log[k]))
    && n.out == Framed(c, n.e.log, n.noises) + n.tear
    && Torn(c, n.tear)
    && (n.tear != [] ==> !n.e.connUp)
  }

  /** A side stands at the boundary between the frames it read and the others. */
  ghost predicate Reads(c: Aead, n: Node, peer: Node) {
    && |peer.noises| == |peer.e.log| && n.e.rd <= |peer.e.log|
    && n.pos == |Framed(c, peer.e.log[..n.e.rd], peer.noises[..n.e.rd])|
  }

  lemma Unread(c: Aead, n: Node, peer: Node)
    requires Writes(c, peer) && Reads(c, n, peer)
    ensures n.pos <= |peer.out|
    ensures peer.out[n.pos..] == Framed(c, peer.e.log[n.e.rd..], peer.noises[n.e.rd..]) + peer.tear
  {
    hide Encode;
    FramedSplit(c, peer.e.log, peer.noises, n.e.rd);
    var done := Framed(c, peer.e.log[..n.e.rd], peer.noises[..n.e.rd]);
    var left := Framed(c, peer.e.log[n.e.rd..], peer.noises[n.e.rd..]);
    assert peer.out == done + (left + peer.tear);
  }

  lemma TornNeverParses(c: Aead, tear: Bytes)
    requires Correct(c) && Torn(c, tear)
    ensures Parse(c, tear).Failed?
  {
    if tear != [] {
      var f, n :| Representable(f) && ValidNoise(n) && tear <= Encode(c, f, n) && tear != Encode(c, f, n);
      PrefixNeverParses(c, f, n, tear);
    }
  }

  /** What ReadFrame makes of the unread bytes: the next frame, if there is one and it fits the size limit,
      and then it stops at the next boundary; it never makes anything else of them. */
  lemma ReadsNextFrame(c: Aead, n: Node, peer: Node)
    requires Correct(c) && Writes(c, peer) && Reads(c, n, peer)
    ensures n.pos <= |peer.out|
    ensures var r := Parse(c, peer.out[n.pos..]);
      if n.e.rd < |peer.e.log| && Fits(peer.e.log[n.e.rd], peer.noises[n.e.rd])
      then r.Parsed? && r.frame == peer.e.log[n.e.rd] &&
           |peer.out| - |r.rest| == |Framed(c, peer.e.log[..n.e.rd + 1], peer.noises[..n.e.rd + 1])|
      else r.Failed?
  {
    hide Encode, Parse;
    Unread(c, n, peer);
    var fs, ns := peer.e.log[n.e.rd..], peer.noises[n.e.rd..];
    if fs == [] {
      assert peer.out[n.pos..] == peer.tear;
      TornNeverParses(c, peer.tear);
    } else {
      FramedHead(c, fs, ns);
      var rest := Framed(c, fs[1..], ns[1..]) + peer.tear;
      assert peer.out[n.pos..] == Encode(c, fs[0], ns[0]) + rest;
      EncodeParse(c, fs[0], ns[0], rest);
      FramedSnoc(c, peer.e.log[..n.e.rd], peer.noises[..n.e.rd], fs[0], ns[0]);
      assert peer.e.log[..n.e.rd + 1] == peer.e.log[..n.e.rd] + [fs[0]];
      assert peer.noises[..n.e.rd + 1] == peer.noises[..n.e.rd] + [ns[0]];
    }
  }

  /** What a step does to the wire: it writes at most one frame, of a length that the length field can hold and
      only while the connection is up, and reads one exactly when it receives. */
  ghost predicate OnWire(e: Endpoint, received: bool, e': Endpoint) {
    && (e'.log == e.log ||
        (|e'.log| == |e.log| + 1 && e'.log[..|e.log|] == e.log && Representable(e'.log[|e.log|])
          && e.connUp && e'.connUp))
    && (e'.connUp ==> e.connUp)
    && e'.rd == (if received then e.rd + 1 else e.rd)
  }

  lemma UnlinkOnWire(e: Endpoint, id: uint32, fate: Fate)
    requires Shape(e)
    ensures OnWire(e, false, Unlink(e, id, fate))
  {
    hide Remove;
  }

  lemma HandleOnWire(e: Endpoint, f: Frame)
    requires Shape(e)
    ensures OnWire(e, true, Handle(e, f))
  {
    hide Unlink, Insert;
    UnlinkOnWire(e.(rd := e.rd + 1), f.id, ClosedByPeer);
  }

  /** Every chunk of writeStreamData is below the limit of ReadFrame, with any padding. */
  lemma ChunksFit(w: WriteLock, id: uint32, n: Noise)
    requires w.Held? && w.offset <= |w.data| && ValidNoise(n)
    ensures Fits(Frame(DATA, id, NextChunk(w)), n) && Representable(Frame(DATA, id, NextChunk(w)))
  {
  }

  lemma SendOnWire(e: Endpoint, i: nat, ok: bool)
    requires Shape(e) && i < |e.hist| && (ok ==> e.connUp)
    ensures Announceable(e.core.objs[i]) ==> OnWire(e, false, SendOpenFrame(e, i, ok))
    ensures ok && e.writeMu.Held? ==> OnWire(e, false, WriteNextChunk(e))
  {
    hide NextChunk;
    if e.writeMu.Held? {
      ChunksFit(e.writeMu, e.core.objs[e.writeMu.i].id, Noise([], [0, 0, 0, 0, 0, 0, 0, 0, 0, 0, 0, 0]));
    }
  }

  lemma PassiveOnWire(e: Endpoint, ev: Event)
    requires Shape(e) && Ready(e, ev)
    requires ev.Offer? || ev.Deliver? || ev.Accept? || ev.ShutStreams? || ev.Read?
    ensures OnWire(e, false, Next(e, ev))
  {
    hide AfterRead, ReadResult, RemoveAll, WellFormed;
  }

  lemma StepOnWire(e: Endpoint, ev: Event)
    requires Shape(e) && Ready(e, ev) && (ev.SendOpen? ==> Announceable(e.core.objs[ev.i]))
    ensures OnWire(e, ev.Receive?, Next(e, ev))
  {
    hide Unlink, Handle, Enter, SendOpenFrame, WriteNextChunk, WellFormed, Register;
    hide OfferStream, DeliverChunk, AcceptNext, CloseSession, ReadStream;
    if ev.Offer? || ev.Deliver? || ev.Accept? || ev.ShutStreams? || ev.Read? {
      PassiveOnWire(e, ev);
    } else if ev.Receive? {
      HandleOnWire(e, ev.frame);
    } else if ev.SendOpen? {
      SendOnWire(e, ev.i, ev.ok);
    } else if ev.WriteChunk? {
      SendOnWire(e, e.writeMu.i, ev.ok);
    } else if ev.CloseStream? {
      UnlinkOnWire(Finish(e, Closing(ev.id)), ev.id, ClosedHere);
    } else if ev.Reject? || ev.GiveUp? {
      UnlinkOnWire(e, e.core.objs[e.loop.i].id, ClosedHere);
    } else if ev.OpenStream? {
      EnterOnWire(e, Register(e.core, ev.target), NextID(e.core), Opened(e.opens + 1, -1));
    }
  }

  lemma EnterOnWire(e: Endpoint, c: Core, id: uint32, origin: Origin)
    ensures var e' := Enter(e, c, id, origin); e'.log == e.log && e'.rd == e.rd && e'.connUp == e.connUp
  {
  }

  ghost predicate WritesAs(c: Aead, log: seq<Frame>, noises: seq<Noise>, out: Bytes) {
    && |noises| == |log|
    && (forall k :: 0 <= k < |noises| ==> ValidNoise(noises[k]) && Representable(log[k]))
    && out == Framed(c, log, noises)
  }

  lemma WritesSnoc(c: Aead, log: seq<Frame>, noises: seq<Noise>, out: Bytes, f: Frame, noise: Noise)
    requires WritesAs(c, log, noises, out) && ValidNoise(noise) && Representable(f)
    ensures WritesAs(c, log + [f], noises + [noise], out + Encode(c, f, noise))
  {
    hide Encode, Representable, ValidNoise;
    FramedSnoc(c, log, noises, f, noise);
  }

  lemma TearBreaks(e: Endpoint, ev: Event, tear: Bytes)
    requires Shape(e) && Ready(e, ev) && (tear != [] ==> ev.BreakWire?)
    ensures tear != [] ==> Next(e, ev).log == e.log && !Next(e, ev).connUp
  {
  }

  lemma WritesKept(c: Aead, n: Node, ev: Event, noise: Noise, tear: Bytes, peerOut: Bytes)
    requires Writes(c, n) && ByteEnabled(c, n, ev, noise, tear, peerOut)
    ensures Writes(c, ByteNext(c, n, ev, noise, tear, peerOut))
  {
    hide Next, Ready, Parse, Encode, Torn, Representable, ValidNoise, Framed;
    StepOnWire(n.e, ev);
    TearBreaks(n.e, ev, tear);
    var n' := ByteNext(c, n, ev, noise, tear, peerOut);
    assert WritesAs(c, n.e.log, n.noises, Framed(c, n.e.log, n.noises));
    if |n'.e.log| > |n.e.log| {
      var f := n'.e.log[|n.e.log|];
      assert n'.e.log == n.e.log + [f];
      WritesSnoc(c, n.e.log, n.noises, Framed(c, n.e.log, n.noises), f, noise);
      assert n.tear == [] && tear == [];
      assert n.out == Framed(c, n.e.log, n.noises);
      assert n'.out == n.out + Encode(c, f, noise);
    } else {
      var framed := Framed(c, n.e.log, n.noises);
      assert n.tear + tear == if tear == [] then n.tear else tear;
      assert n'.out == framed + n.tear + [] + tear && n'.out == framed + (n.tear + tear);
    }
  }

  ghost predicate NetInvariant(c: Aead, s: Net) {
    && Writes(c, s.server) && Writes(c, s.client)
    && Reads(c, s.server, s.client) && Reads(c, s.client, s.server)
  }

  /** The peer stays at its boundary while this side writes on. */
  lemma ReadsKept(c: Aead, peer: Node, n: Node, n': Node)
    requires Reads(c, peer, n) && |n'.noises| == |n'.e.log| && n.e.log <= n'.e.log && n.noises <= n'.noises
    ensures Reads(c, peer, n')
  {
    hide Framed;
    assert n'.e.log[..peer.e.rd] == n.e.log[..peer.e.rd] && n'.noises[..peer.e.rd] == n.noises[..peer.e.rd];
  }

  /** A byte step is a frame step, and keeps every boundary. */
  lemma ByteStepRefines(c: Aead, s: Net, b: ByteAction, s': Net)
    requires Correct(c) && NetInvariant(c, s) && ByteStep(c, s, b, s')
    ensures Step(s.Frames(), b.act.side, b.act.ev, s'.Frames()) && NetInvariant(c, s')
  {
    hide Next, Ready, Parse, Writes, Encode, Fits, Torn, Representable, Framed;
    var side, ev := b.act.side, b.act.ev;
    var n, peer := s.At(side), s.At(Peer(side));
    var n' := s'.At(side);
    WritesKept(c, n, ev, b.noise, b.tear, peer.out);
    StepOnWire(n.e, ev);
    ReadsNextFrame(c, n, peer);
    NoisesGrow(c, n, ev, b.noise, b.tear, peer.out);
    ReadsKept(c, peer, n, n');
  }

  lemma NoisesGrow(c: Aead, n: Node, ev: Event, noise: Noise, tear: Bytes, peerOut: Bytes)
    requires Writes(c, n) && ByteEnabled(c, n, ev, noise, tear, peerOut)
    ensures var n' := ByteNext(c, n, ev, noise, tear, peerOut);
      |n'.noises| == |n'.e.log| && n.e.log <= n'.e.log && n.noises <= n'.noises
  {
    hide Next, Ready, Parse, Encode, Torn, Framed;
    WritesKept(c, n, ev, noise, tear, peerOut);
    StepOnWire(n.e, ev);
  }

  ghost function FrameStates(states: seq<Net>): seq<System> {
    seq(|states|, k requires 0 <= k < |states| => states[k].Frames())
  }

  ghost function FrameActs(acts: seq<ByteAction>): seq<Action> {
    seq(|acts|, k requires 0 <= k < |acts| => acts[k].act)
  }

  lemma {:induction false} ByteInvariant(c: Aead, states: seq<Net>, acts: seq<ByteAction>, k: nat)
    requires Correct(c) && ByteRun(c, states, acts) && k < |states|
    ensures NetInvariant(c, states[k])
    ensures k > 0 ==> Step(states[k - 1].Frames(), acts[k - 1].act.side, acts[k - 1].act.ev, states[k].Frames())
  {
    hide ByteStep, Step;
    if k == 0 {
      assert Encodings(c, [], []) == [];
    } else {
      hide NetInvariant;
      ByteInvariant(c, states, acts, k - 1);
      ByteStepRefines(c, states[k - 1], acts[k - 1], states[k]);
    }
  }

  /** Every run over byte streams is a run over frame queues, step by step. */
  lemma ByteRunRefines(c: Aead, states: seq<Net>, acts: seq<ByteAction>)
    requires Correct(c) && ByteRun(c, states, acts)
    ensures Run(FrameStates(states), FrameActs(acts))
  {
    hide ByteStep, Step, NetInvariant;
    forall k | 0 <= k < |acts|
      ensures Step(FrameStates(states)[k], acts[k].act.side, acts[k].act.ev, FrameStates(states)[k + 1])
    {
      ByteInvariant(c, states, acts, k + 1);
    }
  }

  /** End to end over bytes: what Read has returned on a stream is a prefix of what the peer's Write framed on
      it, over every run of two sessions that share a TCP connection in each direction. */
  lemma EndToEndOverBytes(c: Aead, states: seq<Net>, acts: seq<ByteAction>, k: nat, side: Side, id: uint32)
    requires Correct(c) && ByteRun(c, states, acts) && k < |states|
    ensures MuxTheorems.Returned(states[k].At(side).e, id) <= MuxTheorems.Sent(states[k].At(Peer(side)).e, id)
  {
    hide ByteRun, Run, MuxInvariant.Local, MuxInvariant.Linked, Buffered, MuxTheorems.Sent, MuxTheorems.Returned;
    ByteRunRefines(c, states, acts);
    MuxFlow.RunInvariant(FrameStates(states), FrameActs(acts), k);
    MuxPipes.ViewIsFifo(FrameStates(states)[k], side, id);
  }
}
