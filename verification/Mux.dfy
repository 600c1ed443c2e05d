/** core/mux/session.go and stream.go as a labelled transition system: one endpoint of a session, one step per
    lock-held region or channel operation, and two endpoints joined by two queues of frames. */
module Mux {
  import opened Bytes
  import opened Wrappers
  import opened Frame
  import opened MuxCore

  /** A goroutine other than readLoop, by what it does next: send the StreamOpen frame of Stream i, take the
      write lock to write data on Stream i, run closeStream, or send the StreamClose frame of an ID. */
  datatype Thread = OpenSend(i: nat) | Writing(i: nat, data: Bytes) | Closing(id: uint32) | CloseSend(id: uint32)

  /** writeMu; while it is held by writeStreamData, how far its loop has come. */
  datatype WriteLock = Free | Held(i: nat, data: Bytes, offset: nat)

  /** Where readLoop is. */
  datatype Loop =
    | Idle
    | Offering(i: nat)
    | Rejecting(i: nat)
    | Delivering(i: nat, chunk: Bytes)
    | TimedOut(i: nat, chunk: Bytes)
    | Answering
    | Stopped

  datatype Panic = SendOnClosedStream | SendOnClosedAccept | CloseOfClosed

  /** History: the endpoint's order-th own stream, and the position of its StreamOpen frame among the frames
      it sent (-1 before); or a stream of the peer, and the position of its StreamOpen frame. */
  datatype Origin = Opened(order: nat, sentAt: int) | Arrived(at: nat)

  /** History: what removed a Stream from the map. */
  datatype Fate = Live | ClosedHere | ClosedByPeer | ClosedWithSession

  /** History of a Stream object: whether a caller holds it, the bytes its Write calls have framed, and the
      bytes its Read calls have returned. */
  datatype History = History(origin: Origin, handed: bool, written: Bytes, consumed: Bytes, fate: Fate)

  /** shutdown counts the steps Close has done. log lists every frame ever written whole, and rd counts the
      peer's frames read. hist runs parallel to core.objs; owner maps an ID to the first Stream that had it. */
  datatype Endpoint = Endpoint(
    isServer: bool, core: Core, threads: multiset<Thread>, writeMu: WriteLock, loop: Loop,
    panic: Option<Panic>, connUp: bool, shutdown: nat, log: seq<Frame>, rd: nat,
    hist: seq<History>, opens: nat, owner: map<uint32, nat>, accepted: seq<nat>)

  const MAX_OPENS: nat := 0x8000_0000

  function NewEndpoint(isServer: bool): Endpoint {
    Endpoint(isServer, NewCore(isServer), multiset{}, Free, Idle, None, true, 0, [], 0, [], 0, map[], [])
  }

  /** ok says whether a frame was written whole. A frame may fail to be written at any time. */
  datatype Event =
    | OpenStream(target: Bytes)
    | SendOpen(i: nat, ok: bool)
    | CallWrite(i: nat, data: Bytes)
    | BeginWrite(i: nat, data: Bytes)
    | WriteChunk(ok: bool)
    | EndWrite
    | CallClose(i: nat)
    | CloseStream(id: uint32)
    | SendClose(id: uint32, ok: bool)
    | Accept
    | Read(i: nat, n: nat)
    | Receive(frame: Frame)
    | Offer
    | Reject
    | Deliver
    | Timeout
    | GiveUp
    | Answer(ok: bool)
    | SendPing(ok: bool)
    | StopLoop
    | ShutStreams
    | ShutAccept
    | ShutConn
    | BreakWire

  /** Positions used by the shared state, by readLoop and by the holder of writeMu are positions of existing Streams. */
  ghost predicate Shape(e: Endpoint) {
    && |e.hist| == |e.core.objs|
    && WellFormed(e.core)
    && (e.loop.Offering? || e.loop.Rejecting? || e.loop.Delivering? || e.loop.TimedOut? ==> e.loop.i < |e.hist|)
    && (e.writeMu.Held? ==> e.writeMu.i < |e.hist| && e.writeMu.offset <= |e.writeMu.data|)
  }

  /** A caller holds Stream i. */
  predicate Holds(e: Endpoint, i: nat) {
    i < |e.hist| && i < |e.core.objs| && e.hist[i].handed
  }

  /** A send into the channel of s waits: it is open and full. */
  predicate MustWait(s: Stream) {
    s.chanOpen && |s.chan| >= READ_QUEUE
  }

  ghost predicate Ready(e: Endpoint, ev: Event)
    requires Shape(e)
  {
    && e.panic.None?
    && match ev
       case OpenStream(_) => !e.core.closed && e.opens < MAX_OPENS
       case SendOpen(i, ok) => i < |e.hist| && OpenSend(i) in e.threads && e.writeMu.Free? && (ok ==> e.connUp)
       case CallWrite(i, _) => Holds(e, i) && !e.core.objs[i].closed
       case BeginWrite(i, data) => Writing(i, data) in e.threads && e.writeMu.Free?
       case WriteChunk(ok) => e.writeMu.Held? && e.writeMu.offset < |e.writeMu.data| && (ok ==> e.connUp)
       case EndWrite => e.writeMu.Held? && e.writeMu.offset == |e.writeMu.data|
       case CallClose(i) => Holds(e, i) && !e.core.objs[i].closed
       case CloseStream(id) => Closing(id) in e.threads
       case SendClose(id, ok) => CloseSend(id) in e.threads && e.writeMu.Free? && (ok ==> e.connUp)
       case Accept => e.core.acceptChan != []
       case Read(i, _) => Holds(e, i)
       case Receive(_) => e.loop.Idle? && e.shutdown < 3
       case Offer => e.loop.Offering?
       case Reject => e.loop.Rejecting?
       case Deliver => e.loop.Delivering? && !MustWait(e.core.objs[e.loop.i])
       case Timeout => e.loop.Delivering? && MustWait(e.core.objs[e.loop.i])
       case GiveUp => e.loop.TimedOut?
       case Answer(ok) => e.loop.Answering? && e.writeMu.Free? && (ok ==> e.connUp)
       case SendPing(ok) => e.writeMu.Free? && !e.core.closed && (ok ==> e.connUp)
       case StopLoop => e.loop.Idle?
       case ShutStreams => e.shutdown == 0
       case ShutAccept => e.shutdown == 1
       case ShutConn => e.shutdown == 2
       case BreakWire => true
  }

  /** A Stream object enters the tables; c is the shared state with it. */
  function Enter(e: Endpoint, c: Core, id: uint32, origin: Origin): Endpoint {
    e.(core := c,
       hist := e.hist + [History(origin, false, [], [], Live)],
       owner := if id in e.owner then e.owner else e.owner[id := |e.core.objs|])
  }

  function SetHist(e: Endpoint, i: nat, h: History): Endpoint
    requires i < |e.hist|
  {
    e.(hist := e.hist[i := h])
  }

  function Send(e: Endpoint, f: Frame): Endpoint {
    e.(log := e.log + [f])
  }

  function Fork(e: Endpoint, t: Thread): Endpoint {
    e.(threads := e.threads + multiset{t})
  }

  function Finish(e: Endpoint, t: Thread): Endpoint {
    e.(threads := e.threads - multiset{t})
  }

  /** A locked region that takes id out of the map and closes its channel. */
  function Unlink(e: Endpoint, id: uint32, fate: Fate): Endpoint
    requires Shape(e)
  {
    if id !in e.core.streams then e
    else if RemovePanics(e.core, id) then e.(panic := Some(CloseOfClosed))
    else var i := e.core.streams[id]; SetHist(e, i, e.hist[i].(fate := fate)).(core := Remove(e.core, id))
  }

  /** closeStream: the locked region, and the StreamClose frame still to be sent if id was in the map. */
  function CloseLocally(e: Endpoint, id: uint32): Endpoint
    requires Shape(e)
  {
    var e' := Unlink(e, id, ClosedHere);
    if id in e.core.streams then Fork(e', CloseSend(id)) else e'
  }

  /** One turn of the readLoop switch. */
  function Handle(e: Endpoint, f: Frame): Endpoint
    requires Shape(e)
  {
    var e' := e.(rd := e.rd + 1);
    if f.kind == STREAM_OPEN then
      Enter(e', Insert(e.core, f.id, f.payload), f.id, Arrived(e.rd)).(loop := Offering(|e.core.objs|))
    else if f.kind == DATA then
      if f.id in e.core.streams then e'.(loop := Delivering(e.core.streams[f.id], f.payload)) else e'
    else if f.kind == STREAM_CLOSE then Unlink(e', f.id, ClosedByPeer)
    else if f.kind == PING then e'.(loop := Answering)
    else e'
  }

  function OfferStream(e: Endpoint): Endpoint
    requires e.loop.Offering?
  {
    if !e.core.acceptOpen then e.(panic := Some(SendOnClosedAccept))
    else if |e.core.acceptChan| < ACCEPT_QUEUE then e.(core := PushAccept(e.core, e.loop.i), loop := Idle)
    else e.(loop := Rejecting(e.loop.i))
  }

  function DeliverChunk(e: Endpoint): Endpoint
    requires Shape(e) && e.loop.Delivering?
  {
    var s := e.core.objs[e.loop.i];
    if !s.chanOpen then e.(panic := Some(SendOnClosedStream))
    else e.(core := SetStream(e.core, e.loop.i, Push(s, e.loop.chunk)), loop := Idle)
  }

  function SendOpenFrame(e: Endpoint, i: nat, ok: bool): Endpoint
    requires Shape(e) && i < |e.hist|
  {
    var e', s := Finish(e, OpenSend(i)), e.core.objs[i];
    if !ok then Fork(e', Closing(s.id))
    else
      var origin := if e.hist[i].origin.Opened? then e.hist[i].origin.(sentAt := |e.log|) else e.hist[i].origin;
      SetHist(Send(e', Frame(STREAM_OPEN, s.id, s.target)), i, e.hist[i].(origin := origin, handed := true))
  }

  /** The chunk that the loop of writeStreamData sends next. */
  function NextChunk(w: WriteLock): Bytes
    requires w.Held? && w.offset <= |w.data|
  {
    ChunkAt(w.data, w.offset)
  }

  function WriteNextChunk(e: Endpoint): Endpoint
    requires Shape(e) && e.writeMu.Held?
  {
    var i, chunk := e.writeMu.i, NextChunk(e.writeMu);
    SetHist(Send(e, Frame(DATA, e.core.objs[i].id, chunk)), i, e.hist[i].(written := e.hist[i].written + chunk))
      .(writeMu := e.writeMu.(offset := e.writeMu.offset + |chunk|))
  }

  function ReadStream(e: Endpoint, i: nat, n: nat): Endpoint
    requires Shape(e) && i < |e.hist|
  {
    var s := e.core.objs[i];
    var e' := e.(core := SetStream(e.core, i, AfterRead(s, n)));
    match ReadResult(s, n)
    case Data(b) => SetHist(e', i, e.hist[i].(consumed := e.hist[i].consumed + b))
    case _ => e'
  }

  function AcceptNext(e: Endpoint): Endpoint
    requires Shape(e) && e.core.acceptChan != []
  {
    var i := e.core.acceptChan[0];
    SetHist(e, i, e.hist[i].(handed := true)).(core := PopAccept(e.core), accepted := e.accepted + [i])
  }

  ghost function CloseSession(e: Endpoint): Endpoint
    requires Shape(e)
  {
    if RemoveAllPanics(e.core) then e.(panic := Some(CloseOfClosed))
    else e.(core := RemoveAll(e.core), shutdown := 1,
            hist := seq(|e.hist|, i requires 0 <= i < |e.hist| =>
              if Registered(e.core, i) then e.hist[i].(fate := ClosedWithSession) else e.hist[i]))
  }

  ghost function Next(e: Endpoint, ev: Event): Endpoint
    requires Shape(e) && Ready(e, ev)
  {
    match ev
    case OpenStream(target) =>
      Fork(Enter(e, Register(e.core, target), NextID(e.core), Opened(e.opens + 1, -1)), OpenSend(|e.core.objs|))
        .(opens := e.opens + 1)
    case SendOpen(i, ok) => SendOpenFrame(e, i, ok)
    case CallWrite(i, data) => Fork(e, Writing(i, data))
    case BeginWrite(i, data) =>
      if e.core.closed then Finish(e, Writing(i, data)) else Finish(e, Writing(i, data)).(writeMu := Held(i, data, 0))
    case WriteChunk(ok) => if ok then WriteNextChunk(e) else e.(writeMu := Free)
    case EndWrite => e.(writeMu := Free)
    case CallClose(i) =>
      Fork(e.(core := SetStream(e.core, i, e.core.objs[i].(closed := true))), Closing(e.core.objs[i].id))
    case CloseStream(id) => CloseLocally(Finish(e, Closing(id)), id)
    case SendClose(id, ok) =>
      var e' := Finish(e, CloseSend(id)); if ok then Send(e', Frame(STREAM_CLOSE, id, [])) else e'
    case Accept => AcceptNext(e)
    case Read(i, n) => ReadStream(e, i, n)
    case Receive(f) => Handle(e, f)
    case Offer => OfferStream(e)
    case Reject => CloseLocally(e, e.core.objs[e.loop.i].id).(loop := Idle)
    case Deliver => DeliverChunk(e)
    case Timeout => e.(loop := TimedOut(e.loop.i, e.loop.chunk))
    case GiveUp => CloseLocally(e, e.core.objs[e.loop.i].id).(loop := Idle)
    case Answer(ok) => var e' := e.(loop := Idle); if ok then Send(e', Frame(PONG, 0, [])) else e'
    case SendPing(ok) => if ok then Send(e, Frame(PING, 0, [])) else e
    case StopLoop => e.(loop := Stopped)
    case ShutStreams => CloseSession(e)
    case ShutAccept => e.(core := e.core.(acceptOpen := false), shutdown := 2)
    case ShutConn => e.(shutdown := 3, connUp := false)
    case BreakWire => e.(connUp := false)
  }

  datatype Side = AtServer | AtClient

  function Peer(side: Side): Side {
    if side == AtServer then AtClient else AtServer
  }

  /** Two sessions on one connection. What the server has sent and the client has not read is
      server.log[client.rd..], and the other way round. */
  datatype System = System(server: Endpoint, client: Endpoint) {
    function At(side: Side): Endpoint {
      if side == AtServer then server else client
    }

    function With(side: Side, e: Endpoint): System {
      if side == AtServer then this.(server := e) else this.(client := e)
    }
  }

  function NewSystem(): System {
    System(NewEndpoint(true), NewEndpoint(false))
  }

  /** A frame is received in the order in which the peer wrote it. */
  ghost predicate Enabled(e: Endpoint, ev: Event, peerLog: seq<Frame>) {
    && Shape(e)
    && Ready(e, ev)
    && (ev.Receive? ==> e.rd < |peerLog| && ev.frame == peerLog[e.rd])
  }

  ghost predicate Step(s: System, side: Side, ev: Event, s': System) {
    && Enabled(s.At(side), ev, s.At(Peer(side)).log)
    && s' == s.With(side, Next(s.At(side), ev))
  }

  datatype Action = Action(side: Side, ev: Event)

  /** A run: states[k + 1] follows from states[k] by acts[k]. */
  ghost predicate Run(states: seq<System>, acts: seq<Action>) {
    && |states| == |acts| + 1
    && states[0] == NewSystem()
    && (forall k :: 0 <= k < |acts| ==> Step(states[k], acts[k].side, acts[k].ev, states[k + 1]))
  }
}
