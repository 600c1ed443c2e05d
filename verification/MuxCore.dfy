/** core/mux: the state that a Session shares between its goroutines, as a value, and what each lock-held
    region or channel operation does to it. */
module MuxCore {
  import opened Bytes
  import opened Wrappers
  import opened Frame

  const ACCEPT_QUEUE: nat := 256
  const READ_QUEUE: nat := 128

  /** A Stream object: its channel, its read buffer and its closed flag. */
  datatype Stream = Stream(id: uint32, target: Bytes, chan: seq<Bytes>, chanOpen: bool, readBuf: Bytes, closed: bool)

  /** objs lists every Stream ever created, in order; streams and acceptChan refer to it by position. */
  datatype Core = Core(
    nextStreamID: uint32, objs: seq<Stream>, streams: map<uint32, nat>,
    acceptChan: seq<nat>, acceptOpen: bool, closed: bool)

  predicate WellFormed(c: Core) {
    && (forall id :: id in c.streams ==> c.streams[id] < |c.objs|)
    && (forall k :: 0 <= k < |c.acceptChan| ==> c.acceptChan[k] < |c.objs|)
  }

  function NewStream(id: uint32, target: Bytes): Stream {
    Stream(id, target, [], true, [], false)
  }

  function NewCore(isServer: bool): Core {
    Core(if isServer then 1 else 2, [], map[], [], true, false)
  }

  /** atomic.AddUint32(&nextStreamID, 2) */
  function NextID(c: Core): uint32 {
    (c.nextStreamID + 2) % 0x1_0000_0000
  }

  /** A new Stream enters the map, in place of any other Stream under its ID. */
  function Insert(c: Core, id: uint32, target: Bytes): Core {
    c.(objs := c.objs + [NewStream(id, target)], streams := c.streams[id := |c.objs|])
  }

  function Register(c: Core, target: Bytes): Core {
    Insert(c, NextID(c), target).(nextStreamID := NextID(c))
  }

  function ShutChan(c: Core, i: nat): Core
    requires i < |c.objs|
  {
    c.(objs := c.objs[i := c.objs[i].(chanOpen := false)])
  }

  /** Closing a channel twice panics in Go. */
  predicate RemovePanics(c: Core, id: uint32)
    requires WellFormed(c)
  {
    id in c.streams && !c.objs[c.streams[id]].chanOpen
  }

  /** The locked region of closeStream, and of the FrameStreamClose branch. */
  function Remove(c: Core, id: uint32): Core
    requires WellFormed(c)
  {
    if id !in c.streams then c else ShutChan(c, c.streams[id]).(streams := c.streams - {id})
  }

  predicate RemoveAllPanics(c: Core)
    requires WellFormed(c)
  {
    || (exists id :: id in c.streams && !c.objs[c.streams[id]].chanOpen)
    || (exists id, other :: id in c.streams && other in c.streams && id != other && c.streams[id] == c.streams[other])
  }

  predicate Registered(c: Core, i: nat) {
    exists id :: id in c.streams && c.streams[id] == i
  }

  /** The locked region of Close. */
  function RemoveAll(c: Core): Core {
    c.(closed := true, streams := map[],
       objs := seq(|c.objs|, i requires 0 <= i < |c.objs| =>
         if Registered(c, i) then c.objs[i].(chanOpen := false) else c.objs[i]))
  }

  /** Close in the middle of its loop: the IDs of left are still to be removed. */
  ghost function RemoveSome(c: Core, left: set<uint32>): (d: Core)
    ensures |d.objs| == |c.objs|
  {
    c.(closed := true, streams := map id | id in c.streams && id in left :: c.streams[id],
       objs := seq(|c.objs|, i requires 0 <= i < |c.objs| =>
         if exists id :: id in c.streams && id !in left && c.streams[id] == i then c.objs[i].(chanOpen := false)
         else c.objs[i]))
  }

  lemma RemoveNone(c: Core)
    ensures RemoveSome(c, c.streams.Keys) == c.(closed := true)
    ensures RemoveSome(c, {}) == RemoveAll(c)
  {
    assert RemoveSome(c, c.streams.Keys).streams == c.streams;
    assert RemoveSome(c, c.streams.Keys).objs == c.objs;
    assert RemoveSome(c, {}).streams == map[];
    assert RemoveSome(c, {}).objs == RemoveAll(c).objs;
  }

  lemma RemoveOneMore(c: Core, left: set<uint32>, id: uint32)
    requires WellFormed(c) && id in c.streams && id in left
    ensures var d := RemoveSome(c, left).(streams := RemoveSome(c, left).streams - {id});
      ShutChan(d, c.streams[id]) == RemoveSome(c, left - {id})
    ensures RemoveSome(c, left).objs[c.streams[id]].chanOpen <==>
      (c.objs[c.streams[id]].chanOpen &&
       forall other :: other in c.streams && other !in left ==> c.streams[other] != c.streams[id])
  {
    var d := RemoveSome(c, left).(streams := RemoveSome(c, left).streams - {id});
    assert d.streams == RemoveSome(c, left - {id}).streams;
    assert ShutChan(d, c.streams[id]).objs == RemoveSome(c, left - {id}).objs;
  }

  /** The part of Close's loop that is done closed only open channels, each of them once. */
  ghost predicate ClosedSound(c: Core, left: set<uint32>)
    requires WellFormed(c)
  {
    && (forall id :: id in c.streams && id !in left ==> c.objs[c.streams[id]].chanOpen)
    && (forall id, other :: id in c.streams && other in c.streams && id !in left && other !in left && id != other ==>
          c.streams[id] != c.streams[other])
  }

  lemma ClosedSoundStep(c: Core, left: set<uint32>, id: uint32)
    requires WellFormed(c) && ClosedSound(c, left) && id in c.streams && id in left
    ensures RemoveSome(c, left).objs[c.streams[id]].chanOpen ==> ClosedSound(c, left - {id})
    ensures !RemoveSome(c, left).objs[c.streams[id]].chanOpen ==> RemoveAllPanics(c)
  {
    RemoveOneMore(c, left, id);
  }

  lemma ClosedSoundEnds(c: Core)
    requires WellFormed(c)
    ensures ClosedSound(c, c.streams.Keys)
    ensures ClosedSound(c, {}) ==> !RemoveAllPanics(c)
  {
  }

  function PushAccept(c: Core, i: nat): Core {
    c.(acceptChan := c.acceptChan + [i])
  }

  function PopAccept(c: Core): Core
    requires c.acceptChan != []
  {
    c.(acceptChan := c.acceptChan[1..])
  }

  function SetStream(c: Core, i: nat, s: Stream): Core
    requires i < |c.objs|
  {
    c.(objs := c.objs[i := s])
  }

  function Push(s: Stream, chunk: Bytes): Stream {
    s.(chan := s.chan + [chunk])
  }

  datatype ReadOutcome = Data(bytes: Bytes) | Eof | Blocked

  function Min(a: nat, b: nat): nat {
    if a <= b then a else b
  }

  /** The chunk of data that the loop of writeStreamData sends from offset n on. */
  function ChunkAt(data: Bytes, n: nat): (chunk: Bytes)
    requires n <= |data|
    ensures |chunk| == Min(|data| - n, MAX_PAYLOAD)
  {
    data[n..n + Min(|data| - n, MAX_PAYLOAD)]
  }

  /** What Read returns for a buffer of n bytes. */
  function ReadResult(s: Stream, n: nat): ReadOutcome {
    if |s.readBuf| > 0 then Data(s.readBuf[..Min(n, |s.readBuf|)])
    else if s.chan != [] then Data(s.chan[0][..Min(n, |s.chan[0]|)])
    else if s.chanOpen then Blocked else Eof
  }

  function AfterRead(s: Stream, n: nat): Stream {
    if |s.readBuf| > 0 then s.(readBuf := s.readBuf[Min(n, |s.readBuf|)..])
    else if s.chan != [] then s.(chan := s.chan[1..], readBuf := s.chan[0][Min(n, |s.chan[0]|)..])
    else s
  }

  /** The bytes that reached a Stream and that no Read has returned yet. */
  function Buffered(s: Stream): Bytes {
    s.readBuf + Concat(s.chan)
  }

  lemma SplitFront(b: Bytes, k: nat, tail: Bytes)
    requires k <= |b|
    ensures b + tail == b[..k] + (b[k..] + tail)
  {
    assert b == b[..k] + b[k..];
  }

  /** How many bytes a Read can return: what an earlier one left over, and without that one chunk. */
  function AtHand(s: Stream): nat {
    if s.readBuf != [] then |s.readBuf| else if s.chan != [] then |s.chan[0]| else 0
  }

  /** Read hands out the front of the buffered bytes, as many as the buffer takes of those at hand, loses none, and
      takes a chunk out of the channel only when nothing was left over; it says EOF only when there are none. */
  lemma ReadTakesFront(s: Stream, n: nat)
    ensures var s' := AfterRead(s, n);
      match ReadResult(s, n)
      case Data(b) =>
        && |b| == (if n <= AtHand(s) then n else AtHand(s)) && Buffered(s) == b + Buffered(s')
        && (if s.readBuf != [] then s'.chan == s.chan else s.chan != [] && s'.chan == s.chan[1..])
        && s' == s.(chan := s'.chan, readBuf := s'.readBuf)
      case Eof => s.chan == [] && Buffered(s) == [] && !s.chanOpen && s' == s
      case Blocked => s.chan == [] && Buffered(s) == [] && s.chanOpen && s' == s
  {
    if |s.readBuf| > 0 {
      var k := Min(n, |s.readBuf|);
      SplitFront(s.readBuf, k, Concat(s.chan));
    } else if s.chan != [] {
      var k := Min(n, |s.chan[0]|);
      ConcatHead(s.chan);
      assert [] + Concat(s.chan) == Concat(s.chan);
      SplitFront(s.chan[0], k, Concat(s.chan[1..]));
    }
  }

  lemma PushAppends(s: Stream, chunk: Bytes)
    ensures Buffered(Push(s, chunk)) == Buffered(s) + chunk
  {
    ConcatSnoc(s.chan, chunk);
  }

  /** What a channel send does. */
  datatype SendOutcome = Taken | Full | Panics

  /** What one turn of the readLoop switch makes of the shared state when nothing runs in between; Full: it
      waits in the send. */
  function LoopTurn(c: Core, f: Frame, timesOut: bool): (Core, SendOutcome)
    requires WellFormed(c)
  {
    if f.kind == STREAM_OPEN then
      var inserted := Insert(c, f.id, f.payload);
      if !c.acceptOpen then (inserted, Panics)
      else if |c.acceptChan| < ACCEPT_QUEUE then (PushAccept(inserted, |c.objs|), Taken)
      else (Remove(inserted, f.id), Taken)
    else if f.kind == DATA && f.id in c.streams then
      var i := c.streams[f.id];
      if !c.objs[i].chanOpen then (c, Panics)
      else if |c.objs[i].chan| < READ_QUEUE then (SetStream(c, i, Push(c.objs[i], f.payload)), Taken)
      else if timesOut then (Remove(c, f.id), Taken) else (c, Full)
    else if f.kind == STREAM_CLOSE then (Remove(c, f.id), Taken)
    else (c, Taken)
  }

  /** The frame that such a turn sends. */
  function LoopAnswer(c: Core, f: Frame, timesOut: bool): Option<Frame>
    requires WellFormed(c)
  {
    if f.kind == STREAM_OPEN && c.acceptOpen && |c.acceptChan| >= ACCEPT_QUEUE then Some(Frame(STREAM_CLOSE, f.id, []))
    else if f.kind == DATA && f.id in c.streams && timesOut &&
      c.objs[c.streams[f.id]].chanOpen && |c.objs[c.streams[f.id]].chan| >= READ_QUEUE
    then Some(Frame(STREAM_CLOSE, f.id, []))
    else if f.kind == PING then Some(Frame(PONG, 0, []))
    else None
  }

  // ---- What a turn does, for each kind of frame ----

  /** But for Stream i, all Streams are as they were. */
  ghost predicate SameBut(c: Core, c': Core, i: nat) {
    |c'.objs| >= |c.objs| && forall j :: 0 <= j < |c.objs| && j != i ==> c'.objs[j] == c.objs[j]
  }

  /** Stream i has left the map, where it was under id, with what it has buffered, and the rest is as it was. */
  ghost predicate Dropped(c: Core, c': Core, id: uint32, i: nat)
    requires i < |c.objs|
  {
    && SameBut(c, c', i) && |c'.objs| == |c.objs| && c'.streams == c.streams - {id}
    && !c'.objs[i].chanOpen && Buffered(c'.objs[i]) == Buffered(c.objs[i]) && c'.acceptChan == c.acceptChan
  }

  /** A data frame (3) for an ID that is not in the map is ignored; else its payload goes to the end of what the stream
      has buffered, if less than 128 chunks wait there; if not, the stream is dropped after the timeout and its peer
      told so (5). */
  lemma DataEffect(c: Core, f: Frame, timesOut: bool)
    requires WellFormed(c) && f.kind == 3
    ensures var (c', r) := LoopTurn(c, f, timesOut); var answer := LoopAnswer(c, f, timesOut);
      if f.id !in c.streams then c' == c && r == Taken && answer == None
      else
        var i := c.streams[f.id];
        var waiting := |c.objs[i].chan|;
        if !c.objs[i].chanOpen then r == Panics
        else if waiting < 128 then
          && r == Taken && answer == None && SameBut(c, c', i) && |c'.objs| == |c.objs|
          && c' == c.(objs := c'.objs) && Buffered(c'.objs[i]) == Buffered(c.objs[i]) + f.payload
          && c'.objs[i].chanOpen && |c'.objs[i].chan| == waiting + 1
        else if timesOut then r == Taken && answer == Some(Frame(5, f.id, [])) && Dropped(c, c', f.id, i)
        else r == Full && c' == c && answer == None
  {
    if f.id in c.streams {
      PushAppends(c.objs[c.streams[f.id]], f.payload);
    }
  }

  /** A StreamOpen (4) makes a new stream with nothing buffered; it is in the map and at the end of the accept queue if
      less than 256 wait there, and if not, its peer is told that it was closed (5). */
  lemma OpenEffect(c: Core, f: Frame, timesOut: bool)
    requires WellFormed(c) && f.kind == 4
    ensures var (c', r) := LoopTurn(c, f, timesOut); var answer := LoopAnswer(c, f, timesOut); var i := |c.objs|;
      && |c'.objs| == i + 1 && SameBut(c, c', i) && c'.objs[i].id == f.id && c'.objs[i].target == f.payload
      && Buffered(c'.objs[i]) == [] && !c'.objs[i].closed
      && (r == Panics <==> !c.acceptOpen)
      && (c.acceptOpen && |c.acceptChan| < 256 ==>
            && answer == None && c'.acceptChan == c.acceptChan + [i]
            && c'.streams == c.streams[f.id := i] && c'.objs[i].chanOpen)
      && (c.acceptOpen && |c.acceptChan| >= 256 ==>
            && answer == Some(Frame(5, f.id, [])) && c'.acceptChan == c.acceptChan
            && c'.streams == c.streams - {f.id} && !c'.objs[i].chanOpen)
  {
  }

  /** A StreamClose (5) drops the stream without an answer, a Ping (6) is answered by a Pong (7), and every other frame
      is ignored. */
  lemma OtherEffect(c: Core, f: Frame, timesOut: bool)
    requires WellFormed(c) && f.kind != 3 && f.kind != 4
    ensures var (c', r) := LoopTurn(c, f, timesOut);
      && r == Taken && LoopAnswer(c, f, timesOut) == (if f.kind == 6 then Some(Frame(7, 0, [])) else None)
      && if f.kind == 5 && f.id in c.streams then Dropped(c, c', f.id, c.streams[f.id]) else c' == c
  {
  }
}
