/** The calls that module SessionClass runs in one go are sequences of steps of module Mux: Write, OpenStream,
    the Close of a stream and the Close of a session. */
module MuxCalls {
  import opened Bytes
  import opened Wrappers
  import opened Frame
  import opened MuxCore
  import opened Mux
  import opened Chunks
  import opened MuxTurn

  function Repeat(ev: Event, k: nat): (evs: seq<Event>)
    ensures |evs| == k
  {
    if k == 0 then [] else [ev] + Repeat(ev, k - 1)
  }

  lemma {:induction false} StepsThen(e: Endpoint, a: seq<Event>, b: seq<Event>)
    ensures Steps(e, a + b) == if Steps(e, a).Some? then Steps(Steps(e, a).value, b) else None
    decreases |a|
  {
    hide Next, Ready, Shape;
    if a == [] {
      assert [] + b == b;
    } else {
      assert (a + b)[0] == a[0] && (a + b)[1..] == a[1..] + b;
      if Shape(e) && Ready(e, a[0]) {
        StepsThen(Next(e, a[0]), a[1..], b);
      }
    }
  }

  // ---- writeStreamData ----

  /** The holder of writeMu has sent the first k of the chunks of what was left to write. */
  ghost function Wrote(e: Endpoint, k: nat): Endpoint
    requires Shape(e) && e.writeMu.Held? && k <= |Split(e.writeMu.data[e.writeMu.offset..])|
  {
    var i := e.writeMu.i;
    var chunks := Split(e.writeMu.data[e.writeMu.offset..])[..k];
    SetHist(e.(log := e.log + DataFrames(e.core.objs[i].id, chunks)), i,
            e.hist[i].(written := e.hist[i].written + Concat(chunks)))
      .(writeMu := e.writeMu.(offset := e.writeMu.offset + |Concat(chunks)|))
  }

  lemma SplitHead(data: Bytes, n: nat)
    requires n < |data|
    ensures Split(data[n..]) == [ChunkAt(data, n)] + Split(data[n + |ChunkAt(data, n)|..])
  {
    var m := Min(|data| - n, MAX_PAYLOAD);
    assert data[n..][..m] == ChunkAt(data, n) && data[n..][m..] == data[n + m..];
  }

  lemma WroteOne(e: Endpoint, k: nat)
    requires Shape(e) && e.writeMu.Held? && e.writeMu.offset < |e.writeMu.data|
    requires 0 < k <= |Split(e.writeMu.data[e.writeMu.offset..])|
    ensures var e1 := WriteNextChunk(e);
      && Shape(e1) && e1.writeMu.Held? && k - 1 <= |Split(e1.writeMu.data[e1.writeMu.offset..])|
      && Wrote(e1, k - 1) == Wrote(e, k)
  {
    hide Split, WellFormed, ChunkAt;
    var w, id := e.writeMu, e.core.objs[e.writeMu.i].id;
    var chunk := ChunkAt(w.data, w.offset);
    SplitHead(w.data, w.offset);
    var rest := Split(w.data[w.offset + |chunk|..]);
    var chunks := Split(w.data[w.offset..]);
    assert chunks[..k] == [chunk] + rest[..k - 1];
    assert chunks[..k][1..] == rest[..k - 1];
    ConcatHead(chunks[..k]);
    assert DataFrames(id, chunks[..k]) == [Frame(DATA, id, chunk)] + DataFrames(id, rest[..k - 1]);
    assert e.log + [Frame(DATA, id, chunk)] + DataFrames(id, rest[..k - 1]) == e.log + DataFrames(id, chunks[..k]);
    var h := e.hist[w.i].written;
    assert h + chunk + Concat(rest[..k - 1]) == h + Concat(chunks[..k]);
    assert Wrote(WriteNextChunk(e), k - 1).hist == Wrote(e, k).hist;
  }

  lemma ChunkIsNext(e: Endpoint)
    requires Shape(e) && e.panic == None && e.connUp && e.writeMu.Held? && e.writeMu.offset < |e.writeMu.data|
    ensures Ready(e, WriteChunk(true)) && Next(e, WriteChunk(true)) == WriteNextChunk(e)
  {
    hide WriteNextChunk, WellFormed;
  }

  lemma {:induction false} ChunksAreSteps(e: Endpoint, k: nat)
    requires Shape(e) && e.panic == None && e.writeMu.Held? && (k > 0 ==> e.connUp)
    requires k <= |Split(e.writeMu.data[e.writeMu.offset..])|
    ensures Steps(e, Repeat(WriteChunk(true), k)) == Some(Wrote(e, k))
    decreases k
  {
    assert e.writeMu.offset == |e.writeMu.data| ==> e.writeMu.data[e.writeMu.offset..] == [];
    hide Next, Ready, Shape, Wrote;
    if k == 0 {
      WroteNone(e);
    } else {
      ChunkIsNext(e);
      WroteOne(e, k);
      KeepsConn(e);
      ChunksAreSteps(WriteNextChunk(e), k - 1);
      ThenSteps(e, WriteChunk(true), Repeat(WriteChunk(true), k - 1));
    }
  }

  lemma KeepsConn(e: Endpoint)
    requires Shape(e) && e.writeMu.Held?
    ensures WriteNextChunk(e).panic == e.panic && WriteNextChunk(e).connUp == e.connUp
  {
  }

  lemma WroteNone(e: Endpoint)
    requires Shape(e) && e.writeMu.Held?
    ensures Wrote(e, 0) == e
  {
    var i := e.writeMu.i;
    assert e.log + [] == e.log && e.hist[i].written + [] == e.hist[i].written;
    assert DataFrames(e.core.objs[i].id, []) == [];
    assert Wrote(e, 0).hist == e.hist;
  }

  /** The events of a Write whose first k chunks are written; if there are more, the next one fails. */
  function WriteEvents(i: nat, data: Bytes, k: nat): seq<Event> {
    [BeginWrite(i, data)] + (Repeat(WriteChunk(true), k) + [if k == |Split(data)| then EndWrite else WriteChunk(false)])
  }

  /** What such a Write leaves: the Data frames of its first k chunks follow the log. */
  ghost function AfterWrite(e: Endpoint, i: nat, data: Bytes, k: nat): Endpoint
    requires Shape(e) && i < |e.hist| && k <= |Split(data)|
  {
    var chunks := Split(data)[..k];
    SetHist(Finish(e, Writing(i, data)), i, e.hist[i].(written := e.hist[i].written + Concat(chunks)))
      .(log := e.log + DataFrames(e.core.objs[i].id, chunks), writeMu := Free)
  }

  lemma BeginIsReady(e: Endpoint, i: nat, data: Bytes)
    requires Shape(e) && e.panic == None && e.writeMu.Free? && Writing(i, data) in e.threads
    ensures var e' := Finish(e, Writing(i, data));
      && Ready(e, BeginWrite(i, data))
      && Next(e, BeginWrite(i, data)) == if e.core.closed then e' else e'.(writeMu := Held(i, data, 0))
  {
    hide WellFormed;
  }

  lemma CallIsReady(e: Endpoint, i: nat, data: Bytes)
    requires Shape(e) && e.panic == None && Holds(e, i) && !e.core.objs[i].closed
    ensures Ready(e, CallWrite(i, data)) && Next(e, CallWrite(i, data)) == Fork(e, Writing(i, data))
  {
    hide WellFormed;
  }

  lemma AcceptIsReady(e: Endpoint)
    requires Shape(e) && e.panic == None && e.core.acceptChan != []
    ensures Ready(e, Accept) && Next(e, Accept) == AcceptNext(e)
  {
    hide WellFormed, AcceptNext;
  }

  lemma EndOfWrite(e: Endpoint)
    requires Shape(e) && e.panic == None && e.writeMu.Held?
    ensures var ev := if e.writeMu.offset == |e.writeMu.data| then EndWrite else WriteChunk(false);
      Ready(e, ev) && Next(e, ev) == e.(writeMu := Free)
  {
    hide WellFormed, WriteNextChunk;
  }

  lemma WroteState(e: Endpoint, k: nat)
    requires Shape(e) && e.writeMu.Held? && e.writeMu.offset == 0 && k <= |Split(e.writeMu.data)|
    ensures e.writeMu.data[0..] == e.writeMu.data
    ensures var e' := Wrote(e, k);
      && Shape(e') && e'.panic == e.panic && e'.writeMu.Held?
      && (e'.writeMu.offset == |e'.writeMu.data| <==> k == |Split(e.writeMu.data)|)
  {
    hide Split, WellFormed;
    var data := e.writeMu.data;
    assert data[0..] == data;
    SplitSound(data);
    var chunks := Split(data);
    ConcatAppend(chunks[..k], chunks[k..]);
    assert chunks[..k] + chunks[k..] == chunks;
    if k < |chunks| {
      ConcatHead(chunks[k..]);
    }
  }

  /** A Write whose goroutine has the lock next, on a session that is not closed, is a sequence of steps: it puts
      into the log exactly the Data frames of its chunks, or of those before the one that fails; on a connection that
      is down, none. */
  lemma WriteIsSteps(e: Endpoint, i: nat, data: Bytes, k: nat)
    requires Shape(e) && e.panic == None && e.writeMu.Free? && Writing(i, data) in e.threads && i < |e.hist|
    requires !e.core.closed && (k > 0 ==> e.connUp) && k <= |Split(data)|
    ensures Steps(e, WriteEvents(i, data, k)) == Some(AfterWrite(e, i, data, k))
  {
    BeginIsReady(e, i, data);
    var held := Finish(e, Writing(i, data)).(writeMu := Held(i, data, 0));
    assert Shape(held);
    hide Next, Ready, Shape, Steps, Split, Wrote, WellFormed;
    WroteState(held, k);
    ChunksAreSteps(held, k);
    var last := if k == |Split(data)| then EndWrite else WriteChunk(false);
    var wrote := Wrote(held, k);
    EndOfWrite(wrote);
    WrittenFree(e, i, data, k);
    OneStep(wrote, last);
    StepsThen(held, Repeat(WriteChunk(true), k), [last]);
    ThenSteps(e, BeginWrite(i, data), Repeat(WriteChunk(true), k) + [last]);
  }

  lemma WrittenFree(e: Endpoint, i: nat, data: Bytes, k: nat)
    requires Shape(e) && i < |e.hist| && k <= |Split(data)|
    ensures var held := Finish(e, Writing(i, data)).(writeMu := Held(i, data, 0));
      && Shape(held) && data[0..] == data
      && Wrote(held, k).(writeMu := Free) == AfterWrite(e, i, data, k)
  {
    hide Split, WellFormed;
    assert data[0..] == data;
  }

  /** On a closed session it is one step without effect. */
  lemma WriteClosedIsStep(e: Endpoint, i: nat, data: Bytes)
    requires Shape(e) && e.panic == None && e.writeMu.Free? && Writing(i, data) in e.threads && e.core.closed
    ensures Steps(e, [BeginWrite(i, data)]) == Some(Finish(e, Writing(i, data)))
  {
    BeginIsReady(e, i, data);
    OneStep(e, BeginWrite(i, data));
  }

  /** The count that WriteStreamData returns when it stops after k chunks, and the chunks of the bytes counted. */
  lemma {:induction false} SplitPrefix(data: Bytes, k: nat)
    requires k <= |Split(data)|
    ensures Concat(Split(data)[..k]) <= data && Split(Concat(Split(data)[..k])) == Split(data)[..k]
    decreases k
  {
    SplitSound(data);
    var chunks := Split(data);
    hide Split;
    ConcatAppend(chunks[..k], chunks[k..]);
    assert chunks[..k] + chunks[k..] == chunks;
    if k == 0 {
      EmptySplit();
    } else {
      SplitPrefix(data, k - 1);
      assert chunks[..k] == chunks[..k - 1] + [chunks[k - 1]];
      ConcatSnoc(chunks[..k - 1], chunks[k - 1]);
      FullChunks(chunks[..k - 1]);
      SplitSnoc(Concat(chunks[..k - 1]), chunks[k - 1]);
    }
  }

  lemma EmptySplit()
    ensures Split([]) == [] && Concat([]) == []
  {
  }

  lemma {:induction false} FullChunks(chunks: seq<Bytes>)
    requires forall k :: 0 <= k < |chunks| ==> |chunks[k]| == MAX_PAYLOAD
    ensures |Concat(chunks)| % MAX_PAYLOAD == 0
  {
    if chunks != [] {
      FullChunks(chunks[..|chunks| - 1]);
    }
  }

  // ---- The answers of readLoop, and closeStream ----

  lemma SendIsReady(e: Endpoint, id: uint32, ok: bool)
    requires Shape(e) && e.panic == None && e.writeMu.Free? && CloseSend(id) in e.threads && (ok ==> e.connUp)
    ensures Ready(e, SendClose(id, ok))
    ensures Next(e, SendClose(id, ok)) ==
      var e' := Finish(e, CloseSend(id)); if ok then Send(e', Frame(STREAM_CLOSE, id, [])) else e'
  {
    hide WellFormed;
  }

  /** The frame that a turn of readLoop leaves to be sent is what the goroutine that it is left to sends. */
  lemma AnswerIsSent(e: Endpoint, e': Endpoint, c: Core, r: SendOutcome, answer: Frame)
    requires TurnEnds(e, e', c, r, Some(answer)) && Shape(e') && e'.panic == None && e'.writeMu.Free? && e'.connUp
    ensures var evs := if Closes(Some(answer)) then [SendClose(answer.id, true)] else [Answer(true)];
      Steps(e', evs).Some? && Steps(e', evs).value.log == e.log + [answer] && Steps(e', evs).value.core == c
  {
    if Closes(Some(answer)) {
      SendIsReady(e', answer.id, true);
      OneStep(e', SendClose(answer.id, true));
    } else {
      AnswerIsReady(e');
      OneStep(e', Answer(true));
    }
  }

  lemma AnswerIsReady(e: Endpoint)
    requires Shape(e) && e.panic == None && e.writeMu.Free? && e.connUp && e.loop.Answering?
    ensures Ready(e, Answer(true)) && Next(e, Answer(true)) == Send(e.(loop := Idle), Frame(PONG, 0, []))
  {
    hide WellFormed;
  }

  lemma CloseIsReady(e: Endpoint, id: uint32)
    requires Shape(e) && e.panic == None && Closing(id) in e.threads
    ensures Ready(e, CloseStream(id)) && Next(e, CloseStream(id)) == CloseLocally(Finish(e, Closing(id)), id)
  {
    hide WellFormed, CloseLocally;
  }

  function CloseEvents(c: Core, id: uint32, ok: bool): seq<Event> {
    if id in c.streams then [CloseStream(id), SendClose(id, ok)] else [CloseStream(id)]
  }

  lemma CloseLocallyShared(e: Endpoint, id: uint32)
    requires Shape(e) && e.panic == None && !RemovePanics(e.core, id)
    ensures var e' := CloseLocally(e, id);
      && Shape(e') && e'.panic == None && e'.core == Remove(e.core, id) && e'.log == e.log
      && e'.writeMu == e.writeMu && e'.connUp == e.connUp
      && e'.threads == e.threads + if id in e.core.streams then multiset{CloseSend(id)} else multiset{}
  {
  }

  /** closeStream is a sequence of steps: the stream leaves the map, and one StreamClose is sent if it was there. */
  lemma CloseIsSteps(e: Endpoint, id: uint32, ok: bool)
    requires Shape(e) && e.panic == None && e.writeMu.Free? && Closing(id) in e.threads && (ok ==> e.connUp)
    requires !RemovePanics(e.core, id)
    ensures var r := Steps(e, CloseEvents(e.core, id, ok));
      && r.Some? && r.value.core == Remove(e.core, id) && r.value.threads == e.threads - multiset{Closing(id)}
      && r.value.log == e.log + if id in e.core.streams && ok then [Frame(STREAM_CLOSE, id, [])] else []
  {
    assert Shape(Finish(e, Closing(id)));
    hide Next, Ready, Shape, Steps, CloseLocally, Remove, WellFormed;
    CloseIsReady(e, id);
    CloseLocallyShared(Finish(e, Closing(id)), id);
    var e1 := CloseLocally(Finish(e, Closing(id)), id);
    if id in e.core.streams {
      SendIsReady(e1, id, ok);
      TwoSteps(e, CloseStream(id), SendClose(id, ok));
    } else {
      OneStep(e, CloseStream(id));
    }
  }

  lemma CallCloseIsReady(e: Endpoint, i: nat)
    requires Shape(e) && e.panic == None && Holds(e, i) && !e.core.objs[i].closed
    ensures Ready(e, CallClose(i))
    ensures Next(e, CallClose(i)) ==
      Fork(e.(core := SetStream(e.core, i, e.core.objs[i].(closed := true))), Closing(e.core.objs[i].id))
  {
    hide WellFormed, SetStream;
  }

  /** The Close of a stream, likewise. */
  lemma StreamCloseIsSteps(e: Endpoint, i: nat, ok: bool)
    requires Shape(e) && e.panic == None && e.writeMu.Free? && (ok ==> e.connUp)
    requires Holds(e, i) && !e.core.objs[i].closed && !RemovePanics(e.core, e.core.objs[i].id)
    ensures var id := e.core.objs[i].id; var c := SetStream(e.core, i, e.core.objs[i].(closed := true));
      var r := Steps(e, [CallClose(i)] + CloseEvents(c, id, ok));
      && r.Some? && r.value.core == Remove(c, id) && r.value.threads == e.threads
      && r.value.log == e.log + if id in e.core.streams && ok then [Frame(STREAM_CLOSE, id, [])] else []
  {
    CallCloseIsReady(e, i);
    var id := e.core.objs[i].id;
    var c := SetStream(e.core, i, e.core.objs[i].(closed := true));
    var e1 := Fork(e.(core := c), Closing(id));
    assert Shape(e1) && RemovePanics(c, id) == RemovePanics(e.core, id);
    hide Next, Ready, Shape, Steps, Remove, WellFormed, RemovePanics, SetStream;
    CloseIsSteps(e1, id, ok);
    ThenSteps(e, CallClose(i), CloseEvents(c, id, ok));
  }

  // ---- OpenStream ----

  function OpenEvents(c: Core, target: Bytes, ok: bool): seq<Event> {
    var withdrawal := if ok then [] else CloseEvents(Register(c, target), NextID(c), false);
    [OpenStream(target)] + ([SendOpen(|c.objs|, ok)] + withdrawal)
  }

  lemma OpenIsReady(e: Endpoint, target: Bytes)
    requires Shape(e) && e.panic == None && !e.core.closed && e.opens < MAX_OPENS
    ensures var i := |e.core.objs|; var e' := Next(e, OpenStream(target));
      && Ready(e, OpenStream(target)) && Shape(e') && e'.panic == None
      && e'.core == Register(e.core, target) && e'.core.objs[i] == NewStream(NextID(e.core), target)
      && e'.log == e.log && e'.writeMu == e.writeMu && e'.connUp == e.connUp
      && e'.threads == e.threads + multiset{OpenSend(i)} && |e'.hist| == i + 1
  {
  }

  lemma SendOpenIsReady(e: Endpoint, i: nat, ok: bool)
    requires Shape(e) && e.panic == None && e.writeMu.Free? && i < |e.hist| && OpenSend(i) in e.threads
    requires ok ==> e.connUp
    ensures var e', s := Next(e, SendOpen(i, ok)), e.core.objs[i];
      && Ready(e, SendOpen(i, ok)) && Shape(e') && e'.panic == None && e'.core == e.core
      && e'.log == e.log + (if ok then [Frame(STREAM_OPEN, s.id, s.target)] else [])
      && e'.threads == e.threads - multiset{OpenSend(i)} + (if ok then multiset{} else multiset{Closing(s.id)})
      && e'.writeMu.Free? && |e'.hist| == |e.hist| && (ok ==> e'.hist[i].handed)
  {
    hide WellFormed;
  }

  /** The announcement of a registered stream, or its withdrawal. */
  lemma AnnounceIsSteps(e: Endpoint, i: nat, ok: bool)
    requires Shape(e) && e.panic == None && e.writeMu.Free? && i < |e.hist| && OpenSend(i) in e.threads
    requires (ok ==> e.connUp) && e.core.objs[i].id in e.core.streams && !RemovePanics(e.core, e.core.objs[i].id)
    ensures var s := e.core.objs[i];
      var r := Steps(e, [SendOpen(i, ok)] + if ok then [] else CloseEvents(e.core, s.id, false));
      && r.Some? && r.value.threads == e.threads - multiset{OpenSend(i)}
      && r.value.core == (if ok then e.core else Remove(e.core, s.id))
      && r.value.log == e.log + (if ok then [Frame(STREAM_OPEN, s.id, s.target)] else [])
  {
    var id := e.core.objs[i].id;
    hide Next, Ready, Shape, Steps, Remove, WellFormed, RemovePanics;
    SendOpenIsReady(e, i, ok);
    var e2 := Next(e, SendOpen(i, ok));
    if ok {
      NoSteps(e2);
      ThenSteps(e, SendOpen(i, ok), []);
    } else {
      CloseIsSteps(e2, id, false);
      ThenSteps(e, SendOpen(i, ok), CloseEvents(e.core, id, false));
    }
  }

  /** OpenStream is a sequence of steps: the stream is registered and announced, or taken back without a trace on
      the wire if its frame cannot be written. */
  lemma OpenIsSteps(e: Endpoint, target: Bytes, ok: bool)
    requires Shape(e) && e.panic == None && !e.core.closed && e.opens < MAX_OPENS && e.writeMu.Free?
    requires ok ==> e.connUp
    ensures var id, c := NextID(e.core), Register(e.core, target);
      var r := Steps(e, OpenEvents(e.core, target, ok));
      && r.Some? && r.value.threads == e.threads
      && r.value.core == (if ok then c else Remove(c, id))
      && r.value.log == e.log + (if ok then [Frame(STREAM_OPEN, id, target)] else [])
  {
    OpenIsReady(e, target);
    var i, c := |e.core.objs|, Register(e.core, target);
    assert !RemovePanics(c, NextID(e.core)) && NextID(e.core) in c.streams;
    hide Next, Ready, Shape, Steps, Remove, WellFormed, RemovePanics, Register, CloseEvents, NextID;
    AnnounceIsSteps(Next(e, OpenStream(target)), i, ok);
    ThenSteps(e, OpenStream(target), [SendOpen(i, ok)] + if ok then [] else CloseEvents(c, NextID(e.core), false));
  }

  lemma NoSteps(e: Endpoint)
    ensures Steps(e, []) == Some(e)
  {
  }

  // ---- The Close of a session ----

  /** Close is three steps, and others may come in between. */
  lemma SessionCloseIsSteps(e: Endpoint)
    requires Shape(e) && e.panic == None && e.shutdown == 0 && !RemoveAllPanics(e.core)
    ensures var r := Steps(e, [ShutStreams] + [ShutAccept, ShutConn]);
      && r.Some? && r.value.core == RemoveAll(e.core).(acceptOpen := false) && !r.value.connUp
      && r.value.log == e.log && r.value.threads == e.threads && r.value.panic == None
  {
    ShutIsReady(e);
    var e1 := CloseSession(e);
    ShutAcceptIsReady(e1);
    hide Next, Ready, Shape, Steps, RemoveAll, CloseSession, WellFormed, RemoveAllPanics;
    ThreeSteps(e, ShutStreams, ShutAccept, ShutConn);
  }

  lemma ShutIsReady(e: Endpoint)
    requires Shape(e) && e.panic == None && e.shutdown == 0 && !RemoveAllPanics(e.core)
    ensures var e' := CloseSession(e);
      && Ready(e, ShutStreams) && Next(e, ShutStreams) == e'
      && Shape(e') && e'.shutdown == 1 && e'.panic == None && e'.log == e.log && e'.threads == e.threads
      && e'.core == RemoveAll(e.core)
  {
  }

  lemma ShutAcceptIsReady(e: Endpoint)
    requires Shape(e) && e.panic == None && e.shutdown == 1
    ensures var e1 := Next(e, ShutAccept); var e2 := Next(e1, ShutConn);
      && Ready(e, ShutAccept) && Shape(e1) && Ready(e1, ShutConn)
      && e2 == e.(core := e.core.(acceptOpen := false), shutdown := 3, connUp := false)
  {
    hide RemoveAll;
  }
}
