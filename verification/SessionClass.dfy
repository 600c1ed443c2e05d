/** core/mux/session.go and stream.go as objects. Each method is a lock-held region, a channel operation or a
    sequence of them as one goroutine runs it; its effect on the shared state is the function of MuxCore that
    the transition system of module Mux steps by. */
module SessionClass {
  import opened Bytes
  import opened Crypto
  import opened Wrappers
  import opened Frame
  import FrameIO
  import opened MuxCore
  import opened Chunks

  class StreamObj {
    const id: uint32
    const target: Bytes
    ghost const index: nat
    var readChan: seq<Bytes>
    var chanOpen: bool
    var readBuf: Bytes
    var closed: bool

    constructor (id: uint32, target: Bytes, ghost index: nat)
      ensures Value() == NewStream(id, target) && this.index == index
    {
      this.id, this.target, this.index := id, target, index;
      readChan, chanOpen, readBuf, closed := [], true, [], false;
    }

    function Value(): Stream
      reads this
    {
      Stream(id, target, readChan, chanOpen, readBuf, closed)
    }

    /** Read(b) with len(b) == n. A real call waits where this one answers Blocked. */
    method Read(n: nat) returns (r: ReadOutcome)
      modifies this
      ensures r == ReadResult(old(Value()), n)
      ensures Value() == AfterRead(old(Value()), n)
    {
      if |readBuf| > 0 {
        var k := Min(n, |readBuf|);
        r := Data(readBuf[..k]);
        readBuf := readBuf[k..];
        return;
      }
      if readChan == [] {
        return if chanOpen then Blocked else Eof;
      }
      var chunk := readChan[0];
      readChan := readChan[1..];
      var k := Min(n, |chunk|);
      r := Data(chunk[..k]);
      if k < |chunk| {
        readBuf := chunk[k..];
      } else {
        assert chunk[k..] == [];
      }
    }
  }

  ghost function Values(objs: seq<StreamObj>): (v: seq<Stream>)
    reads objs
    ensures |v| == |objs| && forall i :: 0 <= i < |objs| ==> v[i] == objs[i].Value()
  {
    seq(|objs|, i requires 0 <= i < |objs| reads objs => objs[i].Value())
  }

  ghost function Indexes(objs: seq<StreamObj>): (v: seq<nat>)
    ensures |v| == |objs| && forall i :: 0 <= i < |objs| ==> v[i] == objs[i].index
  {
    seq(|objs|, i requires 0 <= i < |objs| => objs[i].index)
  }

  lemma ValuesSnoc(objs: seq<StreamObj>, s: StreamObj)
    ensures Values(objs + [s]) == Values(objs) + [s.Value()]
  {
  }

  ghost function Slots(m: map<uint32, StreamObj>): map<uint32, nat> {
    map id | id in m :: m[id].index
  }

  lemma SlotsInsert(m: map<uint32, StreamObj>, id: uint32, s: StreamObj)
    ensures Slots(m[id := s]) == Slots(m)[id := s.index]
  {
  }

  lemma SlotsDelete(m: map<uint32, StreamObj>, id: uint32)
    ensures Slots(m - {id}) == Slots(m) - {id}
  {
  }

  class Session {
    const isServer: bool
    const crypto: Aead
    const conn: FrameIO.Conn
    var nextStreamID: uint32
    var streams: map<uint32, StreamObj>
    var acceptChan: seq<StreamObj>
    var acceptOpen: bool
    var closed: bool
    ghost var created: seq<StreamObj>

    /** The tables name Streams of this session, each under its own ID. */
    ghost predicate Valid()
      reads this
    {
      && (forall i :: 0 <= i < |created| ==> created[i].index == i)
      && (forall id :: id in streams ==> Known(streams[id]) && streams[id].id == id)
      && (forall k :: 0 <= k < |acceptChan| ==> Known(acceptChan[k]))
    }

    /** s is one of the Streams of this session. */
    ghost predicate Known(s: StreamObj)
      reads this
    {
      s.index < |created| && created[s.index] == s
    }

    /** The shared state. */
    ghost function State(): (c: Core)
      requires Valid()
      reads this, created
      ensures WellFormed(c)
    {
      Core(nextStreamID, Values(created), Slots(streams), Indexes(acceptChan), acceptOpen, closed)
    }

    constructor (conn: FrameIO.Conn, crypto: Aead, isServer: bool)
      ensures Valid() && State() == NewCore(isServer) && this.conn == conn && this.crypto == crypto
      ensures created == []
    {
      this.conn, this.crypto, this.isServer := conn, crypto, isServer;
      nextStreamID := if isServer then 1 else 2;
      streams, acceptChan, acceptOpen, closed, created := map[], [], true, false, [];
    }

    /** A new Stream object in the map; in OpenStream and in the FrameStreamOpen branch. */
    method Insert(id: uint32, target: Bytes) returns (s: StreamObj)
      requires Valid()
      modifies this
      ensures Valid() && fresh(s) && created == old(created) + [s]
      ensures s.id == id && State() == MuxCore.Insert(old(State()), id, target)
    {
      ghost var objs, slots := created, Slots(streams);
      s := new StreamObj(id, target, |created|);
      SlotsInsert(streams, id, s);
      ValuesSnoc(created, s);
      streams := streams[id := s];
      created := created + [s];
      assert Values(objs) == old(Values(created));
      assert forall i :: 0 <= i < |objs| ==> created[i] == objs[i];
      assert created[|objs|] == s;
    }

    /** OpenStream under streamsMu. */
    method Register(target: Bytes) returns (s: StreamObj, ok: bool)
      requires Valid()
      modifies this
      ensures Valid() && ok == !old(closed)
      ensures ok ==> fresh(s) && created == old(created) + [s] && State() == MuxCore.Register(old(State()), target)
      ensures ok ==> s.id == NextID(old(State()))
      ensures !ok ==> created == old(created) && State() == old(State())
    {
      if closed {
        s := new StreamObj(0, [], 0);
        return s, false;
      }
      var streamID: uint32 := (nextStreamID + 2) % 0x1_0000_0000;
      nextStreamID := streamID;
      assert Values(created) == old(Values(created));
      s := Insert(streamID, target);
      ok := true;
    }

    /** close(stream.readChan) */
    method CloseChan(s: StreamObj) returns (panics: bool)
      requires Valid() && Known(s)
      modifies s`chanOpen
      ensures panics == !old(s.chanOpen)
      ensures State() == ShutChan(old(State()), s.index)
    {
      panics := !s.chanOpen;
      s.chanOpen := false;
      assert Values(created) == old(Values(created))[s.index := s.Value()];
    }

    method Delete(id: uint32)
      requires Valid()
      modifies `streams
      ensures Valid() && streams == old(streams) - {id}
      ensures State() == old(State()).(streams := old(State()).streams - {id})
    {
      SlotsDelete(streams, id);
      streams := streams - {id};
    }

    /** delete(s.streams, id); close(stream.readChan) */
    method DeleteAndClose(id: uint32) returns (panics: bool)
      requires Valid() && id in streams
      modifies this, created
      ensures Valid() && created == old(created) && streams == old(streams) - {id}
      ensures panics == !old(State()).objs[old(State()).streams[id]].chanOpen
      ensures State() == ShutChan(old(State()).(streams := old(State()).streams - {id}), old(State()).streams[id])
    {
      var stream := streams[id];
      Delete(id);
      panics := CloseChan(stream);
    }

    /** closeStream and the FrameStreamClose branch, under streamsMu. */
    method Remove(id: uint32) returns (existed: bool, panics: bool)
      requires Valid()
      modifies this, created
      ensures Valid() && created == old(created)
      ensures existed == (id in old(State()).streams) && panics == RemovePanics(old(State()), id)
      ensures !panics ==> State() == MuxCore.Remove(old(State()), id)
    {
      existed, panics := id in streams, false;
      if existed {
        panics := DeleteAndClose(id);
      }
    }

    /** The lookup of the FrameData branch. */
    method Lookup(id: uint32) returns (s: StreamObj?)
      requires Valid()
      ensures s == null <==> id !in State().streams
      ensures s != null ==> Known(s) && s.index == State().streams[id] && State().objs[s.index] == s.Value()
    {
      s := if id in streams then streams[id] else null;
    }

    /** acceptChan <- stream, with the default branch of the select. */
    method OfferAccept(s: StreamObj) returns (r: SendOutcome)
      requires Valid() && Known(s)
      modifies this
      ensures Valid() && created == old(created)
      ensures r == if !old(acceptOpen) then Panics else if |old(State()).acceptChan| < ACCEPT_QUEUE then Taken else Full
      ensures State() == if r == Taken then PushAccept(old(State()), s.index) else old(State())
    {
      if !acceptOpen { return Panics; }
      if |acceptChan| >= ACCEPT_QUEUE { return Full; }
      acceptChan := acceptChan + [s];
      r := Taken;
      assert State().objs == old(State()).objs;
    }

    /** readChan <- payload; Full means that the send waits. */
    method Deliver(s: StreamObj, chunk: Bytes) returns (r: SendOutcome)
      requires Valid() && Known(s)
      modifies s
      ensures Valid() && created == old(created)
      ensures r == if !old(s.chanOpen) then Panics else if |old(s.readChan)| < READ_QUEUE then Taken else Full
      ensures State() ==
        if r == Taken then SetStream(old(State()), s.index, Push(old(s.Value()), chunk)) else old(State())
    {
      if !s.chanOpen { return Panics; }
      if |s.readChan| >= READ_QUEUE { return Full; }
      s.readChan := s.readChan + [chunk];
      r := Taken;
      assert State().objs == old(State()).objs[s.index := s.Value()];
      assert State().streams == old(State()).streams;
    }

    /** A receive from acceptChan; null and not closed means that the receive waits. */
    method AcceptStream() returns (s: StreamObj?, eof: bool)
      requires Valid()
      modifies this
      ensures Valid() && created == old(created) && eof == (old(acceptChan) == [] && !old(acceptOpen))
      ensures s == null <==> old(State()).acceptChan == []
      ensures s == null ==> State() == old(State())
      ensures s != null ==> Known(s) && s.index == old(State()).acceptChan[0] && State() == PopAccept(old(State()))
    {
      if acceptChan == [] {
        return null, !acceptOpen;
      }
      s, eof := acceptChan[0], false;
      acceptChan := acceptChan[1..];
      assert State().objs == old(State()).objs;
    }

    /** Close under streamsMu: every stream in the map is deleted and its channel closed. */
    method RemoveEach() returns (panics: bool)
      requires Valid()
      modifies this, created
      ensures Valid() && created == old(created) && panics == RemoveAllPanics(old(State()))
      ensures !panics ==> State() == RemoveAll(old(State()))
    {
      hide RemoveSome, RemoveAll, RemoveAllPanics, ClosedSound, ShutChan;
      ghost var before := State();
      RemoveNone(before);
      ClosedSoundEnds(before);
      closed := true;
      assert State() == before.(closed := true);
      var left := streams.Keys;
      assert left == before.streams.Keys;
      while left != {}
        invariant left <= before.streams.Keys && created == old(created) && Valid()
        invariant streams.Keys == left && State() == RemoveSome(before, left)
        invariant forall id :: id in left ==> State().streams[id] == before.streams[id]
        invariant ClosedSound(before, left)
        decreases left
      {
        var id :| id in left;
        RemoveOneMore(before, left, id);
        ClosedSoundStep(before, left, id);
        panics := DeleteAndClose(id);
        if panics {
          return;
        }
        left := left - {id};
      }
      panics := false;
    }

    /** One turn of the loop of writeStreamData: k chunks, the first n bytes of data, are on the wire after base. */
    method WriteNextChunk(ghost base: Bytes, id: uint32, data: Bytes, noise: nat -> Noise, n: nat, k: nat)
      returns (m: nat, ok: bool, ghost tear: Bytes)
      requires Correct(crypto) && GoodNoise(noise) && n < |data|
      requires Framing(crypto, base, conn.sent, id, data, noise, n, k)
      modifies conn`sent, conn`budget, conn`down
      ensures ok ==> n < m <= |data| && Framing(crypto, base, conn.sent, id, data, noise, m, k + 1)
      ensures !ok ==> m == n && conn.sent == old(conn.sent) + tear
      ensures !ok ==> conn.down && CutsOff(crypto, id, data, n, noise, tear)
    {
      var f, size := NextFrame(id, data, n), Min(|data| - n, MAX_PAYLOAD);
      assert ValidNoise(noise(k));
      BodyFits(crypto, f, noise(k));
      FramingStep(crypto, base, conn.sent, id, data, noise, n, k);
      hide Encode, Framing, Correct, ValidNoise, GoodNoise, NextFrame, CutsOff;
      ghost var room := conn.Room(|Encode(crypto, f, noise(k))|);
      tear := Encode(crypto, f, noise(k))[..room];
      ok := FrameIO.WriteFrame(conn, crypto, f, noise(k));
      m := if ok then n + size else n;
    }

    /** writeStreamData. noise(k) is the noise of the k-th frame; tear is what of the next frame reached the
        wire when the connection broke. The count returned is exactly the bytes framed whole. */
    method WriteStreamData(id: uint32, data: Bytes, noise: nat -> Noise) returns (n: nat, ok: bool, ghost tear: Bytes)
      requires Correct(crypto) && GoodNoise(noise)
      modifies conn`sent, conn`budget, conn`down
      ensures closed ==> n == 0 && !ok && conn.sent == old(conn.sent)
      ensures !closed ==> n <= |data| && ok == (n == |data|)
      ensures !closed ==> conn.sent == old(conn.sent) + Wire(crypto, id, data[..n], noise) + tear
      ensures ok ==> tear == []
      ensures !closed && !ok ==> n % MAX_PAYLOAD == 0 && conn.down && CutsOff(crypto, id, data, n, noise, tear)
    {
      tear, n, ok := [], 0, false;
      if closed { return; }
      var k := 0;
      NoChunksYet(crypto, id, data, noise);
      assert Framing(crypto, conn.sent, conn.sent, id, data, noise, 0, 0);
      hide Encode, Split, Wire, Correct, GoodNoise, CutsOff, Framing;
      while n < |data|
        invariant n <= |data| && Framing(crypto, old(conn.sent), conn.sent, id, data, noise, n, k)
      {
        FramingMeans(crypto, old(conn.sent), conn.sent, id, data, noise, n, k);
        var m, written;
        m, written, tear := WriteNextChunk(old(conn.sent), id, data, noise, n, k);
        if !written { return; }
        n, k := m, k + 1;
      }
      FramingMeans(crypto, old(conn.sent), conn.sent, id, data, noise, n, k);
      tear, ok := [], true;
    }

    /** closeStream. */
    method CloseStream(id: uint32, noise: Noise) returns (panics: bool)
      requires Valid() && Correct(crypto) && ValidNoise(noise)
      modifies this, created, conn`sent, conn`budget, conn`down
      ensures Valid() && created == old(created) && panics == RemovePanics(old(State()), id)
      ensures !panics ==> State() == MuxCore.Remove(old(State()), id)
      ensures
        var answer := if id in old(State()).streams && !panics then Some(Frame(STREAM_CLOSE, id, [])) else None;
        Answered(crypto, old(conn.sent), conn.sent, answer, noise, old(conn.budget), old(conn.down))
    {
      hide Encode, Correct, MuxCore.Remove, ShutChan, Values, Indexes, Slots, Body, WellFormed;
      var existed;
      existed, panics := Remove(id);
      if existed && !panics {
        BodyFits(crypto, Frame(STREAM_CLOSE, id, []), noise);
        var ok := FrameIO.WriteFrame(conn, crypto, Frame(STREAM_CLOSE, id, []), noise);
      }
    }

    /** Stream.Write */
    method StreamWrite(s: StreamObj, data: Bytes, noise: nat -> Noise) returns (n: nat, ok: bool, ghost tear: Bytes)
      requires Correct(crypto) && GoodNoise(noise)
      modifies conn`sent, conn`budget, conn`down
      ensures s.closed || closed ==> n == 0 && !ok && conn.sent == old(conn.sent)
      ensures !s.closed && !closed ==>
        && n <= |data| && ok == (n == |data|)
        && conn.sent == old(conn.sent) + Wire(crypto, s.id, data[..n], noise) + tear
        && (ok ==> tear == [])
        && (!ok ==> CutsOff(crypto, s.id, data, n, noise, tear))
    {
      if s.closed { return 0, false, []; }
      n, ok, tear := WriteStreamData(s.id, data, noise);
    }

    /** Stream.Close: only the first call does anything. */
    method StreamClose(s: StreamObj, noise: Noise) returns (panics: bool)
      requires Valid() && Known(s) && Correct(crypto) && ValidNoise(noise)
      modifies this, created, conn`sent, conn`budget, conn`down
      ensures Valid() && created == old(created)
      ensures old(s.closed) ==> !panics && State() == old(State()) && conn.sent == old(conn.sent)
      ensures !old(s.closed) ==>
        && var c := SetStream(old(State()), s.index, old(s.Value()).(closed := true));
        && panics == RemovePanics(c, s.id) && (!panics ==> State() == MuxCore.Remove(c, s.id))
        && var answer := if s.id in c.streams && !panics then Some(Frame(STREAM_CLOSE, s.id, [])) else None;
        && Answered(crypto, old(conn.sent), conn.sent, answer, noise, old(conn.budget), old(conn.down))
    {
      if s.closed { return false; }
      s.closed := true;
      assert Values(created) == old(Values(created))[s.index := s.Value()];
      panics := CloseStream(s.id, noise);
    }

    /** OpenStream: the stream is registered before its StreamOpen frame is sent, and taken back if that fails. */
    method OpenStream(target: Bytes, noise: Noise, closeNoise: Noise) returns (s: StreamObj, ok: bool)
      requires Valid() && Correct(crypto) && ValidNoise(noise) && ValidNoise(closeNoise)
      requires Representable(Frame(STREAM_OPEN, 0, target))
      modifies this, created, conn`sent, conn`budget, conn`down
      ensures Valid()
      ensures old(closed) ==> !ok && State() == old(State()) && conn.sent == old(conn.sent)
      ensures !old(closed) ==>
        && var id := NextID(old(State()));
        && var open := Encode(crypto, Frame(STREAM_OPEN, id, target), noise);
        && created == old(created) + [s] && fresh(s) && s.id == id
        && ok == (!old(conn.down) && |open| <= old(conn.budget))
        && conn.sent == old(conn.sent) + open[..old(conn.Room(|open|))]
        && State() == var c := MuxCore.Register(old(State()), target); if ok then c else MuxCore.Remove(c, id)
    {
      s, ok := Register(target);
      if !ok { return; }
      ghost var registered := State();
      assert s.id in registered.streams && registered.objs[registered.streams[s.id]].chanOpen;
      BodyFits(crypto, Frame(STREAM_OPEN, s.id, target), noise);
      ok := FrameIO.WriteFrame(conn, crypto, Frame(STREAM_OPEN, s.id, target), noise);
      assert State() == registered;
      if !ok {
        ghost var sent := conn.sent;
        var panics := CloseStream(s.id, closeNoise);
        assert conn.sent == sent;
      }
    }

    /** The FrameStreamOpen branch of readLoop. */
    method TurnOpen(f: Frame, noise: Noise, timesOut: bool) returns (r: SendOutcome)
      requires Valid() && Correct(crypto) && ValidNoise(noise) && f.kind == STREAM_OPEN
      modifies this, created, conn`sent, conn`budget, conn`down
      ensures Valid()
      ensures !RemovePanics(old(State()), f.id) ==> (State(), r) == LoopTurn(old(State()), f, timesOut)
      ensures !RemovePanics(old(State()), f.id) ==>
        Answered(crypto, old(conn.sent), conn.sent, LoopAnswer(old(State()), f, timesOut), noise, old(conn.budget),
                 old(conn.down))
    {
      hide Encode, Correct;
      var stream := Insert(f.id, f.payload);
      ghost var inserted := State();
      assert inserted.objs[inserted.streams[f.id]].chanOpen;
      r := OfferAccept(stream);
      if r == Full {
        var panics := CloseStream(f.id, noise);
        r := Taken;
      }
    }

    /** The FrameData branch. */
    method TurnData(f: Frame, timesOut: bool, noise: Noise) returns (r: SendOutcome)
      requires Valid() && Correct(crypto) && ValidNoise(noise) && f.kind == DATA
      modifies this, created, conn`sent, conn`budget, conn`down
      ensures Valid()
      ensures !RemovePanics(old(State()), f.id) ==> (State(), r) == LoopTurn(old(State()), f, timesOut)
      ensures !RemovePanics(old(State()), f.id) ==>
        Answered(crypto, old(conn.sent), conn.sent, LoopAnswer(old(State()), f, timesOut), noise, old(conn.budget),
                 old(conn.down))
    {
      hide Encode, Correct, MuxCore.Remove, ShutChan, Valid, State, WellFormed, ValidNoise, SetStream, Push;
      r := Taken;
      var stream := Lookup(f.id);
      if stream != null {
        r := Deliver(stream, f.payload);
        if r == Full && timesOut {
          var panics := CloseStream(f.id, noise);
          r := Taken;
        }
      }
    }

    /** One turn of the readLoop switch, uninterrupted. timesOut says that the five seconds pass before a full
        channel is read. */
    method Turn(f: Frame, timesOut: bool, noise: Noise) returns (r: SendOutcome)
      requires Valid() && Correct(crypto) && ValidNoise(noise)
      modifies this, created, conn`sent, conn`budget, conn`down
      ensures Valid()
      ensures !RemovePanics(old(State()), f.id) ==> (State(), r) == LoopTurn(old(State()), f, timesOut)
      ensures !RemovePanics(old(State()), f.id) ==>
        Answered(crypto, old(conn.sent), conn.sent, LoopAnswer(old(State()), f, timesOut), noise, old(conn.budget),
                 old(conn.down))
    {
      hide Encode, Correct;
      r := Taken;
      if f.kind == STREAM_OPEN {
        r := TurnOpen(f, noise, timesOut);
      } else if f.kind == DATA {
        r := TurnData(f, timesOut, noise);
      } else if f.kind == STREAM_CLOSE {
        var existed, panics := Remove(f.id);
      } else if f.kind == PING {
        BodyFits(crypto, Frame(PONG, 0, []), noise);
        var ok := FrameIO.WriteFrame(conn, crypto, Frame(PONG, 0, []), noise);
      }
    }

    /** Close; closeOnce lets it run once. */
    method Close() returns (panics: bool)
      requires Valid() && !closed
      modifies this, created, conn`down
      ensures Valid() && panics == RemoveAllPanics(old(State()))
      ensures !panics ==> State() == RemoveAll(old(State())).(acceptOpen := false) && conn.down
    {
      panics := RemoveEach();
      if !panics {
        ghost var removed := State();
        acceptOpen := false;
        conn.down := true;
        assert State() == removed.(acceptOpen := false);
      }
    }
  }

  /** The frame, if any, was sent, as far as the connection went. */
  ghost predicate Answered(
    c: Aead, before: Bytes, after: Bytes, answer: Option<Frame>, noise: Noise, budget: nat, down: bool)
  {
    match answer
    case None => after == before
    case Some(g) =>
      var b := Encode(c, g, noise);
      after == before + b[..if down then 0 else Min(|b|, budget)]
  }

  ghost function Noises(noise: nat -> Noise, k: nat): (ns: seq<Noise>)
    ensures |ns| == k
  {
    seq(k, i requires 0 <= i < k => noise(i))
  }

  lemma BodyFits(c: Aead, f: Frame, n: Noise)
    requires Correct(c) && ValidNoise(n) && Representable(f)
    ensures |Body(c, f, n)| < 0x1_0000_0000
  {
    DecryptEncrypt(c, n.nonce, f.payload + n.padding);
  }

  /** The bytes that writing data on id puts on the wire. */
  ghost function Wire(c: Aead, id: uint32, data: Bytes, noise: nat -> Noise): Bytes {
    Framed(c, DataFrames(id, Split(data)), Noises(noise, |Split(data)|))
  }

  /** tear is a strict prefix of the frame that follows the first n bytes of data. */
  ghost predicate CutsOff(c: Aead, id: uint32, data: Bytes, n: nat, noise: nat -> Noise, tear: Bytes)
    requires n <= |data|
  {
    var next := Encode(c, NextFrame(id, data, n), noise(|Split(data[..n])|));
    tear <= next && tear != next
  }

  ghost predicate GoodNoise(noise: nat -> Noise) {
    forall k :: ValidNoise(noise(k))
  }

  /** The frame of the chunk that starts at offset n. */
  function NextFrame(id: uint32, data: Bytes, n: nat): Frame
    requires n <= |data|
  {
    Frame(DATA, id, ChunkAt(data, n))
  }

  /** Of data, the first n bytes, in k chunks, have been written after base. */
  ghost predicate Framing(c: Aead, base: Bytes, sent: Bytes, id: uint32, data: Bytes, noise: nat -> Noise, n: nat,
                          k: nat) {
    && n <= |data| && k == |Split(data[..n])| && (n < |data| ==> n == k * MAX_PAYLOAD)
    && sent == base + Wire(c, id, data[..n], noise)
  }

  lemma FramingMeans(c: Aead, base: Bytes, sent: Bytes, id: uint32, data: Bytes, noise: nat -> Noise, n: nat, k: nat)
    requires Framing(c, base, sent, id, data, noise, n, k)
    ensures n <= |data| && sent == base + Wire(c, id, data[..n], noise)
    ensures n < |data| ==> n % MAX_PAYLOAD == 0
  {
    hide Wire, Split;
  }

  lemma FramingStep(c: Aead, base: Bytes, sent: Bytes, id: uint32, data: Bytes, noise: nat -> Noise, n: nat, k: nat)
    requires Framing(c, base, sent, id, data, noise, n, k) && n < |data|
    ensures var frame, m := Encode(c, NextFrame(id, data, n), noise(k)), n + Min(|data| - n, MAX_PAYLOAD);
      && Framing(c, base, sent + frame, id, data, noise, m, k + 1)
      && (forall tear: Bytes :: tear <= frame && tear != frame ==> CutsOff(c, id, data, n, noise, tear))
  {
    hide Encode, Wire, Split;
    var frame := Encode(c, NextFrame(id, data, n), noise(k));
    OneMoreChunk(c, id, data, n, k, ChunkAt(data, n), noise);
    assert base + Wire(c, id, data[..n], noise) + frame == base + (Wire(c, id, data[..n], noise) + frame);
  }

  lemma NoChunksYet(c: Aead, id: uint32, data: Bytes, noise: nat -> Noise)
    ensures Split(data[..0]) == [] && Wire(c, id, data[..0], noise) == []
  {
    assert data[..0] == [];
  }

  lemma OneMoreChunk(c: Aead, id: uint32, data: Bytes, n: nat, k: nat, chunk: Bytes, noise: nat -> Noise)
    requires n < |data| && n == k * MAX_PAYLOAD && k == |Split(data[..n])| && chunk == ChunkAt(data, n)
    ensures var m := n + |chunk|;
      && |Split(data[..m])| == k + 1
      && Wire(c, id, data[..m], noise) == Wire(c, id, data[..n], noise) + Encode(c, Frame(DATA, id, chunk), noise(k))
  {
    hide Encode;
    var m, sent := n + |chunk|, Split(data[..n]);
    assert data[..m] == data[..n] + chunk;
    SplitSnoc(data[..n], chunk);
    assert DataFrames(id, sent + [chunk]) == DataFrames(id, sent) + [Frame(DATA, id, chunk)];
    assert Noises(noise, |sent| + 1) == Noises(noise, |sent|) + [noise(|sent|)];
    FramedSnoc(c, DataFrames(id, sent), Noises(noise, |sent|), Frame(DATA, id, chunk), noise(|sent|));
  }
}
