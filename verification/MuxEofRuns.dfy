/** Two runs in which EOF comes before the end. */
module MuxEofRuns {
  import opened Wrappers
  import opened Bytes
  import opened Frame
  import opened MuxCore
  import opened Mux
  import MuxTheorems
  import Chunks
  import MuxTurn
  import opened MuxCalls
  import opened MuxReach

  // ---- A Write that races with the Close of its stream ----

  const CLOSE_FRAME: Frame := Frame(STREAM_CLOSE, 3, [])

  /** The server's user closes the stream while a Write waits for the lock; the StreamClose goes out first. */
  const WRITING_SERVER: Endpoint := OPEN_SERVER.(threads := multiset{Writing(0, [1])})

  const SHUT_CORE: Core := Core(3, [Stream(3, [], [], false, [], true)], map[], [], true, false)

  const CLOSED_SERVER: Endpoint :=
    WRITING_SERVER.(core := SHUT_CORE, log := [OPEN_FRAME, CLOSE_FRAME],
                    hist := [History(Opened(1, 0), true, [], [], ClosedHere)])

  const LATE_SERVER: Endpoint :=
    CLOSED_SERVER.(threads := multiset{}, log := [OPEN_FRAME, CLOSE_FRAME, DATA_FRAME],
                   hist := [History(Opened(1, 0), true, [1], [], ClosedHere)])

  const CALLED_SERVER: Endpoint :=
    WRITING_SERVER.(core := Core(3, [Stream(3, [], [], true, [], true)], map[3 := 0], [], true, false),
                    threads := multiset{Writing(0, [1]), Closing(3)})

  const UNLINKED_SERVER: Endpoint :=
    CLOSED_SERVER.(threads := multiset{Writing(0, [1]), CloseSend(3)}, log := [OPEN_FRAME])

  lemma CallsBoth(client: Endpoint)
    requires Reachable(System(OPEN_SERVER, client))
    ensures Reachable(System(CALLED_SERVER, client))
  {
    hide Next, Ready, Reachable;
    CallIsReady(OPEN_SERVER, 0, [1]);
    ReachNext(System(OPEN_SERVER, client), AtServer, CallWrite(0, [1]));
    assert Fork(OPEN_SERVER, Writing(0, [1])) == WRITING_SERVER;
    CallCloseIsReady(WRITING_SERVER, 0);
    ReachNext(System(WRITING_SERVER, client), AtServer, CallClose(0));
    var e := Next(WRITING_SERVER, CallClose(0));
    assert e.core.objs == CALLED_SERVER.core.objs && e.threads == CALLED_SERVER.threads;
  }

  lemma Unlinks()
    ensures CloseLocally(Finish(CALLED_SERVER, Closing(3)), 3) == UNLINKED_SERVER
  {
    var e, e' := Finish(CALLED_SERVER, Closing(3)), UNLINKED_SERVER;
    assert e.threads == multiset{Writing(0, [1])};
    Shuts();
    assert Unlink(e, 3, ClosedHere).hist == e'.hist;
  }

  lemma Shuts()
    ensures Remove(CALLED_SERVER.core, 3) == SHUT_CORE
  {
    var c := Remove(CALLED_SERVER.core, 3);
    assert c.objs == SHUT_CORE.objs && c.streams == map[];
  }

  lemma UnlinksInRun(client: Endpoint)
    requires Reachable(System(CALLED_SERVER, client))
    ensures Reachable(System(UNLINKED_SERVER, client))
  {
    hide Next, Ready, Reachable, CloseLocally;
    CloseIsReady(CALLED_SERVER, 3);
    ReachNext(System(CALLED_SERVER, client), AtServer, CloseStream(3));
    Unlinks();
  }

  lemma SendsClose(client: Endpoint)
    requires Reachable(System(UNLINKED_SERVER, client))
    ensures Reachable(System(CLOSED_SERVER, client))
  {
    hide Next, Ready, Reachable;
    SendIsReady(UNLINKED_SERVER, 3, true);
    ReachNext(System(UNLINKED_SERVER, client), AtServer, SendClose(3, true));
    var e := Send(Finish(UNLINKED_SERVER, CloseSend(3)), CLOSE_FRAME);
    assert e.threads == CLOSED_SERVER.threads && e.log == CLOSED_SERVER.log;
  }

  lemma ServerWritesLate(client: Endpoint)
    requires Reachable(System(CLOSED_SERVER, client))
    ensures Reachable(System(LATE_SERVER, client))
  {
    hide Next, Ready, Reachable, MuxTurn.Steps, AfterWrite, WriteEvents;
    OneChunk();
    WriteIsSteps(CLOSED_SERVER, 0, [1], 1);
    WriteSendsOnly(0, [1], 1);
    ReachSteps(System(CLOSED_SERVER, client), AtServer, WriteEvents(0, [1], 1));
    LateWrite();
  }

  lemma LateWrite()
    ensures 1 <= |Chunks.Split([1])| && AfterWrite(CLOSED_SERVER, 0, [1], 1) == LATE_SERVER
  {
    OneChunk();
    assert Chunks.Split([1])[..1] == [[1]];
    var e := AfterWrite(CLOSED_SERVER, 0, [1], 1);
    assert e.threads == multiset{} && e.hist == LATE_SERVER.hist && e.log == LATE_SERVER.log;
  }

  /** The client after the StreamClose. */
  const EMPTIED_CLIENT: Endpoint :=
    Client(0).(core := Core(2, [Stream(3, [], [], false, [], false)], map[], [], true, false), rd := 2,
               hist := [History(Arrived(0), true, [], [], ClosedByPeer)])

  /** The client's Read on its only stream, which ended as fate says, says EOF, but has returned less than was
      written. */
  ghost predicate ShortEof(s: System, fate: Fate, returned: Bytes, sent: Bytes) {
    && |s.client.hist| == |s.client.core.objs| == 1 && s.client.hist[0].fate == fate
    && (forall n :: ReadResult(s.client.core.objs[0], n) == Eof)
    && MuxTheorems.Returned(s.client, 3) == returned && MuxTheorems.Sent(s.server, 3) == sent
    && returned < sent
  }

  /** Although the peer closed the stream, and the client's Read says EOF, a byte that the peer's Write has reported
      as written was not read. */
  lemma EofAfterPeerCloseCanBeShort()
    ensures exists s :: Reachable(s) && ShortEof(s, ClosedByPeer, [], [1])
  {
    hide Next, Ready, Reachable;
    ServerReaches(0);
    assert Server(0) == OPEN_SERVER;
    CallsBoth(NewEndpoint(false));
    UnlinksInRun(NewEndpoint(false));
    SendsClose(NewEndpoint(false));
    ServerWritesLate(NewEndpoint(false));
    ClientHolds(LATE_SERVER);
    MuxTurn.ReceiveIsHandle(Client(0), CLOSE_FRAME);
    ReachNext(System(LATE_SERVER, Client(0)), AtClient, Receive(CLOSE_FRAME));
    ClientEmptied();
    var s := System(LATE_SERVER, EMPTIED_CLIENT);
    assert Reachable(s) && ShortEof(s, ClosedByPeer, [], [1]);
  }

  lemma ClientEmptied()
    ensures Handle(Client(0), CLOSE_FRAME) == EMPTIED_CLIENT
  {
    var e := Handle(Client(0), CLOSE_FRAME);
    assert e.core == EMPTIED_CLIENT.core && e.hist == EMPTIED_CLIENT.hist;
  }

  // ---- A reader that is too slow ----

  /** The client after it has given up a byte for a stream with a full channel, of which n bytes are still unread. */
  function Dropped(n: nat): Endpoint
    requires n <= READ_QUEUE
  {
    Client(READ_QUEUE).(core := Core(2, [Stream(3, [], ByteChunks(n), false, [], false)], map[], [], true, false),
                        rd := READ_QUEUE + 2, threads := multiset{CloseSend(3)},
                        hist := [History(Arrived(0), true, [], Ones(READ_QUEUE - n), ClosedHere)])
  }

  lemma GivesUp(server: Endpoint)
    requires Reachable(System(server, Reading(READ_QUEUE)))
    ensures Reachable(System(server, Dropped(READ_QUEUE)))
  {
    hide Next, Ready, Reachable, ByteChunks, CloseLocally;
    var e := Reading(READ_QUEUE);
    MuxTurn.LoopNextIsNext(e, Timeout);
    ReachNext(System(server, e), AtClient, Timeout);
    var e1 := e.(loop := TimedOut(0, [1]));
    MuxTurn.LoopNextIsNext(e1, GiveUp);
    ReachNext(System(server, e1), AtClient, GiveUp);
    DropsStream();
  }

  lemma DropsStream()
    ensures CloseLocally(Reading(READ_QUEUE).(loop := TimedOut(0, [1])), 3).(loop := Idle) == Dropped(READ_QUEUE)
  {
    hide ByteChunks;
    var e, e' := CloseLocally(Reading(READ_QUEUE).(loop := TimedOut(0, [1])), 3).(loop := Idle), Dropped(READ_QUEUE);
    assert Ones(0) == [];
    assert e.core.objs == e'.core.objs && e.core.streams == map[] && e.threads == e'.threads && e.hist == e'.hist;
  }

  lemma ReadsOneByte(server: Endpoint, n: nat)
    requires 0 < n <= READ_QUEUE && Reachable(System(server, Dropped(n)))
    ensures Reachable(System(server, Dropped(n - 1)))
  {
    hide Next, Ready, Reachable, ReadStream;
    var e := Dropped(n);
    ReadIsReady(e, 0, 1);
    ReachNext(System(server, e), AtClient, Read(0, 1));
    FirstByte(n);
  }

  lemma ReadIsReady(e: Endpoint, i: nat, n: nat)
    requires Shape(e) && e.panic == None && Holds(e, i)
    ensures Ready(e, Read(i, n)) && Next(e, Read(i, n)) == ReadStream(e, i, n)
  {
    hide WellFormed, ReadStream;
  }

  lemma {:induction false} ByteChunksTail(n: nat)
    requires n > 0
    ensures ByteChunks(n)[0] == [1] && ByteChunks(n)[1..] == ByteChunks(n - 1)
  {
    if n > 1 {
      ByteChunksTail(n - 1);
      assert ByteChunks(n)[1..] == ByteChunks(n - 1)[1..] + [[1]];
    }
  }

  lemma FirstByte(n: nat)
    requires 0 < n <= READ_QUEUE
    ensures ReadStream(Dropped(n), 0, 1) == Dropped(n - 1)
  {
    hide ByteChunks;
    ByteChunksTail(n);
    var one: Bytes := [1];
    assert one[..1] == one && one[1..] == [];
    var e, e' := ReadStream(Dropped(n), 0, 1), Dropped(n - 1);
    assert e.hist == e'.hist && e.core.objs == e'.core.objs;
  }

  lemma {:induction false} ReadsAll(server: Endpoint, n: nat)
    requires n <= READ_QUEUE && Reachable(System(server, Dropped(n)))
    ensures Reachable(System(server, Dropped(0)))
  {
    hide Reachable, Dropped;
    if n > 0 {
      ReadsOneByte(server, n);
      ReadsAll(server, n - 1);
    }
  }

  /** The server writes 129 bytes one by one, and the client's user reads none of them for five seconds: what follows
      is 128 bytes and EOF. */
  lemma EofAfterTimeoutIsShort()
    ensures exists s :: Reachable(s) && ShortEof(s, ClosedHere, Ones(READ_QUEUE), Ones(READ_QUEUE + 1))
  {
    hide Next, Ready, Reachable, Ones, Frames, Dropped;
    var server := Server(READ_QUEUE + 1);
    ServerReaches(READ_QUEUE + 1);
    ClientHolds(server);
    ClientReaches(server, READ_QUEUE);
    ClientReads(server, READ_QUEUE);
    GivesUp(server);
    ReadsAll(server, READ_QUEUE);
    DroppedAtEnd();
    var s := System(server, Dropped(0));
    assert Ones(READ_QUEUE) < Ones(READ_QUEUE + 1) by { OneMore(READ_QUEUE); }
    assert Reachable(s) && ShortEof(s, ClosedHere, Ones(READ_QUEUE), Ones(READ_QUEUE + 1));
  }

  lemma OneMore(n: nat)
    ensures Ones(n) < Ones(n + 1)
  {
  }

  lemma DroppedAtEnd()
    ensures var e := Dropped(0);
      && |e.hist| == |e.core.objs| == 1 && e.hist[0].fate == ClosedHere
      && (forall n :: ReadResult(e.core.objs[0], n) == Eof) && MuxTheorems.Returned(e, 3) == Ones(READ_QUEUE)
  {
    hide Ones;
  }
}
