/** Reachable states of two joined sessions, and the runs that lead to some of them: the server opens a stream and
    writes single bytes on it, and the client reads frames. */
module MuxReach {
  import opened Wrappers
  import opened Bytes
  import opened Frame
  import opened MuxCore
  import opened Mux
  import MuxInvariant
  import MuxFlow
  import Chunks
  import MuxTurn
  import opened MuxCalls

  ghost predicate Reachable(s: System) {
    exists states: seq<System>, acts: seq<Action> :: Run(states, acts) && states[|acts|] == s
  }

  lemma StartIsReachable()
    ensures Reachable(NewSystem())
  {
    assert Run([NewSystem()], []);
  }

  lemma ReachNext(s: System, side: Side, ev: Event)
    requires Reachable(s) && Enabled(s.At(side), ev, s.At(Peer(side)).log)
    ensures Reachable(s.With(side, Next(s.At(side), ev)))
  {
    hide Shape, Ready, Next;
    var states: seq<System>, acts: seq<Action> :| Run(states, acts) && states[|acts|] == s;
    var s' := s.With(side, Next(s.At(side), ev));
    var states', acts' := states + [s'], acts + [Action(side, ev)];
    forall k | 0 <= k < |acts'| ensures Step(states'[k], acts'[k].side, acts'[k].ev, states'[k + 1]) {
      if k < |acts| {
        assert Step(states[k], acts[k].side, acts[k].ev, states[k + 1]);
      }
    }
    assert Run(states', acts') && states'[|acts'|] == s';
  }

  lemma {:induction false} ReachSteps(s: System, side: Side, evs: seq<Event>)
    requires Reachable(s) && MuxTurn.Steps(s.At(side), evs).Some?
    requires forall k :: 0 <= k < |evs| ==> !evs[k].Receive?
    ensures Reachable(s.With(side, MuxTurn.Steps(s.At(side), evs).value))
    decreases |evs|
  {
    hide Next, Ready, Shape, Reachable;
    if evs == [] {
      assert s.With(side, s.At(side)) == s;
    } else {
      ReachNext(s, side, evs[0]);
      ReachSteps(s.With(side, Next(s.At(side), evs[0])), side, evs[1..]);
    }
  }

  lemma ReachableIsLocal(s: System)
    requires Reachable(s)
    ensures MuxInvariant.Local(s.server) && MuxInvariant.Local(s.client)
  {
    hide Step, MuxInvariant.Local, MuxInvariant.Linked;
    var states: seq<System>, acts: seq<Action> :| Run(states, acts) && states[|acts|] == s;
    MuxFlow.RunInvariant(states, acts, |acts|);
  }

  // ---- The server ----

  const OPEN_FRAME: Frame := Frame(STREAM_OPEN, 3, [])

  /** The server has opened its first stream. */
  const OPEN_SERVER: Endpoint :=
    Endpoint(true, Core(3, [NewStream(3, [])], map[3 := 0], [], true, false), multiset{}, Free, Idle, None, true, 0,
             [OPEN_FRAME], 0, [History(Opened(1, 0), true, [], [], Live)], 1, map[3 := 0], [])

  lemma ServerOpened()
    returns (e1: Endpoint)
    ensures Enabled(NewEndpoint(true), OpenStream([]), []) && e1 == Next(NewEndpoint(true), OpenStream([]))
    ensures Enabled(e1, SendOpen(0, true), []) && OPEN_SERVER == Next(e1, SendOpen(0, true))
    ensures e1.log == []
  {
    e1 := Next(NewEndpoint(true), OpenStream([]));
    assert e1.threads == multiset{OpenSend(0)};
    var e2 := Next(e1, SendOpen(0, true));
    assert e2.core == OPEN_SERVER.core && e2.hist == OPEN_SERVER.hist && e2.owner == OPEN_SERVER.owner;
    assert e2.log == OPEN_SERVER.log && e2.threads == multiset{};
  }

  const DATA_FRAME: Frame := Frame(DATA, 3, [1])

  function Ones(n: nat): (b: Bytes)
    ensures |b| == n
  {
    if n == 0 then [] else Ones(n - 1) + [1]
  }

  /** Its frames after n writes of a single byte. */
  function Frames(n: nat): (fs: seq<Frame>)
    ensures |fs| == n + 1 && fs[0] == OPEN_FRAME && forall k :: 1 <= k <= n ==> fs[k] == DATA_FRAME
  {
    if n == 0 then [OPEN_FRAME] else Frames(n - 1) + [DATA_FRAME]
  }

  function Server(n: nat): Endpoint {
    OPEN_SERVER.(log := Frames(n), hist := [History(Opened(1, 0), true, Ones(n), [], Live)])
  }

  lemma OneChunk()
    ensures Chunks.Split([1]) == [[1]] && Concat([[1]]) == [1] && ChunkAt([1], 0) == [1]
    ensures Chunks.DataFrames(3, [[1]]) == [DATA_FRAME]
  {
    var one: Bytes := [1];
    assert one[..1] == one && Chunks.Split(one[1..]) == [];
    assert Concat([one]) == Concat([]) + one;
  }

  lemma ServerWrites(n: nat, client: Endpoint)
    requires Reachable(System(Server(n), client))
    ensures Reachable(System(Server(n + 1), client))
  {
    hide Next, Ready, Reachable, MuxTurn.Steps, AfterWrite, WriteEvents;
    var e := Server(n);
    CallIsReady(e, 0, [1]);
    ReachNext(System(e, client), AtServer, CallWrite(0, [1]));
    var e1 := Fork(e, Writing(0, [1]));
    OneChunk();
    WriteIsSteps(e1, 0, [1], 1);
    WriteSendsOnly(0, [1], 1);
    ReachSteps(System(e1, client), AtServer, WriteEvents(0, [1], 1));
    WroteByte(n);
  }

  lemma WroteByte(n: nat)
    ensures Shape(Fork(Server(n), Writing(0, [1]))) && 1 <= |Chunks.Split([1])|
    ensures AfterWrite(Fork(Server(n), Writing(0, [1])), 0, [1], 1) == Server(n + 1)
  {
    OneChunk();
    var e, e' := Fork(Server(n), Writing(0, [1])), Server(n + 1);
    assert Chunks.Split([1])[..1] == [[1]];
    assert AfterWrite(e, 0, [1], 1).threads == e'.threads;
    assert AfterWrite(e, 0, [1], 1).hist == e'.hist;
  }

  lemma WriteSendsOnly(i: nat, data: Bytes, k: nat)
    ensures forall j :: 0 <= j < |WriteEvents(i, data, k)| ==> !WriteEvents(i, data, k)[j].Receive?
  {
    RepeatIs(WriteChunk(true), k);
  }

  lemma {:induction false} RepeatIs(ev: Event, k: nat)
    ensures forall j :: 0 <= j < k ==> Repeat(ev, k)[j] == ev
  {
    if k > 0 {
      RepeatIs(ev, k - 1);
    }
  }

  lemma {:induction false} ServerReaches(n: nat)
    ensures Reachable(System(Server(n), NewEndpoint(false)))
  {
    hide Next, Ready, Shape, Reachable;
    if n == 0 {
      var e1 := ServerOpened();
      var c0 := NewEndpoint(false);
      StartIsReachable();
      ReachNext(System(NewEndpoint(true), c0), AtServer, OpenStream([]));
      ReachNext(System(e1, c0), AtServer, SendOpen(0, true));
      assert Server(0) == OPEN_SERVER;
    } else {
      ServerReaches(n - 1);
      ServerWrites(n - 1, NewEndpoint(false));
    }
  }

  // ---- The client ----

  /** A client that has read the announcement. */
  const TOLD_CLIENT: Endpoint :=
    Endpoint(false, Core(2, [NewStream(3, [])], map[3 := 0], [], true, false), multiset{}, Free, Offering(0), None,
             true, 0, [], 1, [History(Arrived(0), false, [], [], Live)], 0, map[3 := 0], [])

  function ByteChunks(n: nat): (chunks: seq<Bytes>)
    ensures |chunks| == n
  {
    if n == 0 then [] else ByteChunks(n - 1) + [[1]]
  }

  /** One whose caller holds the stream, with n bytes read off the wire and none by the caller. */
  function Client(n: nat): Endpoint {
    TOLD_CLIENT.(loop := Idle, core := TOLD_CLIENT.core.(objs := [NewStream(3, []).(chan := ByteChunks(n))]),
                 hist := [History(Arrived(0), true, [], [], Live)], accepted := [0], rd := n + 1)
  }

  lemma ClientIsTold(log: seq<Frame>)
    requires log != [] && log[0] == OPEN_FRAME
    ensures Enabled(NewEndpoint(false), Receive(OPEN_FRAME), log)
    ensures TOLD_CLIENT == Next(NewEndpoint(false), Receive(OPEN_FRAME))
  {
    hide Next, Ready;
    var c0 := NewEndpoint(false);
    MuxTurn.ReceiveIsHandle(c0, OPEN_FRAME);
    var c1 := Handle(c0, OPEN_FRAME);
    assert c1.core == TOLD_CLIENT.core && c1.hist == TOLD_CLIENT.hist && c1.owner == TOLD_CLIENT.owner;
  }

  lemma ClientAccepts(log: seq<Frame>)
    returns (c2: Endpoint)
    ensures Enabled(TOLD_CLIENT, Offer, log) && c2 == Next(TOLD_CLIENT, Offer)
    ensures Enabled(c2, Accept, log) && Client(0) == Next(c2, Accept)
  {
    hide Next, Ready;
    MuxTurn.LoopNextIsNext(TOLD_CLIENT, Offer);
    c2 := TOLD_CLIENT.(core := TOLD_CLIENT.core.(acceptChan := [0]), loop := Idle);
    assert OfferStream(TOLD_CLIENT).core.acceptChan == [0];
    AcceptIsReady(c2);
    var c3 := AcceptNext(c2);
    assert c3.core == Client(0).core && c3.hist == Client(0).hist && c3.accepted == Client(0).accepted;
  }

  lemma ClientHolds(server: Endpoint)
    requires Reachable(System(server, NewEndpoint(false))) && server.log != [] && server.log[0] == OPEN_FRAME
    ensures Reachable(System(server, Client(0)))
  {
    hide Next, Ready, Shape, Reachable;
    ClientIsTold(server.log);
    var c2 := ClientAccepts(server.log);
    ReachNext(System(server, NewEndpoint(false)), AtClient, Receive(OPEN_FRAME));
    ReachNext(System(server, TOLD_CLIENT), AtClient, Offer);
    ReachNext(System(server, c2), AtClient, Accept);
  }

  /** The client has read one more byte and not delivered it yet. */
  function Reading(n: nat): Endpoint {
    Client(n).(loop := Delivering(0, [1]), rd := n + 2)
  }

  lemma ClientReads(server: Endpoint, n: nat)
    requires Reachable(System(server, Client(n))) && |server.log| > n + 1 && server.log[n + 1] == DATA_FRAME
    ensures Reachable(System(server, Reading(n)))
  {
    hide Next, Ready, Reachable;
    MuxTurn.ReceiveIsHandle(Client(n), DATA_FRAME);
    ReachNext(System(server, Client(n)), AtClient, Receive(DATA_FRAME));
  }

  lemma ClientDelivers(server: Endpoint, n: nat)
    requires Reachable(System(server, Reading(n))) && n < READ_QUEUE
    ensures Reachable(System(server, Client(n + 1)))
  {
    hide Next, Ready, Reachable;
    MuxTurn.LoopNextIsNext(Reading(n), Deliver);
    ReachNext(System(server, Reading(n)), AtClient, Deliver);
    assert DeliverChunk(Reading(n)).core == Client(n + 1).core;
  }

  lemma {:induction false} ClientReaches(server: Endpoint, n: nat)
    requires Reachable(System(server, Client(0))) && n <= READ_QUEUE
    requires |server.log| > n && forall k :: 1 <= k <= n ==> server.log[k] == DATA_FRAME
    ensures Reachable(System(server, Client(n)))
  {
    hide Reachable, Client, Reading;
    if n > 0 {
      ClientReaches(server, n - 1);
      ClientReads(server, n - 1);
      ClientDelivers(server, n - 1);
    }
  }
}
