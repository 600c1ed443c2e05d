/** What apply_configs brings about: convergence, idempotence, and when a live tunnel is relaunched. */
module Reconcile {
  import opened Wrappers
  import Decimal
  import opened Firewall
  import opened Agent

  /** The calls for the item succeed, its core type is known, and a gost item has a command. */
  predicate Good(it: Item, w: World) {
    && w.launch.Some?
    && it.coreType in {"hawal", "backhaul", "paqet", "gost"}
    && (it.coreType != "backhaul" ==> w.binary.Ready?)
    && (it.coreType == "paqet" ==> NetOk(w.net))
    && (if it.coreType == "gost" then !it.emptyCommand else w.fileOk)
  }

  /** The text that the item's tunnel is to run under: what it is configured with, and its nonce. */
  function Asked(it: Item, net: NetInfo): string {
    (if it.coreType == "paqet" then Fill(it.content, net) else it.content) + "\0restart:" + Decimal.Str(it.nonce)
  }

  /** The tunnel has a process that lives, and it was launched under that text. */
  predicate Satisfied(s: State, it: Item, w: World) {
    it.id in s.procs && w.alive && it.id in s.configs && s.configs[it.id] == Asked(it, w.net)
  }

  lemma SatisfiedIsCurrent(s: State, it: Item, w: World)
    ensures MarkerOf(it, w.net) == Asked(it, w.net) && (Current(s, it, w) <==> Satisfied(s, it, w))
  {
    hide Fill, Decimal.Str;
  }

  /** What is remembered of a tunnel that was launched. */
  function Remembered(it: Item): Meta {
    if it.coreType == "paqet" then Paqet(it.role, it.corePort)
    else if it.coreType == "gost" then Gost(it.role) else Plain
  }

  /** In t the item's tunnel runs under the item's text: in the process it had in s if that one lived and ran under it
      already, and otherwise in the one just launched. */
  ghost predicate Met(s: State, t: State, it: Item, w: World) {
    && w.launch.Some?
    && it.id in t.procs && it.id in t.configs
    && t.configs[it.id] == Asked(it, w.net)
    && t.procs[it.id] == (if Satisfied(s, it, w) then s.procs[it.id] else w.launch.value)
    && (!Satisfied(s, it, w) ==> it.id in t.metas && t.metas[it.id] == Remembered(it))
  }

  lemma StopHonest(s: State, id: Id)
    requires s.fw.Honest()
    ensures Stop(s, id).fw.Honest()
  {
    hide Cleanup, Fw.Honest;
    if id in s.metas && s.metas[id].Paqet? {
      CleanupEffect(s.fw, s.metas[id].role, s.metas[id].corePort, (RawOutput, []));
    }
  }

  /** The history entry of a stop, if there is a process to stop. */
  function Stops(s: State, id: Id): seq<Act> {
    if id in s.procs then [Stopped(id, s.procs[id])] else []
  }

  lemma RestartLaunches(s: State, it: Item, meta: Meta, w: World)
    requires w.launch.Some?
    ensures var t := Restart(s, it.id, MarkerOf(it, w.net), meta, w.launch);
      && it.id in t.procs && t.procs[it.id] == w.launch.value
      && it.id in t.configs && t.configs[it.id] == MarkerOf(it, w.net)
      && it.id in t.metas && t.metas[it.id] == meta
      && (s.fw.Honest() ==> t.fw.Honest())
      && t.log == s.log + Stops(s, it.id) + [Launched(it.id, w.launch.value, MarkerOf(it, w.net))]
  {
    hide Fw.Honest, MarkerOf, Cleanup;
    if s.fw.Honest() {
      StopHonest(s, it.id);
    }
    assert s.log + [] == s.log;
  }

  lemma ConfiguredHonest(s: State, it: Item)
    requires s.fw.Honest()
    ensures var t := Configured(s, it).0;
      Configured(s, it).1 && t.fw.Honest() && t.log == s.log + Stops(s, it.id) && it.id !in t.procs
  {
    hide Fw.Honest, Cleanup, Configure;
    StopHonest(s, it.id);
    ConfigureEffect(Stop(s, it.id).fw, it.role, it.corePort, (RawOutput, []));
    assert s.log + [] == s.log;
  }

  /** With calls that succeed, a tunnel that already runs as asked is left alone, and any other one, a dead one too, is
      stopped if it has a process and then launched, and nothing else. */
  lemma HandleMeets(s: State, it: Item, w: World)
    requires Good(it, w) && s.fw.Honest()
    ensures var (t, ok) := Handle(s, it, w);
      && ok && Met(s, t, it, w) && t.fw.Honest()
      && if Satisfied(s, it, w) then t == s
         else t.log == s.log + Stops(s, it.id) + [Launched(it.id, w.launch.value, Asked(it, w.net))]
  {
    hide Fw.Honest, MarkerOf, Asked, Satisfied, Current, Stop, Restart, Configured;
    SatisfiedIsCurrent(s, it, w);
    if !Satisfied(s, it, w) {
      ConfiguredHonest(s, it);
      RestartLaunches(s, it, Plain, w);
      RestartLaunches(s, it, Gost(it.role), w);
      var t := Configured(s, it).0;
      RestartLaunches(t, it, Paqet(it.role, it.corePort), w);
      assert it.id !in t.procs ==> t.log + Stops(t, it.id) == t.log;
    } else {
      SatisfiedRuns(s, it, w);
    }
  }

  lemma SatisfiedRuns(s: State, it: Item, w: World)
    requires Satisfied(s, it, w)
    ensures it.id in s.procs && it.id in s.configs && s.configs[it.id] == Asked(it, w.net)
  {
  }

  /** A tunnel whose process has died is launched again, though nothing else has changed. */
  lemma DeadIsRelaunched(s: State, it: Item, w: World)
    requires Good(it, w) && s.fw.Honest() && !w.alive
    ensures var t := Handle(s, it, w).0;
      && it.id in t.procs && t.procs[it.id] == w.launch.value
      && t.log != [] && t.log[|t.log| - 1] == Launched(it.id, w.launch.value, Asked(it, w.net))
  {
    hide Fw.Honest, Asked, Handle;
    HandleMeets(s, it, w);
  }

  /** With calls that succeed, a live tunnel is launched anew exactly when its content or its nonce changed. */
  lemma RelaunchedIffChanged(s: State, it: Item, w: World, content: string, nonce: int)
    requires Good(it, w) && s.fw.Honest()
    requires it.id in s.procs && w.alive && it.id in s.configs
    requires s.configs[it.id] == content + "\0restart:" + Decimal.Str(nonce)
    ensures var t := Handle(s, it, w).0;
      if content == (if it.coreType == "paqet" then Fill(it.content, w.net) else it.content) && nonce == it.nonce then
        t == s
      else t.log != s.log && t.log[|t.log| - 1] == Launched(it.id, w.launch.value, Asked(it, w.net))
  {
    assert s.configs[it.id] == Decimal.Marker(content, nonce) && Asked(it, w.net) == MarkerOf(it, w.net);
    Decimal.MarkersDiffer(content, nonce, ContentOf(it, w.net), it.nonce);
    hide Fw.Honest, Decimal.Marker, Decimal.Str, Fill, Handle, Asked;
    HandleMeets(s, it, w);
  }

  // ---- The error paths ----

  ghost predicate Absent(s: State, id: Id) {
    id !in s.procs && id !in s.configs && id !in s.metas
  }

  /** The item is of a known core type, its binary is there where that matters, and a gost item has a command. */
  predicate Attempted(it: Item, w: World) {
    && it.coreType in {"hawal", "backhaul", "paqet", "gost"}
    && (it.coreType != "backhaul" ==> w.binary.Ready?)
    && (it.coreType == "gost" ==> !it.emptyCommand)
  }

  /** The one exception that a missing binary can end in. */
  predicate BinaryRaises(it: Item, w: World) {
    it.coreType == "hawal" && w.binary.Raises?
  }

  predicate FileNoObstacle(it: Item, w: World) {
    it.coreType == "gost" || w.fileOk
  }

  /** An item that is not attempted, or whose tunnel is current, changes nothing. Without a network a paqet tunnel
      is stopped. A file that cannot be written ends the whole sync, with a paqet tunnel already stopped and any
      other left as it was, and so does a binary that cannot be put in place, with nothing changed. A failed launch,
      or a firewall that cannot be configured, leaves no entry in any table. */
  lemma ErrorPaths(s: State, it: Item, w: World)
    requires TablesAgree(s)
    ensures var (t, ok) := Handle(s, it, w);
      var noNet := it.coreType == "paqet" && (w.net.iface == "" || w.net.localIp == "" || w.net.gatewayMac == "");
      && (!Attempted(it, w) || (!noNet && Satisfied(s, it, w)) ==> t == s && ok == !BinaryRaises(it, w))
      && (Attempted(it, w) && noNet ==> ok && Absent(t, it.id))
      && (ok <==> !BinaryRaises(it, w) && (!Attempted(it, w) || noNet || Satisfied(s, it, w) || FileNoObstacle(it, w)))
      && (!ok ==> if it.coreType == "paqet" then Absent(t, it.id) else t == s)
      && (ok && Attempted(it, w) && !Satisfied(s, it, w) && w.launch.None? ==> Absent(t, it.id))
      && (ok && it.coreType == "paqet" && Attempted(it, w) && !noNet && !Satisfied(s, it, w) && !Configured(s, it).1 ==>
            Absent(t, it.id))
  {
    SatisfiedIsCurrent(s, it, w);
    hide MarkerOf, Satisfied, Current, Stop, Restart, Configure, TablesAgree;
    StopAbsent(s, it.id);
    FailedRestart(s, it.id, MarkerOf(it, w.net), Plain);
    FailedRestart(s, it.id, MarkerOf(it, w.net), Gost(it.role));
    StopKeepsTables(s, it.id);
    TablesOnly(Stop(s, it.id), Configured(s, it).0);
    FailedRestart(Configured(s, it).0, it.id, MarkerOf(it, w.net), Paqet(it.role, it.corePort));
  }

  lemma TablesOnly(s: State, t: State)
    requires TablesAgree(s) && t.procs == s.procs && t.configs == s.configs && t.metas == s.metas
    ensures TablesAgree(t)
  {
  }

  lemma StopAbsent(s: State, id: Id)
    requires TablesAgree(s)
    ensures Absent(Stop(s, id), id)
  {
    hide Cleanup;
  }

  lemma FailedRestart(s: State, id: Id, marker: string, meta: Meta)
    requires TablesAgree(s)
    ensures Absent(Restart(s, id, marker, meta, None), id)
  {
    hide Stop;
    StopAbsent(s, id);
  }

  ghost predicate Distinct(items: seq<Item>) {
    forall i, j :: 0 <= i < j < |items| ==> items[i].id != items[j].id
  }

  ghost predicate AllGood(items: seq<Item>, worlds: seq<World>)
    requires |worlds| == |items|
  {
    forall k :: 0 <= k < |items| ==> Good(items[k], worlds[k])
  }

  ghost predicate AllMet(s: State, t: State, items: seq<Item>, worlds: seq<World>)
    requires |worlds| == |items|
  {
    forall k :: 0 <= k < |items| ==> Met(s, t, items[k], worlds[k])
  }

  ghost predicate OthersSame(s: State, t: State, ids: set<Id>) {
    forall id :: id !in ids ==> SameEntries(s, t, id)
  }

  lemma MetStays(s: State, t: State, u: State, it: Item, w: World)
    requires Met(s, t, it, w) && SameEntries(t, u, it.id)
    ensures Met(s, u, it, w)
  {
    hide Asked, Satisfied;
  }

  lemma {:induction false} ItemsMet(s: State, items: seq<Item>, worlds: seq<World>)
    requires |worlds| == |items| && AllGood(items, worlds)
    requires Distinct(items) && s.fw.Honest() && TablesAgree(s)
    ensures var (t, ok) := HandleAll(s, items, worlds);
      ok && AllMet(s, t, items, worlds) && OthersSame(s, t, Ids(items)) && t.fw.Honest() && TablesAgree(t)
    decreases |items|
  {
    hide Fw.Honest, Met, Handle, Good, TablesAgree, SameEntries;
    if items == [] {
      assert OthersSame(s, s, {}) by {
        forall id ensures SameEntries(s, s, id) { SameAsItself(s, id); }
      }
    } else {
      var k := |items| - 1;
      var it, w := items[k], worlds[k];
      assert AllGood(items[..k], worlds[..k]);
      ItemsMet(s, items[..k], worlds[..k]);
      var t := HandleAll(s, items[..k], worlds[..k]).0;
      HandleMeets(t, it, w);
      HandleKeepsTables(t, it, w);
      var u := Handle(t, it, w).0;
      assert it.id !in Ids(items[..k]);
      LastMet(s, t, u, it, w);
      forall j | 0 <= j < k ensures Met(s, u, items[j], worlds[j]) {
        assert Met(s, t, items[..k][j], worlds[..k][j]);
        assert items[j].id != it.id;
        HandleFrame(t, it, w, items[j].id);
        MetStays(s, t, u, items[j], worlds[j]);
      }
      forall id | id !in Ids(items) ensures SameEntries(s, u, id) {
        IdsGrow(items);
        HandleFrame(t, it, w, id);
        SameTwice(s, t, u, id);
      }
    }
  }

  lemma IdsGrow(items: seq<Item>)
    requires items != []
    ensures Ids(items[..|items| - 1]) <= Ids(items) && items[|items| - 1].id in Ids(items)
  {
    var k := |items| - 1;
    forall id | id in Ids(items[..k]) ensures id in Ids(items) {
      var j :| 0 <= j < k && items[..k][j].id == id;
      assert items[j].id in Ids(items);
    }
  }

  lemma SameAsItself(s: State, id: Id)
    ensures SameEntries(s, s, id)
  {
  }

  lemma SameTwice(s: State, t: State, u: State, id: Id)
    requires SameEntries(s, t, id) && SameEntries(t, u, id)
    ensures SameEntries(s, u, id)
  {
  }

  lemma LastMet(s: State, t: State, u: State, it: Item, w: World)
    requires SameEntries(s, t, it.id) && Met(t, u, it, w)
    ensures Met(s, u, it, w)
  {
    hide Asked;
  }

  // ---- Stopping the tunnels that are no longer listed ----

  lemma {:induction false} StopRemovedEffect(s: State, order: seq<Id>, active: set<Id>, id: Id)
    requires TablesAgree(s)
    ensures var t := StopRemoved(s, order, active);
      && TablesAgree(t)
      && (id in active || id !in order ==> SameEntries(s, t, id))
      && (id !in active && (id in order || id !in s.procs) ==> id !in t.procs)
    decreases |order|
  {
    hide Stop;
    if order != [] {
      var k := |order| - 1;
      StopRemovedEffect(s, order[..k], active, id);
      var t := StopRemoved(s, order[..k], active);
      assert id in order <==> id in order[..k] || id == order[k];
      StopKeepsTables(t, order[k]);
      StopFrame(t, order[k], id);
    }
  }

  lemma {:induction false} NothingToStop(s: State, order: seq<Id>, active: set<Id>)
    requires forall id :: id in order ==> id in active
    ensures StopRemoved(s, order, active) == s
    decreases |order|
  {
    if order != [] {
      NothingToStop(s, order[..|order| - 1], active);
    }
  }

  lemma InIds(items: seq<Item>, k: nat)
    requires k < |items|
    ensures items[k].id in Ids(items)
  {
  }

  lemma RemovalKeepsMet(s: State, t: State, items: seq<Item>, worlds: seq<World>, order: seq<Id>)
    requires |worlds| == |items| && AllMet(s, t, items, worlds) && TablesAgree(t) && Lists(order, t.procs.Keys)
    ensures var u := StopRemoved(t, order, Ids(items));
      u.procs.Keys == Ids(items) && TablesAgree(u) && AllMet(s, u, items, worlds)
  {
    hide Met, StopRemoved, TablesAgree, SameEntries;
    var ids := Ids(items);
    var u := StopRemoved(t, order, ids);
    StopRemovedEffect(t, order, ids, "");
    forall k | 0 <= k < |items| ensures Met(s, u, items[k], worlds[k]) && items[k].id in u.procs {
      InIds(items, k);
      StopRemovedEffect(t, order, ids, items[k].id);
      MetStays(s, t, u, items[k], worlds[k]);
      MetRuns(s, u, items[k], worlds[k]);
    }
    forall id | id in u.procs ensures id in ids {
      StopRemovedEffect(t, order, ids, id);
    }
    assert forall id :: id in ids ==> id in u.procs;
  }

  /** When every call succeeds, apply_configs ends with exactly the listed tunnels, each under its marker, each
      in the process it had if that was alive and current, and newly launched otherwise. */
  lemma Converges(s: State, items: seq<Item>, worlds: seq<World>, order: seq<Id>)
    requires |worlds| == |items| && AllGood(items, worlds)
    requires Distinct(items) && s.fw.Honest() && TablesAgree(s)
    requires Lists(order, HandleAll(s, items, worlds).0.procs.Keys)
    ensures var (t, ok) := Apply(s, items, worlds, order);
      ok && t.procs.Keys == Ids(items) && TablesAgree(t) && AllMet(s, t, items, worlds)
  {
    hide Fw.Honest, AllMet, AllGood, Distinct, Lists, TablesAgree, Ids, HandleAll, StopRemoved;
    ItemsMet(s, items, worlds);
    RemovalKeepsMet(s, HandleAll(s, items, worlds).0, items, worlds, order);
  }

  /** Whenever apply_configs ends normally, whatever has failed on the way, no tunnel that is not listed runs on, and
      the listed ones are as the first loop has left them. */
  lemma UnlistedGo(s: State, items: seq<Item>, worlds: seq<World>, order: seq<Id>, id: Id)
    requires |worlds| == |items| && TablesAgree(s) && Apply(s, items, worlds, order).1
    requires Lists(order, HandleAll(s, items, worlds).0.procs.Keys)
    ensures var t, u := HandleAll(s, items, worlds).0, Apply(s, items, worlds, order).0;
      if id in Ids(items) then SameEntries(t, u, id) else id !in u.procs
  {
    hide TablesAgree, SameEntries, StopRemoved, HandleAll;
    AllKeepTables(s, items, worlds);
    StopRemovedEffect(HandleAll(s, items, worlds).0, order, Ids(items), id);
  }

  lemma {:induction false} AllKeepTables(s: State, items: seq<Item>, worlds: seq<World>)
    requires |worlds| == |items| && TablesAgree(s)
    ensures TablesAgree(HandleAll(s, items, worlds).0)
    decreases |items|
  {
    hide Handle, TablesAgree;
    if items != [] {
      var k := |items| - 1;
      AllKeepTables(s, items[..k], worlds[..k]);
      HandleKeepsTables(HandleAll(s, items[..k], worlds[..k]).0, items[k], worlds[k]);
    }
  }

  lemma MetRuns(s: State, t: State, it: Item, w: World)
    requires Met(s, t, it, w)
    ensures it.id in t.procs
  {
  }

  // ---- An exception ----

  /** What HandleAll has changed is among the items it has seen. */
  lemma {:induction false} OthersUntouched(s: State, items: seq<Item>, worlds: seq<World>, id: Id)
    requires |worlds| == |items| && id !in Ids(items)
    ensures SameEntries(s, HandleAll(s, items, worlds).0, id)
    decreases |items|
  {
    hide Handle, SameEntries;
    if items == [] {
      SameAsItself(s, id);
    } else {
      var k := |items| - 1;
      IdsGrow(items);
      OthersUntouched(s, items[..k], worlds[..k], id);
      var (t, ok) := HandleAll(s, items[..k], worlds[..k]);
      if ok {
        HandleFrame(t, items[k], worlds[k], id);
        SameTwice(s, t, Handle(t, items[k], worlds[k]).0, id);
      }
    }
  }

  /** Where apply_configs ends with an exception, one of the items has raised it: those before it have been handled,
      and every tunnel that is not among them, listed further down or not listed at all, keeps its entries. */
  lemma ExceptionEnds(s: State, items: seq<Item>, worlds: seq<World>, order: seq<Id>)
    returns (k: nat)
    requires |worlds| == |items| && !Apply(s, items, worlds, order).1
    ensures k < |items| && HandleAll(s, items[..k], worlds[..k]).1
    ensures (Apply(s, items, worlds, order).0, false)
         == Handle(HandleAll(s, items[..k], worlds[..k]).0, items[k], worlds[k])
    ensures forall id :: id !in Ids(items[..k + 1]) ==> SameEntries(s, Apply(s, items, worlds, order).0, id)
  {
    hide Handle, SameEntries, StopRemoved, Ids;
    k := FirstRaises(s, items, worlds);
    forall id | id !in Ids(items[..k + 1]) ensures SameEntries(s, Apply(s, items, worlds, order).0, id) {
      OthersUntouched(s, items[..k + 1], worlds[..k + 1], id);
    }
  }

  lemma {:induction false} FirstRaises(s: State, items: seq<Item>, worlds: seq<World>) returns (k: nat)
    requires |worlds| == |items| && !HandleAll(s, items, worlds).1
    ensures k < |items| && HandleAll(s, items[..k], worlds[..k]).1
    ensures HandleAll(s, items, worlds) == Handle(HandleAll(s, items[..k], worlds[..k]).0, items[k], worlds[k])
    ensures HandleAll(s, items, worlds) == HandleAll(s, items[..k + 1], worlds[..k + 1])
    decreases |items|
  {
    hide Handle;
    var n := |items| - 1;
    if HandleAll(s, items[..n], worlds[..n]).1 {
      k := n;
      assert items[..n + 1] == items && worlds[..n + 1] == worlds;
    } else {
      k := FirstRaises(s, items[..n], worlds[..n]);
      assert items[..n][..k] == items[..k] && worlds[..n][..k] == worlds[..k];
      assert items[..n][..k + 1] == items[..k + 1] && worlds[..n][..k + 1] == worlds[..k + 1];
    }
  }

  // ---- A repeat ----

  lemma CurrentUntouched(s: State, it: Item, w: World)
    requires Current(s, it, w) && (it.coreType == "paqet" ==> NetOk(w.net))
    ensures Handle(s, it, w) == (s, !BinaryRaises(it, w))
  {
    hide MarkerOf;
  }

  ghost predicate AllCurrent(s: State, items: seq<Item>, worlds: seq<World>)
    requires |worlds| == |items|
  {
    forall k :: 0 <= k < |items| ==>
      Current(s, items[k], worlds[k]) && (items[k].coreType == "paqet" ==> NetOk(worlds[k].net))
  }

  ghost predicate NoneRaises(items: seq<Item>, worlds: seq<World>)
    requires |worlds| == |items|
  {
    forall k :: 0 <= k < |items| ==> !BinaryRaises(items[k], worlds[k])
  }

  lemma {:induction false} AllUntouched(s: State, items: seq<Item>, worlds: seq<World>)
    requires |worlds| == |items| && AllCurrent(s, items, worlds)
    ensures HandleAll(s, items, worlds) == (s, NoneRaises(items, worlds))
    decreases |items|
  {
    hide Current, Handle, BinaryRaises;
    if items != [] {
      var k := |items| - 1;
      AllUntouched(s, items[..k], worlds[..k]);
      CurrentUntouched(s, items[k], worlds[k]);
      assert NoneRaises(items, worlds)
        <==> NoneRaises(items[..k], worlds[..k]) && !BinaryRaises(items[k], worlds[k]) by {
        assert forall j :: 0 <= j < k ==> items[..k][j] == items[j] && worlds[..k][j] == worlds[j];
      }
    }
  }

  /** The second sync finds every process alive and the network as it was. */
  ghost predicate SameWorld(worlds: seq<World>, again: seq<World>) {
    |again| == |worlds| && forall k :: 0 <= k < |worlds| ==> again[k].alive && again[k].net == worlds[k].net
  }

  /** A repeat on the same list launches nothing, stops nothing and touches no rule, whatever its other calls
      would have found; it ends normally unless putting a binary in place raises. */
  lemma Idempotent(s: State, items: seq<Item>, worlds: seq<World>, order: seq<Id>, again: seq<World>, order2: seq<Id>)
    requires |worlds| == |items| && AllGood(items, worlds)
    requires Distinct(items) && s.fw.Honest() && TablesAgree(s)
    requires Lists(order, HandleAll(s, items, worlds).0.procs.Keys)
    requires SameWorld(worlds, again)
    requires Lists(order2, HandleAll(Apply(s, items, worlds, order).0, items, again).0.procs.Keys)
    ensures var t := Apply(s, items, worlds, order).0;
      Apply(t, items, again, order2) == (t, NoneRaises(items, again))
  {
    hide Fw.Honest, HandleAll, StopRemoved, MarkerOf, Fill, Current;
    Converges(s, items, worlds, order);
    var t := Apply(s, items, worlds, order).0;
    forall k | 0 <= k < |items|
      ensures Current(t, items[k], again[k]) && (items[k].coreType == "paqet" ==> NetOk(again[k].net))
    {
      assert Met(s, t, items[k], worlds[k]) && Good(items[k], worlds[k]);
      SatisfiedIsCurrent(t, items[k], again[k]);
      assert again[k].alive && again[k].net == worlds[k].net;
    }
    AllUntouched(t, items, again);
    NothingToStop(t, order2, Ids(items));
  }
}
