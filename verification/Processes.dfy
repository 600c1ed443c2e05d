/** No process is lost: what the agent launched is in its table, or it has stopped it. */
module Processes {
  import opened Wrappers
  import opened Firewall
  import opened Agent
  import Ownership
  import Reconcile

  /** The processes that a history leaves running. */
  function Replay(log: seq<Act>): map<Id, Pid> {
    if log == [] then map[]
    else
      var running := Replay(log[..|log| - 1]);
      match log[|log| - 1]
      case Launched(id, pid, _) => running[id := pid]
      case Stopped(id, _) => running - {id}
  }

  /** No launch takes the place of a process that still runs, and only a running process is stopped. */
  ghost predicate Orderly(log: seq<Act>) {
    if log == [] then true
    else
      var running := Replay(log[..|log| - 1]);
      && Orderly(log[..|log| - 1])
      && match log[|log| - 1]
         case Launched(id, _, _) => id !in running
         case Stopped(id, pid) => id in running && running[id] == pid
  }

  /** The three tables agree, and the history accounts for the processes in them. */
  ghost predicate Accounted(s: State) {
    TablesAgree(s) && Orderly(s.log) && Replay(s.log) == s.procs
  }

  lemma Append(log: seq<Act>, act: Act)
    requires Orderly(log)
    ensures act.Launched? && act.id !in Replay(log) ==>
      Orderly(log + [act]) && Replay(log + [act]) == Replay(log)[act.id := act.pid]
    ensures act.Stopped? && act.id in Replay(log) && Replay(log)[act.id] == act.pid ==>
      Orderly(log + [act]) && Replay(log + [act]) == Replay(log) - {act.id}
  {
    assert (log + [act])[..|log|] == log;
  }

  lemma StopAccounted(s: State, id: Id)
    requires Accounted(s)
    ensures Accounted(Stop(s, id)) && id !in Stop(s, id).procs
  {
    StopKeepsTables(s, id);
    hide Cleanup, Orderly, Replay, TablesAgree;
    if id in s.procs {
      Append(s.log, Stopped(id, s.procs[id]));
    }
  }

  lemma RestartAccounted(s: State, id: Id, marker: string, meta: Meta, launch: Option<Pid>)
    requires Accounted(s)
    ensures Accounted(Restart(s, id, marker, meta, launch))
  {
    RestartKeepsTables(s, id, marker, meta, launch);
    hide Stop, Orderly, Replay, TablesAgree;
    StopAccounted(s, id);
    if launch.Some? {
      Append(Stop(s, id).log, Launched(id, launch.value, marker));
    }
  }

  lemma HandleAccounted(s: State, it: Item, w: World)
    requires Accounted(s)
    ensures Accounted(Handle(s, it, w).0)
  {
    hide Configure, MarkerOf, Current, Stop, Restart, NetOk, Orderly, Replay, TablesAgree;
    StopAccounted(s, it.id);
    RestartAccounted(s, it.id, MarkerOf(it, w.net), Plain, w.launch);
    RestartAccounted(s, it.id, MarkerOf(it, w.net), Gost(it.role), w.launch);
    Reconcile.TablesOnly(Stop(s, it.id), Configured(s, it).0);
    RestartAccounted(Configured(s, it).0, it.id, MarkerOf(it, w.net), Paqet(it.role, it.corePort), w.launch);
  }

  lemma {:induction false} HandleAllAccounted(s: State, items: seq<Item>, worlds: seq<World>)
    requires |worlds| == |items| && Accounted(s)
    ensures Accounted(HandleAll(s, items, worlds).0)
    decreases |items|
  {
    hide Handle, Accounted;
    if items != [] {
      var k := |items| - 1;
      HandleAllAccounted(s, items[..k], worlds[..k]);
      HandleAccounted(HandleAll(s, items[..k], worlds[..k]).0, items[k], worlds[k]);
    }
  }

  lemma {:induction false} StopRemovedAccounted(s: State, order: seq<Id>, active: set<Id>)
    requires Accounted(s)
    ensures Accounted(StopRemoved(s, order, active))
    decreases |order|
  {
    hide Stop, Accounted;
    if order != [] {
      var k := |order| - 1;
      StopRemovedAccounted(s, order[..k], active);
      StopAccounted(StopRemoved(s, order[..k], active), order[k]);
    }
  }

  /** After any run of syncs, whatever its calls did, the tables agree, and the processes launched and not stopped are
      exactly those of the table, one for each tunnel; and none was ever replaced without having been stopped. */
  lemma {:induction false} NoOrphans(f0: Fw, syncs: seq<Ownership.Sync>)
    ensures Accounted(Ownership.RunSyncs(f0, syncs))
    decreases |syncs|
  {
    hide HandleAll, StopRemoved;
    if syncs != [] {
      var k := |syncs| - 1;
      NoOrphans(f0, syncs[..k]);
      hide Accounted;
      var s, y := Ownership.RunSyncs(f0, syncs[..k]), syncs[k];
      HandleAllAccounted(s, y.items, y.worlds);
      StopRemovedAccounted(HandleAll(s, y.items, y.worlds).0, y.order, Ids(y.items));
    }
  }

  /** After the final stops nothing that was launched runs. */
  lemma ShutdownStopsAll(f0: Fw, syncs: seq<Ownership.Sync>, order: seq<Id>)
    requires Lists(order, Ownership.RunSyncs(f0, syncs).procs.Keys)
    ensures var t := StopRemoved(Ownership.RunSyncs(f0, syncs), order, {}); Orderly(t.log) && Replay(t.log) == map[]
  {
    hide Ownership.RunSyncs, StopRemoved, Orderly, Replay;
    NoOrphans(f0, syncs);
    var s := Ownership.RunSyncs(f0, syncs);
    StopRemovedAccounted(s, order, {});
    var t := StopRemoved(s, order, {});
    forall id ensures id !in t.procs {
      Reconcile.StopRemovedEffect(s, order, {}, id);
    }
    assert t.procs.Keys == {};
  }
}
