/** HawalAgent of app/static/js/agent.py: its tables and the methods that update them. */
module AgentClass {
  import opened Wrappers
  import Firewall
  import opened Agent

  class HawalAgent {
    const iptables: Firewall.Iptables
    var runningProcesses: map<Id, Pid>
    var runningConfigs: map<Id, string>
    var runningMetadata: map<Id, Meta>
    /** The processes launched and stopped so far. */
    ghost var log: seq<Act>

    constructor (iptables: Firewall.Iptables)
      ensures this.iptables == iptables
      ensures Value() == State(map[], map[], map[], iptables.Value(), [])
    {
      this.iptables := iptables;
      runningProcesses, runningConfigs, runningMetadata, log := map[], map[], map[], [];
    }

    ghost function Value(): State
      reads this, iptables
    {
      State(runningProcesses, runningConfigs, runningMetadata, iptables.Value(), log)
    }

    /** stop_tunnel_process */
    method StopTunnelProcess(id: Id)
      modifies this, iptables
      ensures Value() == Stop(old(Value()), id)
    {
      hide Firewall.Cleanup;
      var metadata := if id in runningMetadata then runningMetadata[id] else Plain;
      if id in runningProcesses {
        log := log + [Stopped(id, runningProcesses[id])];
        runningProcesses := runningProcesses - {id};
        runningConfigs := runningConfigs - {id};
      }
      if metadata.Paqet? {
        iptables.CleanupPaqetIptables(metadata.role, metadata.corePort);
      }
      runningMetadata := runningMetadata - {id};
    }

    /** restart_tunnel_process */
    method RestartTunnelProcess(id: Id, contentHash: string, metadata: Meta, launch: Option<Pid>)
      modifies this, iptables
      ensures Value() == Restart(old(Value()), id, contentHash, metadata, launch)
    {
      hide Stop;
      StopTunnelProcess(id);
      if launch.Some? {
        runningProcesses := runningProcesses[id := launch.value];
        runningConfigs := runningConfigs[id := contentHash];
        runningMetadata := runningMetadata[id := metadata];
        log := log + [Launched(id, launch.value, contentHash)];
      }
    }

    method IsCurrent(it: Item, w: World, marker: string) returns (current: bool)
      requires marker == MarkerOf(it, w.net)
      ensures current == Current(Value(), it, w)
    {
      var isRunning := it.id in runningProcesses && w.alive;
      current := isRunning && it.id in runningConfigs && runningConfigs[it.id] == marker;
    }

    /** The body of the loop over the items; false where an exception leaves apply_configs. */
    method HandleItem(it: Item, w: World) returns (ok: bool)
      modifies this, iptables
      ensures (Value(), ok) == Handle(old(Value()), it, w)
    {
      hide Stop, Restart, Firewall.Configure, MarkerOf, Current, NetOk;
      var marker := MarkerOf(it, w.net);
      if it.coreType == "hawal" {
        if w.binary.Raises? { return false; }
        if w.binary.Missing? { return true; }
        var current := IsCurrent(it, w, marker);
        if !current {
          if !w.fileOk { return false; }
          RestartTunnelProcess(it.id, marker, Plain, w.launch);
        }
      } else if it.coreType == "backhaul" {
        var current := IsCurrent(it, w, marker);
        if !current {
          if !w.fileOk { return false; }
          RestartTunnelProcess(it.id, marker, Plain, w.launch);
        }
      } else if it.coreType == "paqet" {
        if !w.binary.Ready? { return true; }
        ok := HandlePaqetItem(it, w, marker);
        return;
      } else if it.coreType == "gost" {
        if !w.binary.Ready? { return true; }
        if it.emptyCommand { return true; }
        var current := IsCurrent(it, w, marker);
        if !current {
          RestartTunnelProcess(it.id, marker, Gost(it.role), w.launch);
        }
      }
      return true;
    }

    method HandlePaqetItem(it: Item, w: World, marker: string) returns (ok: bool)
      requires marker == MarkerOf(it, w.net)
      modifies this, iptables
      ensures (Value(), ok) == HandlePaqet(old(Value()), it, w)
    {
      hide Stop, Restart, Firewall.Configure, MarkerOf, Current, NetOk;
      if !NetOk(w.net) {
        StopTunnelProcess(it.id);
        return true;
      }
      var current := IsCurrent(it, w, marker);
      if !current {
        StopTunnelProcess(it.id);
        if !w.fileOk { return false; }
        var configured := iptables.ConfigurePaqetIptables(it.role, it.corePort);
        if !configured { return true; }
        RestartTunnelProcess(it.id, marker, Paqet(it.role, it.corePort), w.launch);
      }
      return true;
    }

    /** apply_configs. order is the list of running tunnels that the second loop goes through. */
    method ApplyConfigs(items: seq<Item>, worlds: seq<World>) returns (ok: bool, order: seq<Id>)
      requires |worlds| == |items|
      modifies this, iptables
      ensures (Value(), ok) == Apply(old(Value()), items, worlds, order)
      ensures ok ==> Lists(order, HandleAll(old(Value()), items, worlds).0.procs.Keys)
    {
      hide Handle, Stop, StopRemoved;
      var activeIds := {};
      order := [];
      var k := 0;
      while k < |items|
        invariant k <= |items|
        invariant activeIds == Ids(items[..k])
        invariant HandleAll(old(Value()), items[..k], worlds[..k]) == (Value(), true)
      {
        activeIds := activeIds + {items[k].id};
        IdsSnoc(items, k);
        TurnOfItems(old(Value()), items, worlds, k);
        ok := HandleItem(items[k], worlds[k]);
        k := k + 1;
        if !ok {
          FailsEarly(old(Value()), items, worlds, k);
          return;
        }
      }
      assert items[..k] == items && worlds[..k] == worlds;
      order := ListKeys(runningProcesses.Keys);
      StopUnlisted(order, activeIds);
      ok := true;
    }

    /** The loop that stops removed tunnels. */
    method StopUnlisted(order: seq<Id>, activeIds: set<Id>)
      modifies this, iptables
      ensures Value() == StopRemoved(old(Value()), order, activeIds)
    {
      hide Stop;
      var k := 0;
      while k < |order|
        invariant k <= |order|
        invariant Value() == StopRemoved(old(Value()), order[..k], activeIds)
      {
        assert order[..k + 1][..k] == order[..k];
        if order[k] !in activeIds {
          StopTunnelProcess(order[k]);
        }
        k := k + 1;
      }
      assert order[..k] == order;
    }

    /** The finally block of run. */
    method Shutdown() returns (order: seq<Id>)
      modifies this, iptables
      ensures Lists(order, old(Value()).procs.Keys)
      ensures Value() == StopRemoved(old(Value()), order, {})
    {
      order := ListKeys(runningProcesses.Keys);
      StopUnlisted(order, {});
    }
  }

  /** list(keys), in an order that the program does not choose. */
  method ListKeys(keys: set<Id>) returns (order: seq<Id>)
    ensures Lists(order, keys)
  {
    order := [];
    var todo := keys;
    while todo != {}
      invariant todo <= keys
      invariant forall id :: id in order <==> id in keys - todo
    {
      var id :| id in todo;
      order, todo := order + [id], todo - {id};
    }
  }

  lemma IdsSnoc(items: seq<Item>, k: nat)
    requires k < |items|
    ensures Ids(items[..k + 1]) == Ids(items[..k]) + {items[k].id}
  {
    var part := items[..k + 1];
    assert forall j :: 0 <= j < k ==> items[..k][j].id == part[j].id;
    assert part[k].id in Ids(part);
    forall id | id in Ids(items[..k]) ensures id in Ids(part) {
      var j :| 0 <= j < k && items[..k][j].id == id;
      assert part[j].id in Ids(part);
    }
  }

  lemma TurnOfItems(s: State, items: seq<Item>, worlds: seq<World>, k: nat)
    requires k < |items| == |worlds| && HandleAll(s, items[..k], worlds[..k]).1
    ensures HandleAll(s, items[..k + 1], worlds[..k + 1])
         == Handle(HandleAll(s, items[..k], worlds[..k]).0, items[k], worlds[k])
  {
    hide Handle;
    assert items[..k + 1][..k] == items[..k] && worlds[..k + 1][..k] == worlds[..k];
  }

  lemma {:induction false} FailsEarly(s: State, items: seq<Item>, worlds: seq<World>, k: nat)
    requires k <= |items| == |worlds| && !HandleAll(s, items[..k], worlds[..k]).1
    ensures HandleAll(s, items, worlds) == HandleAll(s, items[..k], worlds[..k])
    decreases |items|
  {
    hide Handle;
    if k == |items| {
      assert items[..k] == items && worlds[..k] == worlds;
    } else {
      var n := |items| - 1;
      assert items[..n][..k] == items[..k] && worlds[..n][..k] == worlds[..k];
      FailsEarly(s, items[..n], worlds[..n], k);
    }
  }
}
