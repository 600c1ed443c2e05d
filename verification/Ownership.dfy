/** Who owns the paqet firewall rules, over whole runs of the agent. home has the server ports that the panel gives
    out, each with the only tunnel that it is ever given to. */
module Ownership {
  import opened Wrappers
  import opened Firewall
  import opened Agent
  import Reconcile

  predicate Homed(it: Item, home: map<int, Id>) {
    it.coreType == "paqet" && it.role == "server" ==> HomeIs(home, it.corePort, it.id)
  }

  predicate HomeIs(home: map<int, Id>, port: int, id: Id) {
    port in home && home[port] == id
  }

  /** All three rules of the port are there. */
  ghost predicate Covered(f: Fw, port: int) {
    forall at :: at in PaqetRules("server", port) ==> f.Count(at) > 0
  }

  predicate Serves(m: Meta) {
    m.Paqet? && m.role == "server"
  }

  /** Each running paqet server is at home and has its three rules. */
  ghost predicate Guarded(s: State, home: map<int, Id>) {
    forall id :: id in s.metas && Serves(s.metas[id]) ==>
      HomeIs(home, s.metas[id].corePort, id) && Covered(s.fw, s.metas[id].corePort)
  }

  predicate Owned(s: State, home: map<int, Id>, port: int) {
    port in home && home[port] in s.metas && s.metas[home[port]] == Paqet("server", port)
  }

  /** The rules of the port are there once where a running server owns it or it is among the orphans, and not at all
      otherwise. */
  ghost predicate ExactAt(s: State, home: map<int, Id>, orphans: set<int>, port: int) {
    forall at :: at in PaqetRules("server", port) ==>
      s.fw.Count(at) == (if Owned(s, home, port) || port in orphans then 1 else 0)
  }

  /** orphans are the ports whose rules are there without an owner. */
  ghost predicate Exact(s: State, home: map<int, Id>, orphans: set<int>) {
    && (forall port :: port in home ==> ExactAt(s, home, orphans, port))
    && (forall port :: port in orphans ==> port in home && !Owned(s, home, port))
  }

  // ---- configure and cleanup, per port ----

  lemma CleanupSpares(f: Fw, role: string, port: int, other: int)
    requires role == "server" ==> port != other
    ensures Covered(f, other) ==> Covered(Cleanup(f, role, port), other)
    ensures forall at :: at in PaqetRules("server", other) ==> Cleanup(f, role, port).Count(at) == f.Count(at)
  {
    hide Cleanup, Fw.Count, Fw.Honest;
    forall at | at in PaqetRules("server", other) ensures Cleanup(f, role, port).Count(at) == f.Count(at) {
      CleanupEffect(f, role, port, at);
      if at in PaqetRules(role, port) { PortsApart(role, port, "server", other, at); }
    }
  }

  lemma ConfigureSpares(f: Fw, role: string, port: int, other: int)
    requires role == "server" ==> port != other
    ensures Covered(f, other) ==> Covered(Configure(f, role, port).0, other)
    ensures forall at :: at in PaqetRules("server", other) ==> Configure(f, role, port).0.Count(at) == f.Count(at)
  {
    hide Configure, Fw.Count, Fw.Honest;
    forall at | at in PaqetRules("server", other) ensures Configure(f, role, port).0.Count(at) == f.Count(at) {
      ConfigureEffect(f, role, port, at);
      if at in PaqetRules(role, port) { PortsApart(role, port, "server", other, at); }
    }
  }

  lemma ConfigureCovers(f: Fw, port: int)
    requires Configure(f, "server", port).1
    ensures Covered(Configure(f, "server", port).0, port)
  {
    hide Configure, PaqetRules, Fw.Count, Fw.Honest;
    forall at | at in PaqetRules("server", port) ensures Configure(f, "server", port).0.Count(at) > 0 {
      ConfigureEffect(f, "server", port, at);
    }
  }

  // ---- Every running server keeps its rules ----

  lemma StopGuarded(s: State, id: Id, home: map<int, Id>)
    requires Guarded(s, home)
    ensures Guarded(Stop(s, id), home) && id !in Stop(s, id).metas
    ensures id !in s.metas ==> Stop(s, id).fw == s.fw
  {
    hide Cleanup, Covered;
    var t := Stop(s, id);
    forall o | o in t.metas && Serves(t.metas[o]) ensures Covered(t.fw, t.metas[o].corePort) {
      if id in s.metas && s.metas[id].Paqet? {
        CleanupSpares(s.fw, s.metas[id].role, s.metas[id].corePort, t.metas[o].corePort);
      }
    }
  }

  lemma ConfiguredGuarded(s: State, it: Item, home: map<int, Id>)
    requires Guarded(s, home) && (it.role == "server" ==> HomeIs(home, it.corePort, it.id))
    ensures var (t, ok) := Configured(s, it);
      && Guarded(t, home) && it.id !in t.metas
      && (ok && it.role == "server" ==> Covered(t.fw, it.corePort))
  {
    hide Stop, Configure, Covered;
    StopGuarded(s, it.id, home);
    var s1 := Stop(s, it.id);
    var (t, ok) := Configured(s, it);
    forall o | o in t.metas && Serves(t.metas[o]) ensures Covered(t.fw, t.metas[o].corePort) {
      ConfigureSpares(s1.fw, it.role, it.corePort, s1.metas[o].corePort);
    }
    if ok && it.role == "server" {
      ConfigureCovers(s1.fw, it.corePort);
    }
  }

  lemma RestartGuarded(s: State, id: Id, marker: string, meta: Meta, launch: Option<Pid>, home: map<int, Id>)
    requires Guarded(s, home)
    requires Serves(meta) ==> id !in s.metas && HomeIs(home, meta.corePort, id) && Covered(s.fw, meta.corePort)
    ensures Guarded(Restart(s, id, marker, meta, launch), home)
  {
    hide Stop, Covered;
    StopGuarded(s, id, home);
  }

  lemma HandleGuarded(s: State, it: Item, w: World, home: map<int, Id>)
    requires Guarded(s, home) && Homed(it, home)
    ensures Guarded(Handle(s, it, w).0, home)
  {
    hide Guarded, Covered, MarkerOf, Current, Stop, Restart, Configured, NetOk;
    var marker := MarkerOf(it, w.net);
    StopGuarded(s, it.id, home);
    RestartGuarded(s, it.id, marker, Plain, w.launch, home);
    RestartGuarded(s, it.id, marker, Gost(it.role), w.launch, home);
    if it.coreType == "paqet" {
      ConfiguredGuarded(s, it, home);
      var (t, ok) := Configured(s, it);
      if ok {
        RestartGuarded(t, it.id, marker, Paqet(it.role, it.corePort), w.launch, home);
      }
    }
  }

  // ---- With calls that work, the rules are there exactly once ----

  lemma StopExact(s: State, id: Id, home: map<int, Id>, orphans: set<int>)
    requires Guarded(s, home) && Exact(s, home, orphans) && s.fw.Honest()
    ensures Exact(Stop(s, id), home, orphans) && Stop(s, id).fw.Honest()
  {
    hide Cleanup, Covered, Fw.Honest, Fw.Count, PaqetRules;
    var t := Stop(s, id);
    Reconcile.StopHonest(s, id);
    forall port | port in home ensures ExactAt(t, home, orphans, port) {
      assert ExactAt(s, home, orphans, port);
      if id in s.metas && s.metas[id].Paqet? {
        var role, p := s.metas[id].role, s.metas[id].corePort;
        if role == "server" && p == port {
          assert Owned(s, home, port);
          forall at | at in PaqetRules("server", port) ensures t.fw.Count(at) == 0 {
            CleanupEffect(s.fw, role, p, at);
          }
        } else {
          CleanupSpares(s.fw, role, p, port);
        }
      }
    }
  }

  ghost predicate Once(f: Fw, port: int) {
    forall at :: at in PaqetRules("server", port) ==> f.Count(at) == 1
  }

  /** Exact, but for one port, whose rules are there once and whose tunnel has no entry. */
  ghost predicate ExactBut(s: State, home: map<int, Id>, orphans: set<int>, port: int) {
    && port in home && home[port] !in s.metas && Once(s.fw, port)
    && (forall other :: other in home && other != port ==> ExactAt(s, home, orphans, other))
    && (forall other :: other in orphans ==> other in home && !Owned(s, home, other))
  }

  lemma ConfiguredExact(s: State, it: Item, home: map<int, Id>, orphans: set<int>)
    requires Guarded(s, home) && Exact(s, home, orphans) && s.fw.Honest()
    requires it.role == "server" ==> HomeIs(home, it.corePort, it.id)
    ensures var (t, ok) := Configured(s, it);
      && ok && t.fw.Honest()
      && (if it.role == "server" then ExactBut(t, home, orphans, it.corePort) else Exact(t, home, orphans))
  {
    hide Stop, Configure, Covered, Fw.Honest, Fw.Count, PaqetRules, Guarded;
    StopGuarded(s, it.id, home);
    StopExact(s, it.id, home, orphans);
    Reconcile.ConfiguredHonest(s, it);
    var s1 := Stop(s, it.id);
    var t := Configured(s, it).0;
    forall port | port in home && (it.role != "server" || port != it.corePort)
      ensures ExactAt(t, home, orphans, port)
    {
      assert ExactAt(s1, home, orphans, port);
      ConfigureSpares(s1.fw, it.role, it.corePort, port);
    }
    if it.role == "server" {
      assert ExactAt(s1, home, orphans, it.corePort);
      forall at | at in PaqetRules("server", it.corePort) ensures t.fw.Count(at) == 1 {
        ConfigureEffect(s1.fw, it.role, it.corePort, at);
      }
    }
  }

  /** Any launch but that of a paqet server. */
  lemma RestartExact(
    s: State, id: Id, marker: string, meta: Meta, launch: Option<Pid>, home: map<int, Id>, orphans: set<int>)
    requires Guarded(s, home) && Exact(s, home, orphans) && s.fw.Honest() && !Serves(meta)
    ensures var t := Restart(s, id, marker, meta, launch); Exact(t, home, orphans) && t.fw.Honest()
  {
    hide Stop, Covered, Fw.Honest, Fw.Count, PaqetRules, Guarded;
    StopGuarded(s, id, home);
    StopExact(s, id, home, orphans);
    var u := Stop(s, id);
    forall port | port in home ensures ExactAt(Restart(s, id, marker, meta, launch), home, orphans, port) {
      assert ExactAt(u, home, orphans, port);
    }
  }

  /** The launch of a paqet server that has just been configured gives its rules an owner, or orphans them. */
  lemma RestartServer(
    s: State, it: Item, marker: string, launch: Option<Pid>, home: map<int, Id>, orphans: set<int>)
    requires it.role == "server" && HomeIs(home, it.corePort, it.id) && ExactBut(s, home, orphans, it.corePort)
    requires Guarded(s, home) && s.fw.Honest()
    ensures var t := Restart(s, it.id, marker, Paqet(it.role, it.corePort), launch);
      && t.fw.Honest()
      && Exact(t, home, if launch.Some? then orphans - {it.corePort} else orphans + {it.corePort})
  {
    hide Stop, Covered, Fw.Honest, Fw.Count, PaqetRules, Guarded;
    StopGuarded(s, it.id, home);
    StopMetas(s, it.id);
    var t := Restart(s, it.id, marker, Paqet(it.role, it.corePort), launch);
    var after := if launch.Some? then orphans - {it.corePort} else orphans + {it.corePort};
    forall port | port in home ensures ExactAt(t, home, after, port) {
      assert port == it.corePort || ExactAt(s, home, orphans, port);
    }
  }

  lemma StopMetas(s: State, id: Id)
    ensures Stop(s, id).metas == s.metas - {id}
  {
    hide Cleanup;
  }

  /** The item is a paqet server that is given its rules and then launched, or not. */
  predicate IsLaunched(s: State, it: Item, w: World) {
    && it.coreType == "paqet" && it.role == "server"
    && w.binary.Ready? && NetOk(w.net) && !Current(s, it, w) && w.fileOk
  }

  predicate FailsToLaunch(s: State, it: Item, w: World) {
    IsLaunched(s, it, w) && w.launch.None?
  }

  function NextOrphans(orphans: set<int>, s: State, it: Item, w: World): set<int> {
    if !IsLaunched(s, it, w) then orphans
    else if w.launch.Some? then orphans - {it.corePort}
    else orphans + {it.corePort}
  }

  /** With iptables calls that work, whatever else fails: the rules stay exact, and the orphans change only by a server
      that fails to launch, which leaves its rules behind, and by one that is launched, which takes its rules over. */
  lemma HandleExact(s: State, it: Item, w: World, home: map<int, Id>, orphans: set<int>)
    requires Guarded(s, home) && Exact(s, home, orphans) && s.fw.Honest() && Homed(it, home)
    ensures var t := Handle(s, it, w).0; t.fw.Honest() && Exact(t, home, NextOrphans(orphans, s, it, w))
  {
    hide Guarded, Exact, ExactBut, Covered, MarkerOf, Current, Stop, Restart, Configured, NetOk, Fw.Honest, ExactAt;
    var marker := MarkerOf(it, w.net);
    StopExact(s, it.id, home, orphans);
    RestartExact(s, it.id, marker, Plain, w.launch, home, orphans);
    RestartExact(s, it.id, marker, Gost(it.role), w.launch, home, orphans);
    if it.coreType == "paqet" {
      ConfiguredExact(s, it, home, orphans);
      ConfiguredGuarded(s, it, home);
      var t := Configured(s, it).0;
      if it.role == "server" {
        RestartServer(t, it, marker, w.launch, home, orphans);
      } else {
        RestartExact(t, it.id, marker, Paqet(it.role, it.corePort), w.launch, home, orphans);
      }
    }
  }

  /** The counts say which ports are orphans. */
  lemma OrphansAreCounted(s: State, home: map<int, Id>, a: set<int>, b: set<int>)
    requires Exact(s, home, a) && Exact(s, home, b)
    ensures a == b
  {
    hide Owned, Fw.Count, PaqetRules;
    forall port | port in home ensures port in a <==> port in b {
      assert ExactAt(s, home, a, port) && ExactAt(s, home, b, port);
      RulesOf(port);
      var at := PaqetRules("server", port)[0];
      assert s.fw.Count(at) == if Owned(s, home, port) || port in a then 1 else 0;
      assert s.fw.Count(at) == if Owned(s, home, port) || port in b then 1 else 0;
    }
    assert forall port :: port in a <==> port in b;
  }

  lemma RulesOf(port: int)
    ensures |PaqetRules("server", port)| > 0 && PaqetRules("server", port)[0] in PaqetRules("server", port)
  {
  }

  /** With iptables calls that work and no orphans, handling an item leaves no orphan, if and only if the item is not a
      server that fails to launch. */
  lemma HandleExactIff(s: State, it: Item, w: World, home: map<int, Id>)
    requires Guarded(s, home) && Exact(s, home, {}) && s.fw.Honest() && Homed(it, home)
    ensures var t := Handle(s, it, w).0; t.fw.Honest() && (Exact(t, home, {}) <==> !FailsToLaunch(s, it, w))
  {
    hide Guarded, Exact, Handle, Homed, Current, NetOk, Fw.Honest;
    HandleExact(s, it, w, home, {});
    var t, after := Handle(s, it, w).0, NextOrphans({}, s, it, w);
    assert FailsToLaunch(s, it, w) <==> it.corePort in after;
    assert !FailsToLaunch(s, it, w) ==> after == {};
    if Exact(t, home, {}) {
      OrphansAreCounted(t, home, {}, after);
    }
  }

  // ---- Rules of others ----

  lemma KeepsOthersTwice(ports: set<int>, f: Fw, g: Fw, h: Fw)
    requires KeepsOthers(ports, f, g) && KeepsOthers(ports, g, h)
    ensures KeepsOthers(ports, f, h)
  {
    hide Others;
  }

  lemma StopKeepsOthers(s: State, id: Id, home: map<int, Id>)
    requires Guarded(s, home)
    ensures KeepsOthers(home.Keys, s.fw, Stop(s, id).fw)
  {
    hide Others, Cleanup;
    if id in s.metas && s.metas[id].Paqet? {
      OthersKept(home.Keys, s.fw, s.metas[id].role, s.metas[id].corePort);
    }
  }

  lemma HandleKeepsOthers(s: State, it: Item, w: World, home: map<int, Id>)
    requires Guarded(s, home) && Homed(it, home)
    ensures KeepsOthers(home.Keys, s.fw, Handle(s, it, w).0.fw)
  {
    hide KeepsOthers, Guarded, Stop, Configure, MarkerOf, Current, NetOk;
    KeepsOthersSame(home.Keys, s.fw);
    StopKeepsOthers(s, it.id, home);
    if it.coreType == "paqet" {
      var s1, t := Stop(s, it.id), Configured(s, it).0;
      OthersKept(home.Keys, s1.fw, it.role, it.corePort);
      KeepsOthersTwice(home.Keys, s.fw, s1.fw, t.fw);
      ConfiguredGuarded(s, it, home);
      StopKeepsOthers(t, it.id, home);
      KeepsOthersTwice(home.Keys, s.fw, t.fw, Stop(t, it.id).fw);
    }
  }

  lemma KeepsOthersSame(ports: set<int>, f: Fw)
    ensures KeepsOthers(ports, f, f)
  {
  }

  // ---- Whole runs ----

  /** What every step keeps; exact also claims the counts, for runs whose iptables calls work. */
  ghost predicate Inv(s: State, f0: Fw, home: map<int, Id>, exact: bool, orphans: set<int>) {
    && TablesAgree(s)
    && Guarded(s, home)
    && KeepsOthers(home.Keys, f0, s.fw)
    && (exact ==> s.fw.Honest() && Exact(s, home, orphans))
  }

  lemma StopInv(s: State, id: Id, f0: Fw, home: map<int, Id>, exact: bool, orphans: set<int>)
    requires Inv(s, f0, home, exact, orphans)
    ensures Inv(Stop(s, id), f0, home, exact, orphans)
  {
    hide TablesAgree, Guarded, KeepsOthers, Exact, Fw.Honest, Stop;
    StopKeepsTables(s, id);
    StopGuarded(s, id, home);
    StopKeepsOthers(s, id, home);
    KeepsOthersTwice(home.Keys, f0, s.fw, Stop(s, id).fw);
    if exact { StopExact(s, id, home, orphans); }
  }

  lemma HandleInv(s: State, it: Item, w: World, f0: Fw, home: map<int, Id>, exact: bool, orphans: set<int>)
    requires Inv(s, f0, home, exact, orphans) && Homed(it, home)
    ensures Inv(Handle(s, it, w).0, f0, home, exact, NextOrphans(orphans, s, it, w))
  {
    hide TablesAgree, Guarded, KeepsOthers, Exact, Fw.Honest, Handle, Homed, NextOrphans;
    HandleKeepsTables(s, it, w);
    HandleGuarded(s, it, w, home);
    HandleKeepsOthers(s, it, w, home);
    KeepsOthersTwice(home.Keys, f0, s.fw, Handle(s, it, w).0.fw);
    if exact { HandleExact(s, it, w, home, orphans); }
  }

  ghost predicate AllHomed(items: seq<Item>, home: map<int, Id>) {
    forall k :: 0 <= k < |items| ==> Homed(items[k], home)
  }

  function OrphansAfter(orphans: set<int>, s: State, items: seq<Item>, worlds: seq<World>): set<int>
    requires |worlds| == |items|
  {
    if items == [] then orphans
    else
      var k := |items| - 1;
      var before := OrphansAfter(orphans, s, items[..k], worlds[..k]);
      var (t, ok) := HandleAll(s, items[..k], worlds[..k]);
      if ok then NextOrphans(before, t, items[k], worlds[k]) else before
  }

  lemma {:induction false} HandleAllInv(
    s: State, items: seq<Item>, worlds: seq<World>, f0: Fw, home: map<int, Id>, exact: bool, orphans: set<int>)
    requires |worlds| == |items| && Inv(s, f0, home, exact, orphans) && AllHomed(items, home)
    ensures Inv(HandleAll(s, items, worlds).0, f0, home, exact, OrphansAfter(orphans, s, items, worlds))
    decreases |items|
  {
    hide Inv, Handle, Homed, NextOrphans;
    if items != [] {
      var k := |items| - 1;
      HandleAllInv(s, items[..k], worlds[..k], f0, home, exact, orphans);
      var (t, ok) := HandleAll(s, items[..k], worlds[..k]);
      if ok {
        HandleInv(t, items[k], worlds[k], f0, home, exact, OrphansAfter(orphans, s, items[..k], worlds[..k]));
      }
    }
  }

  lemma {:induction false} StopRemovedInv(
    s: State, order: seq<Id>, active: set<Id>, f0: Fw, home: map<int, Id>, exact: bool, orphans: set<int>)
    requires Inv(s, f0, home, exact, orphans)
    ensures Inv(StopRemoved(s, order, active), f0, home, exact, orphans)
    decreases |order|
  {
    hide Inv, Stop;
    if order != [] {
      var k := |order| - 1;
      StopRemovedInv(s, order[..k], active, f0, home, exact, orphans);
      StopInv(StopRemoved(s, order[..k], active), order[k], f0, home, exact, orphans);
    }
  }

  datatype SyncCall = SyncCall(items: seq<Item>, worlds: seq<World>, order: seq<Id>)

  /** One call of apply_configs with what its calls find. */
  type Sync = y: SyncCall | |y.worlds| == |y.items| witness SyncCall([], [], [])

  function Start(f0: Fw): State {
    State(map[], map[], map[], f0, [])
  }

  function RunSyncs(f0: Fw, syncs: seq<Sync>): State {
    if syncs == [] then Start(f0)
    else
      var y := syncs[|syncs| - 1];
      Apply(RunSyncs(f0, syncs[..|syncs| - 1]), y.items, y.worlds, y.order).0
  }

  /** The orphans after a run that found these. */
  function RunOrphans(f0: Fw, found: set<int>, syncs: seq<Sync>): set<int> {
    if syncs == [] then found
    else
      var k := |syncs| - 1;
      OrphansAfter(RunOrphans(f0, found, syncs[..k]), RunSyncs(f0, syncs[..k]), syncs[k].items, syncs[k].worlds)
  }

  /** Of the rules of all the ports, those of these are there, once each. */
  ghost predicate RulesOnlyOf(f: Fw, home: map<int, Id>, ports: set<int>) {
    && ports <= home.Keys
    && (forall port, at :: port in home && at in PaqetRules("server", port) ==>
          f.Count(at) == if port in ports then 1 else 0)
  }

  /** After any run of syncs, whatever its calls did: the three tables have the same keys, every running paqet
      server has its three rules, and the rules of others are in place and in order. If moreover the iptables calls
      worked, then the rules of a port are there exactly once where a running server owns it or it is an orphan, and
      not at all otherwise; orphans are the ports whose rules the agent found when it started, and those whose server
      failed to launch, until a server is launched on them. */
  lemma {:induction false} FirewallOwnership(
    f0: Fw, found: set<int>, syncs: seq<Sync>, home: map<int, Id>, exact: bool)
    requires forall k :: 0 <= k < |syncs| ==> AllHomed(syncs[k].items, home)
    requires exact ==> f0.Honest() && RulesOnlyOf(f0, home, found)
    ensures Inv(RunSyncs(f0, syncs), f0, home, exact, RunOrphans(f0, found, syncs))
    decreases |syncs|
  {
    hide Inv, HandleAll, StopRemoved, Fw.Honest, RulesOnlyOf, AllHomed, OrphansAfter;
    if syncs == [] {
      StartInv(f0, found, home, exact);
    } else {
      var k := |syncs| - 1;
      FirewallOwnership(f0, found, syncs[..k], home, exact);
      var s, y, orphans := RunSyncs(f0, syncs[..k]), syncs[k], RunOrphans(f0, found, syncs[..k]);
      HandleAllInv(s, y.items, y.worlds, f0, home, exact, orphans);
      StopRemovedInv(HandleAll(s, y.items, y.worlds).0, y.order, Ids(y.items), f0, home, exact,
                     OrphansAfter(orphans, s, y.items, y.worlds));
    }
  }

  lemma StartInv(f0: Fw, found: set<int>, home: map<int, Id>, exact: bool)
    requires exact ==> f0.Honest() && RulesOnlyOf(f0, home, found)
    ensures Inv(Start(f0), f0, home, exact, found)
  {
    hide Fw.Honest, KeepsOthers, PaqetRules, Fw.Count;
    KeepsOthersSame(home.Keys, f0);
  }

  ghost predicate AllLaunch(worlds: seq<World>) {
    forall k :: 0 <= k < |worlds| ==> worlds[k].launch.Some?
  }

  lemma {:induction false} NoneOrphaned(s: State, items: seq<Item>, worlds: seq<World>)
    requires |worlds| == |items| && AllLaunch(worlds)
    ensures OrphansAfter({}, s, items, worlds) == {}
    decreases |items|
  {
    hide HandleAll, Current;
    if items != [] {
      NoneOrphaned(s, items[..|items| - 1], worlds[..|items| - 1]);
    }
  }

  /** Without rules at the start and failed launches there are no orphans. */
  lemma {:induction false} NoOrphansIfAllLaunch(f0: Fw, syncs: seq<Sync>)
    requires forall k :: 0 <= k < |syncs| ==> AllLaunch(syncs[k].worlds)
    ensures RunOrphans(f0, {}, syncs) == {}
    decreases |syncs|
  {
    hide OrphansAfter, RunSyncs;
    if syncs != [] {
      var k := |syncs| - 1;
      NoOrphansIfAllLaunch(f0, syncs[..k]);
      NoneOrphaned(RunSyncs(f0, syncs[..k]), syncs[k].items, syncs[k].worlds);
    }
  }

  /** The finally block of run: every tunnel is stopped, and with iptables calls that work the rules of the orphans,
      and no others of any paqet port, are left, while those of others are as they were. */
  lemma ShutdownClears(f0: Fw, found: set<int>, syncs: seq<Sync>, home: map<int, Id>, order: seq<Id>)
    requires forall k :: 0 <= k < |syncs| ==> AllHomed(syncs[k].items, home)
    requires f0.Honest() && RulesOnlyOf(f0, home, found)
    requires Lists(order, RunSyncs(f0, syncs).procs.Keys)
    ensures var t := StopRemoved(RunSyncs(f0, syncs), order, {});
      && t.procs == map[] && t.configs == map[] && t.metas == map[]
      && RulesOnlyOf(t.fw, home, RunOrphans(f0, found, syncs)) && KeepsOthers(home.Keys, f0, t.fw)
  {
    hide RunSyncs, StopRemoved, Fw.Honest, KeepsOthers, PaqetRules, Fw.Count, Guarded, AllHomed, RunOrphans;
    FirewallOwnership(f0, found, syncs, home, true);
    var s, orphans := RunSyncs(f0, syncs), RunOrphans(f0, found, syncs);
    StopRemovedInv(s, order, {}, f0, home, true, orphans);
    var t := StopRemoved(s, order, {});
    forall id ensures id !in t.procs {
      Reconcile.StopRemovedEffect(s, order, {}, id);
    }
    assert t.procs.Keys == {} && t.configs.Keys == {} && t.metas.Keys == {};
    assert forall port :: port in orphans ==> port in home.Keys;
    forall port, at | port in home && at in PaqetRules("server", port)
      ensures t.fw.Count(at) == if port in orphans then 1 else 0
    {
      assert ExactAt(t, home, orphans, port);
    }
  }

  /** A server that fails to launch on its first sync: its rules are there, and no table knows of it. */
  lemma FailedLaunchLeavesRules(f0: Fw, id: Id, port: int, w: World)
    requires f0.Honest() && RulesOnlyOf(f0, map[port := id], {})
    requires w.binary.Ready? && NetOk(w.net) && w.fileOk && w.launch.None?
    ensures var it := Item(id, "paqet", 0, "", false, "server", port); var s := Start(f0);
      var (t, ok) := Handle(s, it, w);
      && FailsToLaunch(s, it, w) && ok && Reconcile.Absent(t, id) && RulesOnlyOf(t.fw, map[port := id], {port})
  {
    hide Fw.Honest, PaqetRules, Fw.Count, NetOk, Handle, MarkerOf;
    var home := map[port := id];
    var it, s := Item(id, "paqet", 0, "", false, "server", port), Start(f0);
    StartInv(f0, {}, home, true);
    HandleExact(s, it, w, home, {});
    Reconcile.ErrorPaths(s, it, w);
    var t := Handle(s, it, w).0;
    assert {} + {port} == {port};
    forall p, at | p in home && at in PaqetRules("server", p)
      ensures t.fw.Count(at) == if p in {port} then 1 else 0
    {
      assert ExactAt(t, home, {port}, p);
    }
  }
}
