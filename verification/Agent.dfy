/** app/static/js/agent.py, lines 370 to 483: the agent's tables, and what one sync makes of them. */
module Agent {
  import opened Wrappers
  import Decimal
  import opened Firewall

  type Id = string
  type Pid = nat

  /** running_metadata[id]; Plain is the empty dictionary. */
  datatype Meta = Plain | Paqet(role: string, corePort: int) | Gost(role: string)

  datatype Act = Launched(id: Id, pid: Pid, marker: string) | Stopped(id: Id, pid: Pid)

  /** The three tables, the firewall, and a history of the processes launched and stopped. */
  datatype State = State(
    procs: map<Id, Pid>, configs: map<Id, string>, metas: map<Id, Meta>, fw: Fw, log: seq<Act>)

  /** One element of the list that the panel sends. content is the text that the tunnel's configuration or
      command comes to; for paqet it is the template. */
  datatype Item = Item(id: Id, coreType: string, nonce: int, content: string, emptyCommand: bool, role: string,
                       corePort: int)

  datatype NetInfo = NetInfo(iface: string, localIp: string, gatewayMac: string)

  /** Whether the binary of a core is there or can be installed. Raises: a directory in its place cannot be removed,
      which ensure_hawal_core_binary alone does outside of its try; the others then answer as when it is missing. */
  datatype Binary = Ready | Missing | Raises

  /** What the calls made for one item find: whether the tunnel's process lives, its binary, the network, whether
      the file can be written, and the process launched, if any. */
  datatype World = World(alive: bool, binary: Binary, net: NetInfo, fileOk: bool, launch: Option<Pid>)

  predicate NetOk(net: NetInfo) {
    net.iface != "" && net.localIp != "" && net.gatewayMac != ""
  }

  /** s.replace(pattern, value) */
  function Replace(s: string, pattern: string, value: string): string
    requires pattern != ""
    decreases |s|
  {
    if s == "" then ""
    else if pattern <= s then value + Replace(s[|pattern|..], pattern, value)
    else [s[0]] + Replace(s[1..], pattern, value)
  }

  function Fill(template: string, net: NetInfo): string {
    Replace(Replace(Replace(template, "{{INTERFACE}}", net.iface), "{{LOCAL_IP}}", net.localIp),
            "{{ROUTER_MAC}}", net.gatewayMac)
  }

  function ContentOf(it: Item, net: NetInfo): string {
    if it.coreType == "paqet" then Fill(it.content, net) else it.content
  }

  function MarkerOf(it: Item, net: NetInfo): string {
    Decimal.Marker(ContentOf(it, net), it.nonce)
  }

  /** stop_tunnel_process */
  function Stop(s: State, id: Id): State {
    var s1 :=
      if id in s.procs then
        s.(procs := s.procs - {id}, configs := s.configs - {id}, log := s.log + [Stopped(id, s.procs[id])])
      else s;
    var s2 :=
      if id in s.metas && s.metas[id].Paqet? then
        s1.(fw := Cleanup(s.fw, s.metas[id].role, s.metas[id].corePort))
      else s1;
    s2.(metas := s.metas - {id})
  }

  /** restart_tunnel_process; launch is None where Popen or the log file fails. */
  function Restart(s: State, id: Id, marker: string, meta: Meta, launch: Option<Pid>): State {
    var s1 := Stop(s, id);
    if launch.None? then s1
    else
      s1.(procs := s1.procs[id := launch.value],
          configs := s1.configs[id := marker],
          metas := s1.metas[id := meta],
          log := s1.log + [Launched(id, launch.value, marker)])
  }

  /** The tunnel runs, and runs what the item asks for. */
  predicate Current(s: State, it: Item, w: World) {
    it.id in s.procs && w.alive && it.id in s.configs && s.configs[it.id] == MarkerOf(it, w.net)
  }

  /** The paqet branch where the tunnel has to be launched and its file could be written. */
  function Configured(s: State, it: Item): (State, bool) {
    var s1 := Stop(s, it.id);
    var (f, ok) := Configure(s1.fw, it.role, it.corePort);
    (s1.(fw := f), ok)
  }

  function HandlePaqet(s: State, it: Item, w: World): (State, bool) {
    if !NetOk(w.net) then (Stop(s, it.id), true)
    else if Current(s, it, w) then (s, true)
    else
      var s1 := Stop(s, it.id);
      if !w.fileOk then (s1, false)
      else
        var (s2, ok) := Configured(s, it);
        if ok then (Restart(s2, it.id, MarkerOf(it, w.net), Paqet(it.role, it.corePort), w.launch), true)
        else (s2, true)
  }

  function HandleFile(s: State, it: Item, w: World): (State, bool) {
    if Current(s, it, w) then (s, true)
    else if !w.fileOk then (s, false)
    else (Restart(s, it.id, MarkerOf(it, w.net), Plain, w.launch), true)
  }

  function HandleGost(s: State, it: Item, w: World): (State, bool) {
    if it.emptyCommand || Current(s, it, w) then (s, true)
    else (Restart(s, it.id, MarkerOf(it, w.net), Gost(it.role), w.launch), true)
  }

  /** One turn of the loop over the items; false where an exception ends apply_configs. */
  function Handle(s: State, it: Item, w: World): (State, bool) {
    if it.coreType == "backhaul" then HandleFile(s, it, w)
    else if it.coreType == "hawal" && w.binary.Raises? then (s, false)
    else if it.coreType !in {"hawal", "paqet", "gost"} || !w.binary.Ready? then (s, true)
    else if it.coreType == "hawal" then HandleFile(s, it, w)
    else if it.coreType == "paqet" then HandlePaqet(s, it, w)
    else HandleGost(s, it, w)
  }

  function HandleAll(s: State, items: seq<Item>, worlds: seq<World>): (State, bool)
    requires |worlds| == |items|
  {
    if items == [] then (s, true)
    else
      var k := |items| - 1;
      var (t, ok) := HandleAll(s, items[..k], worlds[..k]);
      if ok then Handle(t, items[k], worlds[k]) else (t, false)
  }

  function Ids(items: seq<Item>): (ids: set<Id>) {
    set k | 0 <= k < |items| :: items[k].id
  }

  /** The loop over list(self.running_processes.keys()), which order is. */
  function StopRemoved(s: State, order: seq<Id>, active: set<Id>): State {
    if order == [] then s
    else
      var k := |order| - 1;
      var t := StopRemoved(s, order[..k], active);
      if order[k] in active then t else Stop(t, order[k])
  }

  /** order lists the keys, in some order. */
  ghost predicate Lists(order: seq<Id>, keys: set<Id>) {
    forall id :: id in order <==> id in keys
  }

  /** apply_configs */
  function Apply(s: State, items: seq<Item>, worlds: seq<World>, order: seq<Id>): (State, bool)
    requires |worlds| == |items|
  {
    var (t, ok) := HandleAll(s, items, worlds);
    if ok then (StopRemoved(t, order, Ids(items)), true) else (t, false)
  }

  // ---- The tables agree on every path ----

  ghost predicate TablesAgree(s: State) {
    s.procs.Keys == s.configs.Keys == s.metas.Keys
  }

  lemma StopKeepsTables(s: State, id: Id)
    requires TablesAgree(s)
    ensures TablesAgree(Stop(s, id)) && id !in Stop(s, id).procs
  {
    hide Cleanup;
  }

  lemma RestartKeepsTables(s: State, id: Id, marker: string, meta: Meta, launch: Option<Pid>)
    requires TablesAgree(s)
    ensures TablesAgree(Restart(s, id, marker, meta, launch))
  {
    hide Stop;
    StopKeepsTables(s, id);
  }

  lemma HandleKeepsTables(s: State, it: Item, w: World)
    requires TablesAgree(s)
    ensures TablesAgree(Handle(s, it, w).0)
  {
    hide Configure, MarkerOf, Current, Stop, Restart;
    StopKeepsTables(s, it.id);
    RestartKeepsTables(s, it.id, MarkerOf(it, w.net), Plain, w.launch);
    RestartKeepsTables(s, it.id, MarkerOf(it, w.net), Gost(it.role), w.launch);
    RestartKeepsTables(Configured(s, it).0, it.id, MarkerOf(it, w.net), Paqet(it.role, it.corePort), w.launch);
  }

  /** Tunnel id has the same entries in s and in t. */
  ghost predicate SameEntries(s: State, t: State, id: Id) {
    && (id in t.procs <==> id in s.procs) && (id in s.procs ==> t.procs[id] == s.procs[id])
    && (id in t.configs <==> id in s.configs) && (id in s.configs ==> t.configs[id] == s.configs[id])
    && (id in t.metas <==> id in s.metas) && (id in s.metas ==> t.metas[id] == s.metas[id])
  }

  lemma StopFrame(s: State, stopped: Id, id: Id)
    ensures id != stopped ==> SameEntries(s, Stop(s, stopped), id)
  {
    hide Cleanup;
  }

  lemma RestartFrame(s: State, it: Item, meta: Meta, w: World, id: Id)
    ensures id != it.id ==> SameEntries(s, Restart(s, it.id, MarkerOf(it, w.net), meta, w.launch), id)
  {
    hide Stop, MarkerOf;
    StopFrame(s, it.id, id);
  }

  /** Handling one item leaves the entries of every other tunnel alone. */
  lemma HandleFrame(s: State, it: Item, w: World, id: Id)
    requires id != it.id
    ensures SameEntries(s, Handle(s, it, w).0, id)
  {
    hide Configure, MarkerOf, Current, Stop, Restart;
    StopFrame(s, it.id, id);
    RestartFrame(s, it, Plain, w, id);
    RestartFrame(s, it, Gost(it.role), w, id);
    RestartFrame(Configured(s, it).0, it, Paqet(it.role, it.corePort), w, id);
  }
}
