/** Traffic of paqet tunnels: app/static/js/agent.py, lines 485 to 575, reads the byte counters of the NOTRACK rules
    and reports their increments; app/server.py, lines 418 to 424, and app/db.py, lines 328 to 336, add them up. */
module Traffic {
  import opened Wrappers

  type Id = string

  /** Bytes received and sent. */
  datatype Pair = Pair(rx: nat, tx: nat)

  const ZERO: Pair := Pair(0, 0)

  function Plus(a: Pair, b: Pair): Pair {
    Pair(a.rx + b.rx, a.tx + b.tx)
  }

  function Increment(now: nat, last: nat): nat {
    if now > last then now - last else 0
  }

  function Delta(now: Pair, last: Pair): Pair {
    Pair(Increment(now.rx, last.rx), Increment(now.tx, last.tx))
  }

  /** bytes is None where a lookup raises. */
  datatype Reading = Reading(id: Id, bytes: Option<Pair>)

  datatype Report = Report(id: Id, bytes: Pair)

  function Get(m: map<Id, Pair>, id: Id, default: Pair): Pair {
    if id in m then m[id] else default
  }

  /** One live paqet server of the loop: _last_paqet_traffic, and what is reported. */
  function TrackOne(last: map<Id, Pair>, r: Reading): (map<Id, Pair>, seq<Report>) {
    if r.bytes.None? then (last, [])
    else
      var delta := Delta(r.bytes.value, Get(last, r.id, r.bytes.value));
      (last[r.id := r.bytes.value], if delta == ZERO then [] else [Report(r.id, delta)])
  }

  function TrackAll(last: map<Id, Pair>, readings: seq<Reading>): (map<Id, Pair>, seq<Report>) {
    if readings == [] then (last, [])
    else
      var k := |readings| - 1;
      var (l, reports) := TrackAll(last, readings[..k]);
      var (m, more) := TrackOne(l, readings[k]);
      (m, reports + more)
  }

  /** update_tunnel_traffic for each report; a tunnel that is not in the table is skipped by the WHERE. */
  function AddAll(totals: map<Id, Pair>, reports: seq<Report>): map<Id, Pair> {
    if reports == [] then totals
    else
      var t := AddAll(totals, reports[..|reports| - 1]);
      var r := reports[|reports| - 1];
      if r.id in t then t[r.id := Plus(t[r.id], r.bytes)] else t
  }

  class Agent {
    var lastPaqetTraffic: map<Id, Pair>

    constructor ()
      ensures lastPaqetTraffic == map[]
    {
      lastPaqetTraffic := map[];
    }

    /** track_and_report_traffic, for the paqet servers among the live tunnels. */
    method TrackTraffic(readings: seq<Reading>) returns (reports: seq<Report>)
      modifies this
      ensures (lastPaqetTraffic, reports) == TrackAll(old(lastPaqetTraffic), readings)
    {
      hide Delta;
      reports := [];
      var k := 0;
      while k < |readings|
        invariant k <= |readings|
        invariant (lastPaqetTraffic, reports) == TrackAll(old(lastPaqetTraffic), readings[..k])
      {
        assert readings[..k + 1][..k] == readings[..k];
        var r := readings[k];
        k := k + 1;
        if r.bytes.Some? {
          var now := r.bytes.value;
          var last := Get(lastPaqetTraffic, r.id, now);
          lastPaqetTraffic := lastPaqetTraffic[r.id := now];
          var delta := Delta(now, last);
          if delta != ZERO {
            reports := reports + [Report(r.id, delta)];
          } else {
            assert reports + [] == reports;
          }
        }
      }
      assert readings[..k] == readings;
    }
  }

  class Panel {
    var totals: map<Id, Pair>

    constructor (totals: map<Id, Pair>)
      ensures this.totals == totals
    {
      this.totals := totals;
    }

    /** POST /api/tunnels/traffic */
    method PostTraffic(reports: seq<Report>)
      modifies this
      ensures totals == AddAll(old(totals), reports)
    {
      var k := 0;
      while k < |reports|
        invariant k <= |reports|
        invariant totals == AddAll(old(totals), reports[..k])
      {
        assert reports[..k + 1][..k] == reports[..k];
        UpdateTunnelTraffic(reports[k].id, reports[k].bytes);
        k := k + 1;
      }
      assert reports[..k] == reports;
    }

    method UpdateTunnelTraffic(id: Id, bytes: Pair)
      modifies this
      ensures totals == if id in old(totals) then old(totals)[id := Plus(old(totals)[id], bytes)] else old(totals)
    {
      if id in totals {
        totals := totals[id := Plus(totals[id], bytes)];
      }
    }
  }

  // ---- One round of sampling, tunnel by tunnel ----

  ghost predicate DistinctIds(readings: seq<Reading>) {
    forall i, j :: 0 <= i < j < |readings| ==> readings[i].id != readings[j].id
  }

  lemma {:induction false} AddAllAppend(totals: map<Id, Pair>, a: seq<Report>, b: seq<Report>)
    ensures AddAll(totals, a + b) == AddAll(AddAll(totals, a), b)
    decreases |b|
  {
    if b == [] {
      assert a + b == a;
    } else {
      var k := |b| - 1;
      assert (a + b)[..|a| + k] == a + b[..k];
      AddAllAppend(totals, a, b[..k]);
    }
  }

  /** The reading of tunnel id, if it is among these. */
  function Find(readings: seq<Reading>, id: Id): Option<Pair> {
    if readings == [] then None
    else
      var k := |readings| - 1;
      if readings[k].id == id then readings[k].bytes else Find(readings[..k], id)
  }

  lemma {:induction false} NotFound(readings: seq<Reading>, id: Id)
    requires forall k :: 0 <= k < |readings| ==> readings[k].id != id
    ensures Find(readings, id) == None
  {
    if readings != [] {
      NotFound(readings[..|readings| - 1], id);
    }
  }

  /** The remembered reading and the total of a tunnel after one round: nothing changes without a reading; with
      one, it is remembered, and the increment since the one before, if any, is added to the total. */
  ghost predicate Round(l0: map<Id, Pair>, t0: map<Id, Pair>, l: map<Id, Pair>, t: map<Id, Pair>, id: Id,
                        reading: Option<Pair>)
    requires id in t0
  {
    && id in t
    && match reading
       case None => t[id] == t0[id] && (id in l <==> id in l0) && (id in l ==> l[id] == l0[id])
       case Some(now) => id in l && l[id] == now && t[id] == Plus(t0[id], Delta(now, Get(l0, id, now)))
  }

  lemma OneRound(l: map<Id, Pair>, t: map<Id, Pair>, r: Reading, id: Id)
    requires id in t
    ensures var (m, more) := TrackOne(l, r);
      Round(l, t, m, AddAll(t, more), id, if r.id == id then r.bytes else None)
  {
    hide Delta;
    OneReport(t, TrackOne(l, r).1);
  }

  lemma OneReport(totals: map<Id, Pair>, more: seq<Report>)
    requires |more| <= 1
    ensures AddAll(totals, more) ==
      if more != [] && more[0].id in totals then totals[more[0].id := Plus(totals[more[0].id], more[0].bytes)]
      else totals
  {
  }

  lemma {:induction false} RoundByDelta(last: map<Id, Pair>, totals: map<Id, Pair>, readings: seq<Reading>, id: Id)
    requires DistinctIds(readings) && id in totals
    ensures var (l, reports) := TrackAll(last, readings);
      Round(last, totals, l, AddAll(totals, reports), id, Find(readings, id))
    decreases |readings|
  {
    hide TrackOne, AddAll, Delta;
    if readings == [] {
      assert AddAll(totals, []) == totals by { AddNone(totals); }
    } else {
      var k := |readings| - 1;
      RoundByDelta(last, totals, readings[..k], id);
      var (l, reports) := TrackAll(last, readings[..k]);
      AddAllAppend(totals, reports, TrackOne(l, readings[k]).1);
      OneRound(l, AddAll(totals, reports), readings[k], id);
      if readings[k].id == id {
        NotFound(readings[..k], id);
      }
    }
  }

  /** What a total grows by when the counter says now, and before is what was remembered of it, if anything. */
  function Grown(now: nat, before: Option<nat>): nat {
    if before.Some? && now > before.value then now - before.value else 0
  }

  /** One round, for a tunnel of the panel: a reading that succeeds is remembered, and what it is above the one before,
      if anything, is added to the total, direction by direction; a first reading adds nothing, a lookup that fails
      changes nothing, and neither does a tunnel that was not looked up. */
  lemma RoundAt(last: map<Id, Pair>, totals: map<Id, Pair>, readings: seq<Reading>, id: Id)
    requires DistinctIds(readings) && id in totals
    ensures var (l, reports) := TrackAll(last, readings); var t := AddAll(totals, reports);
      id in t && match Find(readings, id)
      case None => t[id] == totals[id] && (id in l <==> id in last) && (id in last ==> l[id] == last[id])
      case Some(now) =>
        && id in l && l[id] == now
        && t[id].rx == totals[id].rx + Grown(now.rx, if id in last then Some(last[id].rx) else None)
        && t[id].tx == totals[id].tx + Grown(now.tx, if id in last then Some(last[id].tx) else None)
  {
    hide TrackAll, AddAll, Find;
    RoundByDelta(last, totals, readings, id);
  }

  lemma AddNone(totals: map<Id, Pair>)
    ensures AddAll(totals, []) == totals
  {
  }

  // ---- Runs ----

  /** History of one tunnel: its ledger at its first and at its last sample, and the counter at the first. */
  datatype Seen = Seen(first: Pair, mark: Pair, base: Pair)

  /** counters: of the rules of each tunnel's port; last: of the agent; totals: of the panel; passed: the bytes that
      passed so far; carried: what rules had counted already when the tunnel came to them. */
  datatype State = State(
    counters: map<Id, Pair>, last: map<Id, Pair>, totals: map<Id, Pair>, passed: map<Id, Pair>,
    carried: map<Id, Pair>, seen: map<Id, Seen>)

  /** Rebase: the tunnel's rules are new ones, or those of another port, and have counted start so far. Track goes
      through the live paqet servers in the order given; found are those whose lookups succeed, and posted says
      whether the panel gets the reports. */
  datatype Event =
    | Pass(id: Id, bytes: Pair)
    | Rebase(id: Id, start: Pair)
    | Track(order: seq<Id>, found: set<Id>, posted: bool)
    | AgentRestart

  function Readings(s: State, order: seq<Id>, found: set<Id>): (r: seq<Reading>)
    ensures |r| == |order| && forall k :: 0 <= k < |r| ==> r[k].id == order[k]
  {
    seq(|order|, k requires 0 <= k < |order| =>
      Reading(order[k], if order[k] in found then Some(Get(s.counters, order[k], ZERO)) else None))
  }

  function Look(seen: Option<Seen>, ledger: Pair, counter: Pair): Seen {
    if seen.Some? then seen.value.(mark := ledger) else Seen(ledger, ledger, counter)
  }

  function Next(s: State, ev: Event): State {
    match ev
    case Pass(id, bytes) =>
      s.(counters := s.counters[id := Plus(Get(s.counters, id, ZERO), bytes)],
         passed := s.passed[id := Plus(Get(s.passed, id, ZERO), bytes)])
    case Rebase(id, start) =>
      s.(counters := s.counters[id := start], carried := s.carried[id := Plus(Get(s.carried, id, ZERO), start)])
    case Track(order, found, posted) =>
      var (l, reports) := TrackAll(s.last, Readings(s, order, found));
      var sampled := set id | id in order && id in found;
      s.(last := l,
         totals := if posted then AddAll(s.totals, reports) else s.totals,
         seen := map id | id in s.seen.Keys + sampled ::
           if id in sampled then Look(MeterOf(s, id).seen, MeterOf(s, id).Ledger(), MeterOf(s, id).counter)
           else s.seen[id])
    case AgentRestart => s.(last := map[])
  }

  function Run(s: State, events: seq<Event>): State {
    if events == [] then s else Next(Run(s, events[..|events| - 1]), events[|events| - 1])
  }

  /** No sample yet. */
  ghost predicate Initial(s: State) {
    s.last == map[] && s.seen == map[]
  }

  ghost predicate WellFormed(ev: Event) {
    ev.Track? ==> forall i, j :: 0 <= i < j < |ev.order| ==> ev.order[i] != ev.order[j]
  }

  // ---- The same, one tunnel at a time ----

  datatype Meter = Meter(
    counter: Pair, passed: Pair, carried: Pair, total: Pair, last: Option<Pair>, seen: Option<Seen>)
  {
    /** What the counters can account for. */
    function Ledger(): Pair {
      Plus(passed, carried)
    }
  }

  function MeterOf(s: State, id: Id): Meter {
    Meter(Get(s.counters, id, ZERO), Get(s.passed, id, ZERO), Get(s.carried, id, ZERO), Get(s.totals, id, ZERO),
          if id in s.last then Some(s.last[id]) else None, if id in s.seen then Some(s.seen[id]) else None)
  }

  function Sample(m: Meter, posted: bool): Meter {
    var since := if m.last.Some? then Delta(m.counter, m.last.value) else ZERO;
    m.(last := Some(m.counter),
       total := if posted then Plus(m.total, since) else m.total,
       seen := Some(Look(m.seen, m.Ledger(), m.counter)))
  }

  function MeterNext(m: Meter, ev: Event, id: Id): Meter {
    match ev
    case Pass(at, bytes) =>
      if at == id then m.(counter := Plus(m.counter, bytes), passed := Plus(m.passed, bytes)) else m
    case Rebase(at, start) => if at == id then m.(counter := start, carried := Plus(m.carried, start)) else m
    case Track(order, found, posted) => if id in order && id in found then Sample(m, posted) else m
    case AgentRestart => m.(last := None)
  }

  lemma {:induction false} FindReading(s: State, order: seq<Id>, found: set<Id>, id: Id)
    ensures Find(Readings(s, order, found), id)
         == if id in order && id in found then Some(Get(s.counters, id, ZERO)) else None
    decreases |order|
  {
    if order != [] {
      var k := |order| - 1;
      FindReading(s, order[..k], found, id);
      assert Readings(s, order, found)[..k] == Readings(s, order[..k], found);
      assert id in order <==> id in order[..k] || id == order[k];
    }
  }

  lemma TrackByMeter(s: State, ev: Event, id: Id)
    requires ev.Track? && WellFormed(ev) && id in s.totals
    ensures var t := Next(s, ev); id in t.totals && MeterOf(t, id) == MeterNext(MeterOf(s, id), ev, id)
  {
    hide Delta, TrackAll, AddAll, Find, Readings, Look, Meter.Ledger;
    FindReading(s, ev.order, ev.found, id);
    RoundByDelta(s.last, s.totals, Readings(s, ev.order, ev.found), id);
    DeltaOfSame(Get(s.counters, id, ZERO));
    hide Plus;
  }

  lemma OtherByMeter(s: State, ev: Event, id: Id)
    requires !ev.Track? && id in s.totals
    ensures var t := Next(s, ev); id in t.totals && MeterOf(t, id) == MeterNext(MeterOf(s, id), ev, id)
  {
    hide Plus, TrackAll, AddAll, Readings, Look, Sample, Meter.Ledger;
  }

  /** The tunnels do not disturb one another. */
  lemma StepByMeter(s: State, ev: Event, id: Id)
    requires WellFormed(ev) && id in s.totals
    ensures var t := Next(s, ev); id in t.totals && MeterOf(t, id) == MeterNext(MeterOf(s, id), ev, id)
  {
    hide Next, MeterNext, MeterOf, WellFormed;
    if ev.Track? {
      TrackByMeter(s, ev, id);
    } else {
      OtherByMeter(s, ev, id);
    }
  }

  lemma DeltaOfSame(now: Pair)
    ensures Delta(now, now) == ZERO
  {
  }

  predicate Below(a: Pair, b: Pair) {
    a.rx <= b.rx && a.tx <= b.tx
  }

  /** The total has grown from t0 by at most what the ledger did between the first and the last sample, and the counter,
      since it was last remembered, by at most what the ledger did since then. */
  ghost predicate Inv(m: Meter, t0: Pair) {
    match m.seen
    case None => m.last == None && m.total == t0
    case Some(z) =>
      && Below(z.first, z.mark) && Below(z.mark, m.Ledger())
      && Below(t0, m.total) && Below(Plus(m.total, z.first), Plus(t0, z.mark))
      && (m.last.Some? ==> Below(Plus(m.counter, z.mark), Plus(m.last.value, m.Ledger())))
  }

  lemma MeterKeepsInv(m: Meter, ev: Event, id: Id, t0: Pair)
    requires Inv(m, t0)
    ensures Inv(MeterNext(m, ev, id), t0) && Below(m.total, MeterNext(m, ev, id).total)
  {
  }

  ghost predicate AllWellFormed(events: seq<Event>) {
    forall k :: 0 <= k < |events| ==> WellFormed(events[k])
  }

  lemma {:induction false} RunKeepsInv(s: State, events: seq<Event>, id: Id)
    requires Initial(s) && AllWellFormed(events) && id in s.totals
    ensures id in Run(s, events).totals && Inv(MeterOf(Run(s, events), id), s.totals[id])
    decreases |events|
  {
    hide Next, WellFormed, MeterNext, MeterOf, Inv;
    if events == [] {
      assert Inv(MeterOf(s, id), s.totals[id]) by { InitialInv(s, id); }
    } else {
      var k := |events| - 1;
      RunKeepsInv(s, events[..k], id);
      StepByMeter(Run(s, events[..k]), events[k], id);
      MeterKeepsInv(MeterOf(Run(s, events[..k]), id), events[k], id, s.totals[id]);
    }
  }

  lemma InitialInv(s: State, id: Id)
    requires Initial(s) && id in s.totals
    ensures Inv(MeterOf(s, id), s.totals[id])
  {
  }

  /** In any run of traffic, new rules, moves to other ports, samples, failed lookups, lost reports and restarts of the
      agent, the panel's total of a tunnel stays as it was until the first sample, and then grows by no more than
      the bytes that have passed since that sample and what rules that the tunnel came to had counted before. */
  lemma NeverOvercounts(s: State, events: seq<Event>, id: Id)
    requires Initial(s) && AllWellFormed(events) && id in s.totals
    ensures var t := Run(s, events);
      && id in t.totals && Below(s.totals[id], t.totals[id])
      && if id in t.seen then
           Below(Plus(t.totals[id], t.seen[id].first), Plus(s.totals[id], MeterOf(t, id).Ledger()))
         else t.totals[id] == s.totals[id]
  {
    hide Run, AllWellFormed;
    RunKeepsInv(s, events, id);
  }

  /** The rules that the tunnel comes to are new. */
  ghost predicate OnlyNewRules(events: seq<Event>, id: Id) {
    forall k :: 0 <= k < |events| && events[k].Rebase? && events[k].id == id ==> events[k].start == ZERO
  }

  /** New rules carry nothing, so that the bound above is then the bytes that have passed. */
  lemma {:induction false} NothingCarried(s: State, events: seq<Event>, id: Id)
    requires OnlyNewRules(events, id)
    ensures Get(Run(s, events).carried, id, ZERO) == Get(s.carried, id, ZERO)
    decreases |events|
  {
    hide Next;
    if events != [] {
      var k := |events| - 1;
      NothingCarried(s, events[..k], id);
      CarriesOnlyStart(Run(s, events[..k]), events[k], id);
    }
  }

  lemma CarriesOnlyStart(s: State, ev: Event, id: Id)
    requires ev.Rebase? && ev.id == id ==> ev.start == ZERO
    ensures Get(Next(s, ev).carried, id, ZERO) == Get(s.carried, id, ZERO)
  {
    hide Next, Get, Plus;
    if ev.Rebase? {
      RebaseCarries(s, ev);
      GetUpdated(s.carried, ev.id, Plus(Get(s.carried, ev.id, ZERO), ev.start), id);
      PlusNothing(Get(s.carried, id, ZERO));
    } else {
      OthersCarryNothing(s, ev);
    }
  }

  lemma GetUpdated(m: map<Id, Pair>, at: Id, value: Pair, id: Id)
    ensures Get(m[at := value], id, ZERO) == if at == id then value else Get(m, id, ZERO)
  {
  }

  lemma PlusNothing(a: Pair)
    ensures Plus(a, ZERO) == a
  {
  }

  lemma RebaseCarries(s: State, ev: Event)
    requires ev.Rebase?
    ensures Next(s, ev).carried == s.carried[ev.id := Plus(Get(s.carried, ev.id, ZERO), ev.start)]
  {
    hide Get, Plus;
  }

  lemma OthersCarryNothing(s: State, ev: Event)
    requires !ev.Rebase?
    ensures Next(s, ev).carried == s.carried
  {
    hide TrackAll, AddAll, Readings, Look, MeterOf, Plus, Get;
  }

  /** A move to a port whose rule has counted more than the one before counts the difference as traffic. */
  lemma MoveOvercounts(m: Meter, start: Pair, id: Id, found: set<Id>)
    requires m.last == Some(m.counter) && id in found
    ensures var after := MeterNext(MeterNext(m, Rebase(id, start), id), Track([id], found, true), id);
      after.passed == m.passed && after.total == Plus(m.total, Delta(start, m.counter))
  {
    assert id in [id];
  }

  /** No event of a run makes the total smaller. */
  lemma NeverShrinks(s: State, events: seq<Event>, ev: Event, id: Id)
    requires Initial(s) && AllWellFormed(events) && WellFormed(ev) && id in s.totals
    ensures var t := Run(s, events); var u := Next(t, ev);
      id in t.totals && id in u.totals && Below(t.totals[id], u.totals[id])
  {
    hide Run, AllWellFormed, WellFormed, Next, Inv, MeterNext;
    RunKeepsInv(s, events, id);
    var t := Run(s, events);
    StepByMeter(t, ev, id);
    MeterKeepsInv(MeterOf(t, id), ev, id, s.totals[id]);
  }

  /** The same rules for this tunnel, no lost report, no restart of the agent. */
  predicate Smooth(ev: Event, id: Id) {
    !ev.AgentRestart? && (ev.Rebase? ==> ev.id != id) && (ev.Track? ==> ev.posted)
  }

  /** The total has grown by exactly last - base, and that is what the ledger did between first and mark. */
  ghost predicate Exact(m: Meter, t0: Pair) {
    match m.seen
    case None => m.last == None && m.total == t0
    case Some(z) =>
      && m.last.Some?
      && Plus(m.total, z.base) == Plus(t0, m.last.value)
      && Plus(m.total, z.first) == Plus(t0, z.mark)
      && Below(m.last.value, m.counter)
      && Plus(m.counter, z.mark) == Plus(m.last.value, m.Ledger())
  }

  lemma MeterKeepsExact(m: Meter, ev: Event, id: Id, t0: Pair)
    requires Exact(m, t0) && Smooth(ev, id)
    ensures Exact(MeterNext(m, ev, id), t0)
  {
  }

  ghost predicate AllSmooth(events: seq<Event>, id: Id) {
    forall k :: 0 <= k < |events| ==> Smooth(events[k], id)
  }

  lemma {:induction false} RunKeepsExact(s: State, events: seq<Event>, id: Id)
    requires Initial(s) && AllWellFormed(events) && AllSmooth(events, id) && id in s.totals
    ensures id in Run(s, events).totals && Exact(MeterOf(Run(s, events), id), s.totals[id])
    decreases |events|
  {
    hide Next, WellFormed, Smooth, MeterNext, MeterOf, Exact;
    if events == [] {
      assert Exact(MeterOf(s, id), s.totals[id]) by { InitialExact(s, id); }
    } else {
      var k := |events| - 1;
      RunKeepsExact(s, events[..k], id);
      StepByMeter(Run(s, events[..k]), events[k], id);
      MeterKeepsExact(MeterOf(Run(s, events[..k]), id), events[k], id, s.totals[id]);
    }
  }

  lemma InitialExact(s: State, id: Id)
    requires Initial(s) && id in s.totals
    ensures Exact(MeterOf(s, id), s.totals[id])
  {
  }

  /** With the same rules, no lost reports and no restarts the total has grown by exactly the last sampled counter
      minus the first, and that is all that passed between the two samples, even where lookups failed in between. */
  lemma ExactWhenSmooth(s: State, events: seq<Event>, id: Id)
    requires Initial(s) && AllWellFormed(events) && AllSmooth(events, id) && id in s.totals
    ensures var t := Run(s, events); id in t.totals && (id in t.seen ==>
      && id in t.last
      && Plus(t.totals[id], t.seen[id].base) == Plus(s.totals[id], t.last[id])
      && Plus(t.totals[id], t.seen[id].first) == Plus(s.totals[id], t.seen[id].mark))
  {
    hide Run, AllWellFormed, AllSmooth;
    RunKeepsExact(s, events, id);
  }
}
