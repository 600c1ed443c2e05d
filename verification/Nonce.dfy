/** The restart nonce between panel and agent: app/db.py, lines 277 to 282, and app/static/js/agent.py, lines 45
    to 54, 326 to 345 and 577 to 594. The nonce file is text, and writing it can stop part way. */
module Nonce {
  import opened Wrappers
  import opened Decimal

  // ---- The file ----

  /** _load_agent_restart_nonce; 0 where opening, reading or parsing raises. */
  function Load(file: string, readable: bool): nat {
    if readable && AllDigits(file) then Val(file) else 0
  }

  // ---- The protocol ----

  /** requested is agent_restart_nonce in the nodes table, reported the value that the sync in progress was sent,
      mem is self.agent_restart_nonce, restarts the nonces for which the agent asked itself to stop. */
  datatype State = State(
    requested: nat, reported: Option<nat>, file: string, mem: nat, running: bool, shutdown: bool,
    restarts: seq<nat>)

  /** How _save_agent_restart_nonce ends: the file is written; opening it raises; or writing stops with only the
      first k characters in it. */
  datatype Save = Saved | CannotOpen | Torn(k: nat)

  datatype Event =
    | Request
    | Fetch
    | Act(applied: bool, save: Save)
    | Crash
    | Boot(readable: bool)

  function Front(s: string, k: nat): string {
    if k <= |s| then s[..k] else s
  }

  /** The part of sync_tunnels after the answer is read; applied says that apply_configs did not raise. */
  function AfterAnswer(s: State, nonce: nat, applied: bool, save: Save): State {
    if applied && nonce > s.mem then
      match save
      case Saved => s.(file := StrNat(nonce), mem := nonce, shutdown := true, restarts := s.restarts + [nonce])
      case CannotOpen => s
      case Torn(k) => s.(file := Front(StrNat(nonce), k))
    else s
  }

  /** An event that cannot happen in s leaves it as it is. */
  function Next(s: State, ev: Event): State {
    match ev
    case Request => s.(requested := s.requested + 1)
    case Fetch => if s.running && !s.shutdown && s.reported.None? then s.(reported := Some(s.requested)) else s
    case Act(applied, save) =>
      if s.running && s.reported.Some? then AfterAnswer(s, s.reported.value, applied, save).(reported := None) else s
    case Crash => s.(running := false, reported := None)
    case Boot(readable) =>
      if s.running then s else s.(running := true, shutdown := false, mem := Load(s.file, readable))
  }

  /** What the end of a sync changes: nothing but that it is over, if apply_configs has raised or the nonce is no news;
      otherwise the file, as far as it could be written, and, if it could, the agent's nonce, and the agent is to stop.
      So a sync restarts the agent exactly if its list was applied, its nonce is above the agent's, and it was saved. */
  lemma SyncEffect(s: State, applied: bool, save: Save)
    requires s.running && s.reported.Some?
    ensures var t, n := Next(s, Act(applied, save)), s.reported.value; var news := applied && n > s.mem;
      && t.reported == None && t.requested == s.requested && t.running
      && (!news ==> t == s.(reported := None))
      && (news && save.Saved? ==> t.file == StrNat(n) && t.mem == n && t.shutdown)
      && (news && !save.Saved? ==> t.mem == s.mem && t.shutdown == s.shutdown)
      && (news && save.CannotOpen? ==> t.file == s.file)
      && (news && save.Torn? ==> t.file <= StrNat(n) && (|t.file| == save.k || t.file == StrNat(n)))
      && t.restarts == s.restarts + if news && save.Saved? then [n] else []
  {
  }

  /** A start of the agent takes its nonce from the file, and 0 where that cannot be read or is not a number. */
  lemma BootEffect(s: State, readable: bool)
    requires !s.running
    ensures var t := Next(s, Boot(readable));
      && t.running && !t.shutdown && t.file == s.file && t.restarts == s.restarts
      && (readable && (forall k :: 0 <= k < |s.file| ==> s.file[k] in "0123456789") ==> t.mem == Val(s.file))
      && (!readable || (exists k :: 0 <= k < |s.file| && s.file[k] !in "0123456789") ==> t.mem == 0)
  {
    hide Val;
    assert DIGITS == "0123456789";
  }

  /** An agent that is to stop starts no further sync; any other one is sent what the panel then has. */
  lemma FetchEffect(s: State)
    ensures s.running && !s.shutdown && s.reported == None ==> Next(s, Fetch) == s.(reported := Some(s.requested))
    ensures !s.running || s.shutdown ==> Next(s, Fetch) == s
    ensures Next(s, Request) == s.(requested := s.requested + 1)
  {
  }

  /** A new node, and no nonce file yet: an empty one reads the same. */
  const START: State := State(0, None, "", 0, false, false, [])

  function RunFrom(s: State, events: seq<Event>): State {
    if events == [] then s else Next(RunFrom(s, events[..|events| - 1]), events[|events| - 1])
  }

  function Run(events: seq<Event>): State {
    RunFrom(START, events)
  }

  function Last(restarts: seq<nat>): nat {
    if restarts == [] then 0 else restarts[|restarts| - 1]
  }

  ghost predicate Increasing(restarts: seq<nat>) {
    (forall i :: 0 <= i < |restarts| ==> restarts[i] > 0) &&
    forall i, j :: 0 <= i < j < |restarts| ==> restarts[i] < restarts[j]
  }

  /** A nonce that is below the last restart can only be met by a request above it. */
  predicate Safe(s: State, nonce: nat) {
    nonce >= Last(s.restarts) || s.requested > Last(s.restarts)
  }

  ghost predicate Inv(s: State) {
    && Increasing(s.restarts) && Last(s.restarts) <= s.requested
    && AllDigits(s.file)
    && Safe(s, s.mem) && Safe(s, Val(s.file))
    && (s.reported.Some? ==>
          && s.running
          && s.reported.value <= s.requested
          && (s.mem >= Last(s.restarts) || s.reported.value > Last(s.restarts)))
  }

  lemma IncreasingSnoc(restarts: seq<nat>, n: nat)
    requires Increasing(restarts) && n > Last(restarts)
    ensures Increasing(restarts + [n])
  {
  }

  lemma AnswerKeepsInv(s: State, applied: bool, save: Save)
    requires Inv(s) && s.reported.Some?
    ensures Inv(AfterAnswer(s, s.reported.value, applied, save).(reported := None))
  {
    var n := s.reported.value;
    if applied && n > s.mem {
      IncreasingSnoc(s.restarts, n);
      ValOfStr(n);
      if save.Torn? && save.k <= |StrNat(n)| {
        ValOfPrefix(StrNat(n), save.k);
      }
    }
  }

  /** The agent has never restarted itself, or a newer request waits. */
  predicate Unconcerned(s: State) {
    Last(s.restarts) == 0 || s.requested > Last(s.restarts)
  }

  lemma StepKeepsInv(s: State, ev: Event)
    requires Inv(s) && (ev == Boot(false) ==> s.running || Unconcerned(s))
    ensures Inv(Next(s, ev))
  {
    hide Increasing, Val, StrNat, AfterAnswer;
    if ev.Act? && s.reported.Some? {
      AnswerKeepsInv(s, ev.applied, ev.save);
    }
  }

  /** Every start that cannot read the nonce file comes where that does no harm. */
  ghost predicate LoadsOk(events: seq<Event>) {
    forall k :: 0 <= k < |events| && events[k] == Boot(false) ==>
      Run(events[..k]).running || Unconcerned(Run(events[..k]))
  }

  lemma LoadsOkPrefix(events: seq<Event>, k: nat)
    requires LoadsOk(events) && k <= |events|
    ensures LoadsOk(events[..k])
  {
    hide RunFrom, Unconcerned;
    forall j | 0 <= j < k && events[..k][j] == Boot(false)
      ensures Run(events[..k][..j]).running || Unconcerned(Run(events[..k][..j]))
    {
      assert events[..k][..j] == events[..j];
    }
  }

  lemma {:induction false} RunKeepsInv(events: seq<Event>)
    requires LoadsOk(events)
    ensures Inv(Run(events))
    decreases |events|
  {
    hide Inv, Next, Unconcerned;
    if events == [] {
      StartInv();
    } else {
      LoadsOkPrefix(events, |events| - 1);
      RunKeepsInv(events[..|events| - 1]);
      StepKeepsInv(Run(events[..|events| - 1]), events[|events| - 1]);
    }
  }

  lemma StartInv()
    ensures Inv(START)
  {
  }

  lemma {:induction false} IncreasingBounds(restarts: seq<nat>)
    requires Increasing(restarts)
    ensures |restarts| <= Last(restarts)
  {
    if |restarts| > 1 {
      IncreasingBounds(restarts[..|restarts| - 1]);
    }
  }

  /** Over any run of requests, syncs, failed and torn writes and crashes, in which a start of the agent that
      cannot read the nonce file comes only where that does no harm, the agent restarts itself at most once for
      each nonce, only for nonces that the panel has reached, and never more often than the panel asked. */
  lemma AtMostOncePerNonce(events: seq<Event>)
    requires LoadsOk(events)
    ensures var r := Run(events).restarts;
      && (forall i, j :: 0 <= i < j < |r| ==> r[i] < r[j])
      && (forall i :: 0 <= i < |r| ==> 0 < r[i] <= Run(events).requested)
      && |r| <= Run(events).requested
  {
    hide RunFrom, LoadsOk, AllDigits, Safe;
    RunKeepsInv(events);
    IncreasingBounds(Run(events).restarts);
  }

  /** A sync that applies its list and, where it has to, saves the nonce leaves the agent's nonce at or above the
      reported one; if that was news, the agent stops, and its file says the nonce when it starts again. */
  lemma CompletedSyncCatchesUp(s: State, nonce: nat)
    requires s.running && s.reported == Some(nonce)
    ensures var t := Next(s, Act(true, Saved));
      && t.mem >= nonce
      && (nonce > s.mem ==> t.shutdown && t.mem == nonce && t.restarts == s.restarts + [nonce])
      && (nonce <= s.mem ==> t == s.(reported := None))
      && (nonce > s.mem ==> Next(Next(t, Crash), Boot(true)).mem == nonce)
  {
    ValOfStr(nonce);
  }

  /** A start of the agent that cannot read its file, from 0 then, with a sync after it that works: where it has
      restarted itself and no newer request waits, it restarts a second time for the same nonce. */
  lemma FailedLoadRepeats(s: State)
    requires Inv(s) && !s.running && !Unconcerned(s)
    ensures Next(Next(Next(s, Boot(false)), Fetch), Act(true, Saved)).restarts == s.restarts + [Last(s.restarts)]
  {
    hide Val;
  }

  lemma {:induction false} GoodRunKeepsInv(s: State, more: seq<Event>)
    requires Inv(s) && Boot(false) !in more
    ensures Inv(RunFrom(s, more))
    decreases |more|
  {
    hide Inv, Next;
    if more != [] {
      GoodRunKeepsInv(s, more[..|more| - 1]);
      StepKeepsInv(RunFrom(s, more[..|more| - 1]), more[|more| - 1]);
    }
  }

  lemma RunOfTwo(s: State, a: Event, b: Event)
    ensures RunFrom(s, [a, b]) == Next(Next(s, a), b)
  {
    hide Next;
    assert [a, b][..1] == [a] && [a][..0] == [];
    assert RunFrom(s, [a]) == Next(s, a);
  }

  /** When a start without a readable nonce file is harmless: no continuation in which the later starts can read it
      ever restarts the agent twice for a nonce, if and only if the agent was running anyway, or has never
      restarted itself, or a newer request waits. */
  lemma FailedLoadHarmlessIff(s: State)
    requires Inv(s)
    ensures (forall more :: Boot(false) !in more ==> Increasing(RunFrom(Next(s, Boot(false)), more).restarts))
       <==> s.running || Unconcerned(s)
  {
    hide Next, RunFrom, Unconcerned, Increasing, AllDigits, Safe;
    var t := Next(s, Boot(false));
    if s.running || Unconcerned(s) {
      StepKeepsInv(s, Boot(false));
      forall more | Boot(false) !in more ensures Increasing(RunFrom(t, more).restarts) {
        GoodRunKeepsInv(t, more);
      }
    } else {
      FailedLoadRepeats(s);
      RunOfTwo(t, Fetch, Act(true, Saved));
      TwiceIsNotIncreasing(s.restarts);
      assert Boot(false) !in [Fetch, Act(true, Saved)];
      NeverRestartedIsUnconcerned(s);
    }
  }

  lemma TwiceIsNotIncreasing(restarts: seq<nat>)
    ensures restarts != [] ==> !Increasing(restarts + [Last(restarts)])
  {
    if restarts != [] {
      var twice, k := restarts + [Last(restarts)], |restarts|;
      assert twice[k - 1] == twice[k];
    }
  }

  lemma NeverRestartedIsUnconcerned(s: State)
    ensures s.restarts == [] ==> Unconcerned(s)
  {
  }

  /** Such a run. */
  lemma RepeatIsReachable()
    ensures Run([Request, Boot(true), Fetch, Act(true, Saved), Crash, Boot(false), Fetch, Act(true, Saved)]).restarts
         == [1, 1]
  {
    var s1 := State(1, None, "", 0, false, false, []);
    var e4 := [Request, Boot(true), Fetch, Act(true, Saved)];
    var s4 := State(1, None, "1", 1, true, true, [1]);
    assert Run([Request]) == s1 by { assert [Request][..0] == []; }
    assert Run([Request, Boot(true)]) == s1.(running := true) by { assert [Request, Boot(true)][..1] == [Request]; }
    assert Run([Request, Boot(true), Fetch]) == s1.(running := true, reported := Some(1)) by {
      assert [Request, Boot(true), Fetch][..2] == [Request, Boot(true)];
    }
    assert Run(e4) == s4 by { assert e4[..3] == [Request, Boot(true), Fetch]; }
    var e5, e6, e7 := e4 + [Crash], e4 + [Crash, Boot(false)], e4 + [Crash, Boot(false), Fetch];
    var e8 := e7 + [Act(true, Saved)];
    assert e5[..4] == e4 && e6[..5] == e5 && e7[..6] == e6 && e8[..7] == e7;
    assert Run(e5) == s4.(running := false);
    assert Run(e6) == State(1, None, "1", 0, true, false, [1]);
    assert Run(e7) == State(1, Some(1), "1", 0, true, false, [1]);
    assert e8 == [Request, Boot(true), Fetch, Act(true, Saved), Crash, Boot(false), Fetch, Act(true, Saved)];
  }

  // ---- Any run: how often a restart can repeat ----

  /** How many restarts are for the nonce of the one before. */
  function Repeats(restarts: seq<nat>): nat {
    if |restarts| < 2 then 0
    else
      var k := |restarts| - 1;
      Repeats(restarts[..k]) + if restarts[k] == restarts[k - 1] then 1 else 0
  }

  ghost predicate NeverFalls(restarts: seq<nat>) {
    (forall i :: 0 <= i < |restarts| ==> 0 < restarts[i] <= Last(restarts)) &&
    forall i, j :: 0 <= i < j < |restarts| ==> restarts[i] <= restarts[j]
  }

  /** A restart may repeat: the agent, its file or the answer in its hand has fallen behind the last one. */
  predicate Exposed(s: State) {
    || !Safe(s, s.mem) || !Safe(s, Val(s.file))
    || (s.reported.Some? && s.mem < Last(s.restarts) && s.reported.value <= Last(s.restarts))
  }

  ghost predicate Ordered(s: State) {
    && NeverFalls(s.restarts) && Last(s.restarts) <= s.requested && AllDigits(s.file)
    && (s.reported.Some? ==> s.running && Last(s.restarts) <= s.reported.value <= s.requested)
  }

  /** The restarts that have repeated, and one more if the next may. */
  function Debt(s: State): nat {
    Repeats(s.restarts) + if Exposed(s) then 1 else 0
  }

  predicate Harmful(s: State, ev: Event) {
    ev == Boot(false) && !s.running && !Unconcerned(s)
  }

  lemma RestartAdds(restarts: seq<nat>, n: nat)
    requires NeverFalls(restarts) && n >= Last(restarts) && n > 0
    ensures NeverFalls(restarts + [n]) && Last(restarts + [n]) == n
    ensures Repeats(restarts + [n]) == Repeats(restarts) + if restarts != [] && n == Last(restarts) then 1 else 0
  {
    assert (restarts + [n])[..|restarts|] == restarts;
  }

  lemma AnswerOwes(s: State, applied: bool, save: Save)
    requires Ordered(s) && s.reported.Some?
    ensures var t := AfterAnswer(s, s.reported.value, applied, save).(reported := None);
      Ordered(t) && Debt(t) <= Debt(s)
  {
    hide Val, StrNat, NeverFalls, Repeats;
    var n := s.reported.value;
    if applied && n > s.mem {
      ValOfStr(n);
      if save.Saved? {
        RestartAdds(s.restarts, n);
      }
    }
  }

  lemma StepOwes(s: State, ev: Event)
    requires Ordered(s)
    ensures Ordered(Next(s, ev)) && Debt(Next(s, ev)) <= Debt(s) + if Harmful(s, ev) then 1 else 0
  {
    hide Val, NeverFalls, Repeats, AfterAnswer;
    if ev.Act? && s.running && s.reported.Some? {
      AnswerOwes(s, ev.applied, ev.save);
    }
  }

  /** How many starts of a run could not read the nonce file where that does harm. */
  function HarmfulLoads(events: seq<Event>): nat {
    if events == [] then 0
    else
      var k := |events| - 1;
      HarmfulLoads(events[..k]) + if Harmful(Run(events[..k]), events[k]) then 1 else 0
  }

  lemma {:induction false} RunOwes(events: seq<Event>)
    ensures Ordered(Run(events)) && Debt(Run(events)) <= HarmfulLoads(events)
    decreases |events|
  {
    hide Ordered, Debt, Next, Harmful;
    if events == [] {
      StartOwes();
    } else {
      RunOwes(events[..|events| - 1]);
      StepOwes(Run(events[..|events| - 1]), events[|events| - 1]);
    }
  }

  lemma StartOwes()
    ensures Ordered(START) && Debt(START) == 0
  {
  }

  /** In any run at all, the nonces of the restarts never fall and never pass what the panel requested, and a restart
      repeats the nonce of the one before at most once for each start that could not read the nonce file after a
      restart and with no newer request waiting. */
  lemma RepeatsBounded(events: seq<Event>)
    ensures var r := Run(events).restarts;
      && (forall i, j :: 0 <= i < j < |r| ==> r[i] <= r[j])
      && (forall i :: 0 <= i < |r| ==> 0 < r[i] <= Run(events).requested)
      && Repeats(r) <= HarmfulLoads(events)
  {
    hide RunFrom, AllDigits, Safe, Repeats, HarmfulLoads;
    RunOwes(events);
  }

  // ---- The agent's side as an object ----

  class NonceKeeper {
    var file: string
    var agentRestartNonce: nat
    var shutdownRequested: bool

    /** A start of the agent with this file on disk. */
    constructor (file: string, readable: bool)
      ensures this.file == file && agentRestartNonce == Load(file, readable) && !shutdownRequested
    {
      this.file, agentRestartNonce, shutdownRequested := file, Load(file, readable), false;
    }

    /** _save_agent_restart_nonce; false where it raises. */
    method SaveAgentRestartNonce(nonce: nat, save: Save) returns (ok: bool)
      modifies `file
      ensures ok == save.Saved?
      ensures file == match save
                      case Saved => StrNat(nonce)
                      case CannotOpen => old(file)
                      case Torn(k) => Front(StrNat(nonce), k)
    {
      if save.CannotOpen? { return false; }
      file := "";
      var text := StrNat(nonce);
      var stop := if save.Torn? && save.k < |text| then save.k else |text|;
      var i := 0;
      while i < stop
        invariant i <= stop && file == text[..i]
      {
        file := file + [text[i]];
        i := i + 1;
      }
      assert text[..|text|] == text;
      return save.Saved?;
    }

    /** The end of sync_tunnels, as the protocol steps by it. */
    method FinishSync(ghost s: State, requestedNonce: nat, applied: bool, save: Save)
      requires s.file == file && s.mem == agentRestartNonce && s.shutdown == shutdownRequested
      modifies this
      ensures var t := AfterAnswer(s, requestedNonce, applied, save);
        t.file == file && t.mem == agentRestartNonce && t.shutdown == shutdownRequested
    {
      if !applied { return; }
      if requestedNonce > agentRestartNonce {
        var saved := SaveAgentRestartNonce(requestedNonce, save);
        if !saved { return; }
        agentRestartNonce := requestedNonce;
        shutdownRequested := true;
      }
    }
  }
}
