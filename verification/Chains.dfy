/** app/static/js/agent.py, lines 268 to 306, in terms of the three iptables chains: what configure and cleanup make of
    them, rule by rule. */
module Chains {
  import Decimal
  import opened Firewall

  /** The rule is there: at the end if it was not there before. */
  function Ensured(rules: seq<Rule>, r: Rule): seq<Rule> {
    if r in rules then rules else rules + [r]
  }

  /** Every copy of the rule is gone, and the others are in their order. */
  function Purged(rules: seq<Rule>, r: Rule): (p: seq<Rule>)
    ensures r !in p
  {
    if rules == [] then []
    else if rules[0] == r then Purged(rules[1..], r)
    else [rules[0]] + Purged(rules[1..], r)
  }

  lemma {:induction false} PurgedWithout(rules: seq<Rule>, r: Rule)
    ensures Purged(Without(rules, r), r) == Purged(rules, r)
    ensures r !in rules ==> Purged(rules, r) == rules
  {
    if rules != [] {
      PurgedWithout(rules[1..], r);
      if rules[0] != r {
        assert Without(rules, r)[1..] == Without(rules[1..], r);
      }
    }
  }

  lemma {:induction false} PurgedAppend(rules: seq<Rule>, r: Rule)
    ensures Purged(rules + [r], r) == Purged(rules, r)
  {
    if rules != [] {
      assert (rules + [r])[1..] == rules[1..] + [r];
      PurgedAppend(rules[1..], r);
    }
  }

  /** Not more than one of the calls to come does anything but work. */
  ghost predicate OneFailsAtMost(outcomes: seq<Outcome>) {
    forall i, j :: 0 <= i < j < |outcomes| ==> outcomes[i] == Works || outcomes[j] == Works
  }

  lemma EnsureInChain(f: Fw, at: (Chain, Rule))
    ensures var (g, ok) := EnsureRule(f, at); var before, after := f.Rules(at.0), g.Rules(at.0);
      && (forall c :: c != at.0 ==> g.Rules(c) == f.Rules(c))
      && (after == before || after == before + [at.1])
      && (ok ==> at.1 in after)
      && (f.Honest() ==> ok && g.Honest() && after == Ensured(before, at.1))
      && (OneFailsAtMost(f.outcomes) ==> if ok then OneFailsAtMost(g.outcomes) else g.Honest())
  {
  }

  lemma {:induction false} DeleteInChain(f: Fw, at: (Chain, Rule))
    requires f.Honest()
    ensures var g := DeleteLoop(f, at).0;
      && DeleteLoop(f, at).1 && g.Honest() && g.Rules(at.0) == Purged(f.Rules(at.0), at.1)
      && (forall c :: c != at.0 ==> g.Rules(c) == f.Rules(c))
    decreases f.Count(at)
  {
    hide Without, Purged;
    DeleteEffect(f, at, at);
    PurgedWithout(f.Rules(at.0), at.1);
    var (f1, a) := Delete(f, at);
    if a == Yes {
      DeleteInChain(f1, at);
    }
  }

  lemma EnsureThree(f: Fw, a: (Chain, Rule), b: (Chain, Rule), c: (Chain, Rule))
    ensures var (f1, ok1) := EnsureRule(f, a); var (f2, ok2) := EnsureRule(f1, b);
      EnsureAll(f, [a, b, c]) == if !ok1 then (f1, false) else if !ok2 then (f2, false) else EnsureRule(f2, c)
  {
    hide EnsureRule;
    var (f1, ok1) := EnsureRule(f, a);
    var (f2, ok2) := EnsureRule(f1, b);
    assert [a, b, c][1..] == [b, c] && [b, c][1..] == [c] && [c][1..] == [];
    assert EnsureAll(f2, [c]) == EnsureRule(f2, c);
    assert EnsureAll(f1, [b, c]) == if ok2 then EnsureAll(f2, [c]) else (f2, false);
  }

  lemma DeleteThree(f: Fw, a: (Chain, Rule), b: (Chain, Rule), c: (Chain, Rule))
    ensures var (f1, ok1) := DeleteLoop(f, a); var (f2, ok2) := DeleteLoop(f1, b);
      DeleteAll(f, [a, b, c]) == if !ok1 then (f1, false) else if !ok2 then (f2, false) else DeleteLoop(f2, c)
  {
    hide DeleteLoop;
    var (f1, ok1) := DeleteLoop(f, a);
    var (f2, ok2) := DeleteLoop(f1, b);
    assert [a, b, c][1..] == [b, c] && [b, c][1..] == [c] && [c][1..] == [];
    assert DeleteAll(f2, [c]) == DeleteLoop(f2, c);
    assert DeleteAll(f1, [b, c]) == if ok2 then DeleteAll(f2, [c]) else (f2, false);
  }

  function IntoPort(port: int): Rule {
    ["-p", "tcp", "--dport", Decimal.Str(port), "-j", "NOTRACK"]
  }

  function OutOfPort(port: int): Rule {
    ["-p", "tcp", "--sport", Decimal.Str(port), "-j", "NOTRACK"]
  }

  function ResetsOfPort(port: int): Rule {
    ["-p", "tcp", "--sport", Decimal.Str(port), "--tcp-flags", "RST", "RST", "-j", "DROP"]
  }

  /** With calls that work, cleanup for a server port takes every copy of its three rules out of raw/PREROUTING,
      raw/OUTPUT and mangle/OUTPUT, and nothing else. */
  lemma CleanupInRules(f: Fw, port: int)
    requires f.Honest()
    ensures var g := Cleanup(f, "server", port);
      && g.prerouting == Purged(f.prerouting, IntoPort(port)) && g.output == Purged(f.output, OutOfPort(port))
      && g.mangle == Purged(f.mangle, ResetsOfPort(port))
  {
    hide Fw.Honest, DeleteLoop, DeleteAll, Purged;
    var a, b := (RawPrerouting, IntoPort(port)), (RawOutput, OutOfPort(port));
    var c := (MangleOutput, ResetsOfPort(port));
    assert PaqetRules("server", port) == [a, b, c];
    hide PaqetRules, IntoPort, OutOfPort, ResetsOfPort;
    DeleteThree(f, a, b, c);
    DeleteInChain(f, a);
    var f1 := DeleteLoop(f, a).0;
    DeleteInChain(f1, b);
    DeleteInChain(DeleteLoop(f1, b).0, c);
    InChains(f);
    InChains(Cleanup(f, "server", port));
  }

  lemma InChains(f: Fw)
    ensures f.prerouting == f.Rules(RawPrerouting) && f.output == f.Rules(RawOutput)
    ensures f.mangle == f.Rules(MangleOutput)
  {
  }

  /** configure for a server port says yes only with its rule in each of the three chains. With calls that work it says
      yes, and each rule was there or has been appended, with nothing else changed; and if it says no because of a
      single call, its cleanup has taken out every copy of the three, and nothing else. */
  lemma ConfigureInRules(f: Fw, port: int)
    ensures var (g, ok) := Configure(f, "server", port);
      && (ok ==>
            IntoPort(port) in g.prerouting && OutOfPort(port) in g.output && ResetsOfPort(port) in g.mangle)
      && (f.Honest() ==>
            && ok && g.prerouting == Ensured(f.prerouting, IntoPort(port))
            && g.output == Ensured(f.output, OutOfPort(port)) && g.mangle == Ensured(f.mangle, ResetsOfPort(port)))
      && (OneFailsAtMost(f.outcomes) && !ok ==>
            && g.prerouting == Purged(f.prerouting, IntoPort(port)) && g.output == Purged(f.output, OutOfPort(port))
            && g.mangle == Purged(f.mangle, ResetsOfPort(port)))
  {
    hide Fw.Honest, OneFailsAtMost, EnsureRule, EnsureAll, DeleteAll, Ensured, Purged;
    var a, b := (RawPrerouting, IntoPort(port)), (RawOutput, OutOfPort(port));
    var c := (MangleOutput, ResetsOfPort(port));
    assert PaqetRules("server", port) == [a, b, c];
    hide PaqetRules, IntoPort, OutOfPort, ResetsOfPort;
    var (f1, ok1) := EnsureRule(f, a);
    var (f2, ok2) := EnsureRule(f1, b);
    var f3 := EnsureAll(f, [a, b, c]).0;
    EnsureThree(f, a, b, c);
    EnsureInChain(f, a);
    EnsureInChain(f1, b);
    EnsureInChain(f2, c);
    InChains(f);
    InChains(f3);
    PurgedAppend(f.prerouting, a.1);
    PurgedAppend(f.output, b.1);
    PurgedAppend(f.mangle, c.1);
    if OneFailsAtMost(f.outcomes) && !Configure(f, "server", port).1 {
      CleanupInRules(f3, port);
    }
  }

  /** A call that raises ends a cleanup, and makes configure clean up; a delete that fails ends the loop of its own rule
      only. */
  lemma BadFirstCall(f: Fw, port: int)
    requires f.outcomes != []
    ensures var g := f.(outcomes := f.outcomes[1..]);
      && (f.outcomes[0] == Raises ==> Cleanup(f, "server", port) == g)
      && (f.outcomes[0] == Raises ==> Configure(f, "server", port) == (Cleanup(g, "server", port), false))
      && (f.outcomes[0] == Fails && g.Honest() ==>
            var h := Cleanup(f, "server", port);
            && h.prerouting == f.prerouting && h.output == Purged(f.output, OutOfPort(port))
            && h.mangle == Purged(f.mangle, ResetsOfPort(port)))
  {
    hide Purged, Fw.Honest;
    var g := f.(outcomes := f.outcomes[1..]);
    var a, b := (RawPrerouting, IntoPort(port)), (RawOutput, OutOfPort(port));
    var c := (MangleOutput, ResetsOfPort(port));
    assert PaqetRules("server", port) == [a, b, c];
    hide PaqetRules, IntoPort, OutOfPort, ResetsOfPort;
    DeleteThree(f, a, b, c);
    EnsureThree(f, a, b, c);
    if f.outcomes[0] == Raises {
      assert DeleteLoop(f, a) == (g, false) && EnsureRule(f, a) == (g, false);
    } else if f.outcomes[0] == Fails && g.Honest() {
      assert DeleteLoop(f, a) == (g, true);
      hide DeleteLoop, DeleteAll;
      DeleteInChain(g, b);
      DeleteInChain(DeleteLoop(g, b).0, c);
      InChains(f);
      InChains(g);
      InChains(Cleanup(f, "server", port));
    }
  }

  /** For any other role nothing is called. */
  lemma OtherRoles(f: Fw, role: string, port: int)
    requires role != "server"
    ensures Configure(f, role, port) == (f, true) && Cleanup(f, role, port) == f
  {
  }

  /** With calls that work, cleanup undoes configure on a firewall that had none of the three rules. */
  lemma CleanupUndoes(f: Fw, port: int)
    requires f.Honest()
    requires IntoPort(port) !in f.prerouting && OutOfPort(port) !in f.output && ResetsOfPort(port) !in f.mangle
    ensures var g := Cleanup(Configure(f, "server", port).0, "server", port);
      g.prerouting == f.prerouting && g.output == f.output && g.mangle == f.mangle
  {
    hide Configure, Cleanup, Fw.Honest, Purged, Fw.Count;
    ConfigureEffect(f, "server", port, (RawOutput, []));
    ConfigureInRules(f, port);
    CleanupInRules(Configure(f, "server", port).0, port);
    PurgedAppend(f.prerouting, IntoPort(port));
    PurgedAppend(f.output, OutOfPort(port));
    PurgedAppend(f.mangle, ResetsOfPort(port));
    PurgedWithout(f.prerouting, IntoPort(port));
    PurgedWithout(f.output, OutOfPort(port));
    PurgedWithout(f.mangle, ResetsOfPort(port));
  }
}
