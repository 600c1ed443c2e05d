/** app/static/js/agent.py, lines 261 to 306: the iptables rules of a paqet server port.

    Every iptables call may work, exit non-zero without effect, or raise; a list of outcomes says which. Calls
    past the end of the list work. */
module Firewall {
  import Decimal

  type Rule = seq<string>

  datatype Chain = RawPrerouting | RawOutput | MangleOutput

  datatype Outcome = Works | Fails | Raises

  datatype Answer = Yes | No | Exception

  datatype Fw = Fw(prerouting: seq<Rule>, output: seq<Rule>, mangle: seq<Rule>, outcomes: seq<Outcome>) {
    function Rules(c: Chain): seq<Rule> {
      match c
      case RawPrerouting => prerouting
      case RawOutput => output
      case MangleOutput => mangle
    }

    function With(c: Chain, rules: seq<Rule>): (f: Fw)
      ensures f.Rules(c) == rules && f.outcomes == outcomes
      ensures forall d :: d != c ==> f.Rules(d) == Rules(d)
    {
      match c
      case RawPrerouting => this.(prerouting := rules)
      case RawOutput => this.(output := rules)
      case MangleOutput => this.(mangle := rules)
    }

    function Outcome(): Outcome {
      if outcomes == [] then Works else outcomes[0]
    }

    /** The state in which the next call finds its outcome. */
    function Tick(): (f: Fw)
      ensures forall c :: f.Rules(c) == Rules(c)
    {
      if outcomes == [] then this else this.(outcomes := outcomes[1..])
    }

    function Count(at: (Chain, Rule)): nat {
      multiset(Rules(at.0))[at.1]
    }

    /** Every call to come works. */
    ghost predicate Honest() {
      forall k :: 0 <= k < |outcomes| ==> outcomes[k] == Works
    }
  }

  /** The list without the first rule that is r. */
  function Without(rules: seq<Rule>, r: Rule): (w: seq<Rule>)
    ensures multiset(w) == multiset(rules) - multiset{r}
    ensures r !in rules ==> w == rules
  {
    if rules == [] then []
    else
      assert rules == [rules[0]] + rules[1..];
      if rules[0] == r then rules[1..] else [rules[0]] + Without(rules[1..], r)
  }

  /** iptables -C, -A and -D. -D takes out the first rule that matches. */
  function Check(f: Fw, at: (Chain, Rule)): (Fw, Answer) {
    match f.Outcome()
    case Works => (f.Tick(), if at.1 in f.Rules(at.0) then Yes else No)
    case Fails => (f.Tick(), No)
    case Raises => (f.Tick(), Exception)
  }

  function Append(f: Fw, at: (Chain, Rule)): (Fw, Answer) {
    match f.Outcome()
    case Works => (f.Tick().With(at.0, f.Rules(at.0) + [at.1]), Yes)
    case Fails => (f.Tick(), No)
    case Raises => (f.Tick(), Exception)
  }

  function Delete(f: Fw, at: (Chain, Rule)): (Fw, Answer) {
    match f.Outcome()
    case Works =>
      var rules := f.Rules(at.0);
      if at.1 in rules then (f.Tick().With(at.0, Without(rules, at.1)), Yes) else (f.Tick(), No)
    case Fails => (f.Tick(), No)
    case Raises => (f.Tick(), Exception)
  }

  function Call(f: Fw, action: string, at: (Chain, Rule)): (Fw, Answer) {
    if action == "-C" then Check(f, at) else if action == "-A" then Append(f, at) else Delete(f, at)
  }

  /** The rules that a paqet tunnel needs: three for a server port, none for a client. */
  function PaqetRules(role: string, port: int): seq<(Chain, Rule)> {
    if role == "server" then
      [(RawPrerouting, ["-p", "tcp", "--dport", Decimal.Str(port), "-j", "NOTRACK"]),
       (RawOutput, ["-p", "tcp", "--sport", Decimal.Str(port), "-j", "NOTRACK"]),
       (MangleOutput, ["-p", "tcp", "--sport", Decimal.Str(port), "--tcp-flags", "RST", "RST", "-j", "DROP"])]
    else []
  }

  /** One turn of the loop of configure_paqet_iptables: false where it raises. */
  function EnsureRule(f: Fw, at: (Chain, Rule)): (Fw, bool) {
    var (f1, a) := Check(f, at);
    if a == No then
      var (f2, b) := Append(f1, at); (f2, b == Yes)
    else (f1, a == Yes)
  }

  function EnsureAll(f: Fw, rules: seq<(Chain, Rule)>): (Fw, bool)
    decreases |rules|
  {
    if rules == [] then (f, true)
    else
      var (f1, ok) := EnsureRule(f, rules[0]);
      if ok then EnsureAll(f1, rules[1..]) else (f1, false)
  }

  /** while self._iptables_rule("-D", …): pass; false where it raises. */
  function DeleteLoop(f: Fw, at: (Chain, Rule)): (Fw, bool)
    decreases f.Count(at)
  {
    DeleteEffect(f, at, at);
    var (f1, a) := Delete(f, at);
    if a == Yes then DeleteLoop(f1, at) else (f1, a == No)
  }

  function DeleteAll(f: Fw, rules: seq<(Chain, Rule)>): (Fw, bool)
    decreases |rules|
  {
    if rules == [] then (f, true)
    else
      var (f1, ok) := DeleteLoop(f, rules[0]);
      if ok then DeleteAll(f1, rules[1..]) else (f1, false)
  }

  function Cleanup(f: Fw, role: string, port: int): Fw {
    DeleteAll(f, PaqetRules(role, port)).0
  }

  function Configure(f: Fw, role: string, port: int): (Fw, bool) {
    var (f1, ok) := EnsureAll(f, PaqetRules(role, port));
    if ok then (f1, true) else (Cleanup(f1, role, port), false)
  }

  // ---- What the calls do to the count of any rule o ----

  lemma DeleteEffect(f: Fw, at: (Chain, Rule), o: (Chain, Rule))
    ensures var (g, a) := Delete(f, at);
      && g.Count(o) == (if a == Yes && o == at then f.Count(o) - 1 else f.Count(o))
      && (a == Yes ==> f.Count(at) > 0)
      && (f.Honest() ==> g.Honest() && a == (if f.Count(at) > 0 then Yes else No))
  {
    hide Without;
  }

  lemma EnsureEffect(f: Fw, at: (Chain, Rule), o: (Chain, Rule))
    ensures var (g, ok) := EnsureRule(f, at);
      && f.Count(o) <= g.Count(o)
      && (o != at ==> g.Count(o) == f.Count(o))
      && (ok && o == at ==> g.Count(o) > 0)
      && (f.Honest() ==> g.Honest() && ok)
      && (f.Honest() && o == at ==> g.Count(o) == (if f.Count(o) == 0 then 1 else f.Count(o)))
  {
  }

  lemma {:induction false} DeleteLoopEffect(f: Fw, at: (Chain, Rule), o: (Chain, Rule))
    ensures var (g, ok) := DeleteLoop(f, at);
      && g.Count(o) <= f.Count(o)
      && (o != at ==> g.Count(o) == f.Count(o))
      && (f.Honest() ==> g.Honest() && ok && (o == at ==> g.Count(o) == 0))
    decreases f.Count(at)
  {
    hide Delete;
    DeleteEffect(f, at, at);
    DeleteEffect(f, at, o);
    var (f1, a) := Delete(f, at);
    if a == Yes {
      DeleteLoopEffect(f1, at, o);
    }
  }

  lemma {:induction false} DeleteAllEffect(f: Fw, rules: seq<(Chain, Rule)>, o: (Chain, Rule))
    ensures var (g, ok) := DeleteAll(f, rules);
      && g.Count(o) <= f.Count(o)
      && (o !in rules ==> g.Count(o) == f.Count(o))
      && (f.Honest() ==> g.Honest() && ok && (o in rules ==> g.Count(o) == 0))
    decreases |rules|
  {
    hide DeleteLoop;
    if rules != [] {
      DeleteLoopEffect(f, rules[0], o);
      var (f1, ok) := DeleteLoop(f, rules[0]);
      if ok {
        DeleteAllEffect(f1, rules[1..], o);
      }
    }
  }

  lemma {:induction false} EnsureAllEffect(f: Fw, rules: seq<(Chain, Rule)>, o: (Chain, Rule))
    ensures var (g, ok) := EnsureAll(f, rules);
      && f.Count(o) <= g.Count(o)
      && (o !in rules ==> g.Count(o) == f.Count(o))
      && (ok && o in rules ==> g.Count(o) > 0)
      && (f.Honest() ==> g.Honest() && ok)
      && (f.Honest() && o in rules ==> g.Count(o) == (if f.Count(o) == 0 then 1 else f.Count(o)))
    decreases |rules|
  {
    hide EnsureRule;
    if rules != [] {
      EnsureEffect(f, rules[0], o);
      var (f1, ok) := EnsureRule(f, rules[0]);
      if ok {
        EnsureAllEffect(f1, rules[1..], o);
      }
    }
  }

  // ---- configure_paqet_iptables and cleanup_paqet_iptables ----

  /** Different server ports share no rule. */
  lemma PortsApart(r1: string, p: int, r2: string, q: int, at: (Chain, Rule))
    requires at in PaqetRules(r1, p) && at in PaqetRules(r2, q)
    ensures p == q
  {
    assert at.1[3] == Decimal.Str(p) && at.1[3] == Decimal.Str(q);
    Decimal.StrInjective(p, q);
  }

  /** configure returns true only with every rule of the port in place, adds none that is there, and leaves all
      other rules alone. */
  lemma ConfigureEffect(f: Fw, role: string, port: int, o: (Chain, Rule))
    ensures var (g, ok) := Configure(f, role, port);
      && (o !in PaqetRules(role, port) ==> g.Count(o) == f.Count(o))
      && (ok && o in PaqetRules(role, port) ==> g.Count(o) > 0)
      && (f.Honest() ==> g.Honest() && ok)
      && (f.Honest() && o in PaqetRules(role, port) ==> g.Count(o) == (if f.Count(o) == 0 then 1 else f.Count(o)))
  {
    hide EnsureAll, DeleteAll, PaqetRules;
    var rules := PaqetRules(role, port);
    EnsureAllEffect(f, rules, o);
    DeleteAllEffect(EnsureAll(f, rules).0, rules, o);
  }

  lemma CleanupEffect(f: Fw, role: string, port: int, o: (Chain, Rule))
    ensures var g := Cleanup(f, role, port);
      && g.Count(o) <= f.Count(o)
      && (o !in PaqetRules(role, port) ==> g.Count(o) == f.Count(o))
      && (f.Honest() ==> g.Honest() && (o in PaqetRules(role, port) ==> g.Count(o) == 0))
  {
    hide DeleteAll, PaqetRules;
    DeleteAllEffect(f, PaqetRules(role, port), o);
  }

  // ---- Rules of others ----

  /** A rule that none of the ports needs. */
  ghost predicate Foreign(ports: set<int>, at: (Chain, Rule)) {
    forall port :: port in ports ==> at !in PaqetRules("server", port)
  }

  /** The foreign rules of a chain, in their order. */
  ghost function Others(ports: set<int>, c: Chain, rules: seq<Rule>): seq<Rule> {
    if rules == [] then []
    else (if Foreign(ports, (c, rules[0])) then [rules[0]] else []) + Others(ports, c, rules[1..])
  }

  lemma {:induction false} OthersAppend(ports: set<int>, c: Chain, rules: seq<Rule>, r: Rule)
    requires !Foreign(ports, (c, r))
    ensures Others(ports, c, rules + [r]) == Others(ports, c, rules)
  {
    hide Foreign;
    if rules == [] {
    } else {
      assert (rules + [r])[1..] == rules[1..] + [r];
      OthersAppend(ports, c, rules[1..], r);
    }
  }

  lemma {:induction false} OthersWithout(ports: set<int>, c: Chain, rules: seq<Rule>, r: Rule)
    requires !Foreign(ports, (c, r))
    ensures Others(ports, c, Without(rules, r)) == Others(ports, c, rules)
  {
    hide Foreign;
    if rules != [] && rules[0] != r {
      OthersWithout(ports, c, rules[1..], r);
      assert Without(rules, r)[1..] == Without(rules[1..], r);
    }
  }

  ghost predicate KeepsOthers(ports: set<int>, f: Fw, g: Fw) {
    forall c :: Others(ports, c, g.Rules(c)) == Others(ports, c, f.Rules(c))
  }

  lemma EnsureKeepsOthers(ports: set<int>, f: Fw, at: (Chain, Rule))
    requires !Foreign(ports, at)
    ensures KeepsOthers(ports, f, EnsureRule(f, at).0)
  {
    hide Foreign, Others;
    OthersAppend(ports, at.0, f.Rules(at.0), at.1);
  }

  lemma DeleteKeepsOthers(ports: set<int>, f: Fw, at: (Chain, Rule))
    requires !Foreign(ports, at)
    ensures KeepsOthers(ports, f, Delete(f, at).0)
  {
    hide Foreign, Others, Without;
    OthersWithout(ports, at.0, f.Rules(at.0), at.1);
  }

  lemma {:induction false} DeleteLoopKeepsOthers(ports: set<int>, f: Fw, at: (Chain, Rule))
    requires !Foreign(ports, at)
    ensures KeepsOthers(ports, f, DeleteLoop(f, at).0)
    decreases f.Count(at)
  {
    hide Foreign, Others, Delete;
    DeleteEffect(f, at, at);
    DeleteKeepsOthers(ports, f, at);
    var (f1, a) := Delete(f, at);
    if a == Yes {
      DeleteLoopKeepsOthers(ports, f1, at);
    }
  }

  ghost predicate Managed(ports: set<int>, rules: seq<(Chain, Rule)>) {
    forall k :: 0 <= k < |rules| ==> !Foreign(ports, rules[k])
  }

  lemma {:induction false} DeleteAllKeepsOthers(ports: set<int>, f: Fw, rules: seq<(Chain, Rule)>)
    requires Managed(ports, rules)
    ensures KeepsOthers(ports, f, DeleteAll(f, rules).0)
    decreases |rules|
  {
    hide Foreign, Others, DeleteLoop;
    if rules != [] {
      DeleteLoopKeepsOthers(ports, f, rules[0]);
      var (f1, ok) := DeleteLoop(f, rules[0]);
      if ok {
        DeleteAllKeepsOthers(ports, f1, rules[1..]);
      }
    }
  }

  lemma {:induction false} EnsureAllKeepsOthers(ports: set<int>, f: Fw, rules: seq<(Chain, Rule)>)
    requires Managed(ports, rules)
    ensures KeepsOthers(ports, f, EnsureAll(f, rules).0)
    decreases |rules|
  {
    hide Foreign, Others, EnsureRule;
    if rules != [] {
      EnsureKeepsOthers(ports, f, rules[0]);
      var (f1, ok) := EnsureRule(f, rules[0]);
      if ok {
        EnsureAllKeepsOthers(ports, f1, rules[1..]);
      }
    }
  }

  lemma PaqetRulesManaged(ports: set<int>, role: string, port: int)
    requires role == "server" ==> port in ports
    ensures Managed(ports, PaqetRules(role, port))
  {
    var rules := PaqetRules(role, port);
    forall k | 0 <= k < |rules| ensures !Foreign(ports, rules[k]) {
      assert rules[k] in PaqetRules(role, port);
    }
  }

  /** Whatever the calls do, configure and cleanup for one of the ports leave every rule that none of the ports
      needs in place and in order; with {port} for ports, every rule but the three of this port. */
  lemma OthersKept(ports: set<int>, f: Fw, role: string, port: int)
    requires role == "server" ==> port in ports
    ensures KeepsOthers(ports, f, Cleanup(f, role, port)) && KeepsOthers(ports, f, Configure(f, role, port).0)
  {
    hide Others, EnsureAll, DeleteAll, PaqetRules, Managed;
    var rules := PaqetRules(role, port);
    PaqetRulesManaged(ports, role, port);
    EnsureAllKeepsOthers(ports, f, rules);
    DeleteAllKeepsOthers(ports, f, rules);
    DeleteAllKeepsOthers(ports, EnsureAll(f, rules).0, rules);
  }

  // ---- The methods of HawalAgent ----

  class Iptables {
    var prerouting: seq<Rule>
    var output: seq<Rule>
    var mangle: seq<Rule>
    var outcomes: seq<Outcome>

    constructor (f: Fw)
      ensures Value() == f
    {
      prerouting, output, mangle, outcomes := f.prerouting, f.output, f.mangle, f.outcomes;
    }

    function Value(): Fw
      reads this
    {
      Fw(prerouting, output, mangle, outcomes)
    }

    /** _iptables_rule */
    method IptablesRule(action: string, at: (Chain, Rule)) returns (a: Answer)
      requires action in {"-C", "-A", "-D"}
      modifies this
      ensures (Value(), a) == Call(old(Value()), action, at)
    {
      var f: Fw;
      if action == "-C" { f, a := Check(Value(), at).0, Check(Value(), at).1; }
      else if action == "-A" { f, a := Append(Value(), at).0, Append(Value(), at).1; }
      else { f, a := Delete(Value(), at).0, Delete(Value(), at).1; }
      prerouting, output, mangle, outcomes := f.prerouting, f.output, f.mangle, f.outcomes;
    }

    /** configure_paqet_iptables */
    method ConfigurePaqetIptables(role: string, port: int) returns (ok: bool)
      modifies this
      ensures (Value(), ok) == Configure(old(Value()), role, port)
    {
      hide PaqetRules, Check, Append, DeleteAll, Without;
      var rules := PaqetRules(role, port);
      var k := 0;
      while k < |rules|
        invariant k <= |rules|
        invariant EnsureAll(Value(), rules[k..]) == EnsureAll(old(Value()), rules)
      {
        var at := rules[k];
        var a := IptablesRule("-C", at);
        if a == No {
          a := IptablesRule("-A", at);
        }
        if a != Yes {
          CleanupPaqetIptables(role, port);
          return false;
        }
        assert rules[k..][1..] == rules[k + 1..];
        k := k + 1;
      }
      return true;
    }

    /** cleanup_paqet_iptables */
    method CleanupPaqetIptables(role: string, port: int)
      modifies this
      ensures Value() == Cleanup(old(Value()), role, port)
    {
      hide PaqetRules, Delete, Without;
      var rules := PaqetRules(role, port);
      var k := 0;
      while k < |rules|
        invariant k <= |rules|
        invariant DeleteAll(Value(), rules[k..]) == DeleteAll(old(Value()), rules)
      {
        var at := rules[k];
        ghost var before := Value();
        var a := Yes;
        while a == Yes
          invariant a == Yes ==> DeleteLoop(Value(), at) == DeleteLoop(before, at)
          invariant a != Yes ==> (Value(), a == No) == DeleteLoop(before, at)
          decreases Value().Count(at) + (if a == Yes then 1 else 0)
        {
          DeleteEffect(Value(), at, at);
          a := IptablesRule("-D", at);
        }
        assert rules[k..][0] == at && rules[k..][1..] == rules[k + 1..];
        if a == Exception { return; }
        k := k + 1;
      }
    }
  }
}
