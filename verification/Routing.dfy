/** core/server/server.go and core/client/client.go: from the port a user connects to, to the address dialled
    at the other end of the tunnel. */
module Routing {
  import opened Bytes
  import opened Frame
  import opened Mux
  import opened MuxInvariant
  import MuxFlow
  import MuxTheorems

  const EQUALS: byte := 61

  /** "127.0.0.1:" */
  const LOOPBACK: Bytes := [49, 50, 55, 46, 48, 46, 48, 46, 49, 58]

  /** strings.Split(s, "=") */
  function Split(s: Bytes): (parts: seq<Bytes>)
    ensures |parts| > 0
  {
    SplitFrom(s, 0)
  }

  function SplitFrom(s: Bytes, k: nat): (parts: seq<Bytes>)
    requires k <= |s| && EQUALS !in s[..k]
    ensures |parts| > 0
    decreases |s|, |s| - k
  {
    if k == |s| then [s]
    else if s[k] == EQUALS then [s[..k]] + SplitFrom(s[k + 1..], 0)
    else SplitFrom(s, k + 1)
  }

  function Join(parts: seq<Bytes>): Bytes
    requires |parts| > 0
  {
    if |parts| == 1 then parts[0] else parts[0] + [EQUALS] + Join(parts[1..])
  }

  /** The parts, joined by "=", are the string, and none of them has an "=" in it. */
  lemma {:induction false} SplitSound(s: Bytes, k: nat)
    requires k <= |s| && EQUALS !in s[..k]
    ensures Join(SplitFrom(s, k)) == s
    ensures forall i :: 0 <= i < |SplitFrom(s, k)| ==> EQUALS !in SplitFrom(s, k)[i]
    decreases |s|, |s| - k
  {
    if k == |s| {
      assert s[..k] == s;
    } else if s[k] == EQUALS {
      SplitSound(s[k + 1..], 0);
      var tail := SplitFrom(s[k + 1..], 0);
      assert SplitFrom(s, k)[1..] == tail;
      assert s == s[..k] + [EQUALS] + s[k + 1..];
    } else {
      SplitSound(s, k + 1);
    }
  }

  /** No other list of parts does that. */
  lemma {:induction false} SplitUnique(parts: seq<Bytes>)
    requires |parts| > 0 && forall i :: 0 <= i < |parts| ==> EQUALS !in parts[i]
    ensures Split(Join(parts)) == parts
    decreases |parts|
  {
    var s, left := Join(parts), parts[0];
    if |parts| == 1 {
      SkipsPart(s, |left|, 0);
      assert SplitFrom(s, |s|) == [s];
    } else {
      SplitUnique(parts[1..]);
      assert s[..|left|] == left && s[|left|] == EQUALS && s[|left| + 1..] == Join(parts[1..]);
      SkipsPart(s, |left|, 0);
      assert [left] + parts[1..] == parts;
    }
  }

  lemma {:induction false} SkipsPart(s: Bytes, n: nat, k: nat)
    requires k <= n <= |s| && EQUALS !in s[..n]
    ensures EQUALS !in s[..k] && SplitFrom(s, k) == SplitFrom(s, n)
    decreases n - k
  {
    assert forall i :: 0 <= i < k ==> s[..n][i] == s[i];
    if k < n {
      assert s[..n][k] == s[k];
      SkipsPart(s, n, k + 1);
    }
  }

  /** The loop of NewClient. */
  function AddRule(m: map<Bytes, Bytes>, rule: Bytes): map<Bytes, Bytes> {
    var parts := Split(rule);
    if |parts| == 2 then m[parts[0] := parts[1]]
    else if |parts| == 1 then m[parts[0] := LOOPBACK + parts[0]]
    else m
  }

  function PortMap(rules: seq<Bytes>): map<Bytes, Bytes> {
    if rules == [] then map[] else AddRule(PortMap(rules[..|rules| - 1]), rules[|rules| - 1])
  }

  method BuildPortMap(rules: seq<Bytes>) returns (m: map<Bytes, Bytes>)
    ensures m == PortMap(rules)
  {
    m := map[];
    for k := 0 to |rules|
      invariant m == PortMap(rules[..k])
    {
      var parts := Split(rules[k]);
      if |parts| == 2 {
        m := m[parts[0] := parts[1]];
      } else if |parts| == 1 {
        m := m[parts[0] := LOOPBACK + parts[0]];
      }
      assert rules[..k + 1][..k] == rules[..k];
    }
    assert rules[..|rules|] == rules;
  }

  /** handleIncomingStream */
  function DialTarget(m: map<Bytes, Bytes>, targetPort: Bytes): Bytes {
    if targetPort in m then m[targetPort] else LOOPBACK + targetPort
  }

  /** rule is `port` or `port=target`. */
  predicate Routes(rule: Bytes, port: Bytes) {
    |Split(rule)| <= 2 && Split(rule)[0] == port
  }

  function RuleTarget(rule: Bytes): Bytes {
    if |Split(rule)| == 2 then Split(rule)[1] else LOOPBACK + Split(rule)[0]
  }

  /** The last rule for a port with at most one "=" is number j. */
  ghost predicate Decides(rules: seq<Bytes>, port: Bytes, j: nat) {
    j < |rules| && Routes(rules[j], port) && forall k :: j < k < |rules| ==> !Routes(rules[k], port)
  }

  lemma AddRuleEffect(m: map<Bytes, Bytes>, rule: Bytes, port: Bytes)
    ensures Routes(rule, port) ==> port in AddRule(m, rule) && AddRule(m, rule)[port] == RuleTarget(rule)
    ensures !Routes(rule, port) ==>
      (port in AddRule(m, rule) <==> port in m) && (port in m ==> AddRule(m, rule)[port] == m[port])
  {
    hide Split;
  }

  /** The last rule for a port that has at most one "=" decides. */
  lemma {:induction false} LastRuleDecides(rules: seq<Bytes>, port: Bytes, j: nat)
    requires Decides(rules, port, j)
    ensures DialTarget(PortMap(rules), port) == RuleTarget(rules[j])
  {
    hide Routes, AddRule, RuleTarget;
    var n := |rules| - 1;
    AddRuleEffect(PortMap(rules[..n]), rules[n], port);
    if j < n {
      assert rules[..n][j] == rules[j];
      assert forall k :: 0 <= k < n ==> rules[..n][k] == rules[k];
      LastRuleDecides(rules[..n], port, j);
    }
  }

  /** Without one it is the same port on loopback. */
  lemma {:induction false} NoRuleMeansLoopback(rules: seq<Bytes>, port: Bytes)
    requires forall k :: 0 <= k < |rules| ==> !Routes(rules[k], port)
    ensures DialTarget(PortMap(rules), port) == [49, 50, 55, 46, 48, 46, 48, 46, 49, 58] + port
    ensures port !in PortMap(rules)
  {
    hide Routes, AddRule;
    if rules != [] {
      var n := |rules| - 1;
      AddRuleEffect(PortMap(rules[..n]), rules[n], port);
      NoRuleMeansLoopback(rules[..n], port);
    }
  }

  /** What a rule means, in its text: "port" is the port on "127.0.0.1:", and "port=target" is the target. */
  lemma RuleText(port: Bytes, target: Bytes)
    requires 61 !in port && 61 !in target
    ensures Routes(port, port) && RuleTarget(port) == [49, 50, 55, 46, 48, 46, 48, 46, 49, 58] + port
    ensures Routes(port + [61] + target, port) && RuleTarget(port + [61] + target) == target
  {
    SplitUnique([port]);
    SplitUnique([port, target]);
    assert [port, target][1..] == [target];
  }

  /** A rule with more than one "=" means nothing. */
  lemma TwoEqualsIgnored(m: map<Bytes, Bytes>, a: Bytes, b: Bytes, c: Bytes)
    requires 61 !in a && 61 !in b
    ensures AddRule(m, a + [61] + b + [61] + c) == m
  {
    var parts := [a, b] + Split(c);
    SplitSound(c, 0);
    assert parts[1..] == [b] + Split(c) && parts[1..][1..] == Split(c);
    assert Join(parts[1..]) == b + [61] + c;
    assert Join(parts) == a + [61] + (b + [61] + c);
    assert a + [61] + (b + [61] + c) == a + [61] + b + [61] + c;
    SplitUnique(parts);
  }

  /** The left parts of the rules whose port could be bound, in order. */
  function Listens(rules: seq<Bytes>, binds: nat -> bool): (ports: seq<Bytes>)
    ensures forall port :: port in ports <==> exists k :: 0 <= k < |rules| && binds(k) && Split(rules[k])[0] == port
  {
    if rules == [] then []
    else
      var k := |rules| - 1;
      Listens(rules[..k], binds) + if binds(k) then [Split(rules[k])[0]] else []
  }

  /** How many of the first k rules have a port that could be bound. */
  function Bound(binds: nat -> bool, k: nat): nat {
    if k == 0 then 0 else Bound(binds, k - 1) + if binds(k - 1) then 1 else 0
  }

  /** Listener by listener: the one of a rule comes after those of the rules before it. */
  lemma {:induction false} ListensInOrder(rules: seq<Bytes>, binds: nat -> bool, k: nat)
    requires k < |rules|
    ensures |Listens(rules, binds)| == Bound(binds, |rules|)
    ensures binds(k) ==>
      Bound(binds, k) < |Listens(rules, binds)| && Listens(rules, binds)[Bound(binds, k)] == Split(rules[k])[0]
    decreases |rules|
  {
    hide Split;
    var n := |rules| - 1;
    if k < n {
      ListensInOrder(rules[..n], binds, k);
    } else if n > 0 {
      ListensInOrder(rules[..n], binds, 0);
    }
  }

  /** startForwardedListeners */
  method StartForwardedListeners(rules: seq<Bytes>, binds: nat -> bool) returns (ports: seq<Bytes>)
    ensures ports == Listens(rules, binds)
  {
    ports := [];
    for k := 0 to |rules|
      invariant ports == Listens(rules[..k], binds)
    {
      assert rules[..k + 1][..k] == rules[..k];
      var listenPort := Split(rules[k])[0];
      if binds(k) {
        ports := ports + [listenPort];
      }
    }
    assert rules[..|rules|] == rules;
  }

  /** Through the tunnel: in every run, a stream that AcceptStream returns carries the port that its opener
      gave to OpenStream, so the address dialled is that of the last rule for this port, or the same port on
      loopback if there is none. */
  lemma RouteEndToEnd(states: seq<System>, acts: seq<Action>, k: nat, side: Side, a: nat, rules: seq<Bytes>)
    requires Run(states, acts) && k < |states| && a < |states[k].At(side).accepted|
    ensures var e, peer := states[k].At(side), states[k].At(Peer(side));
      && e.accepted[a] < |e.core.objs|
      && var s := e.core.objs[e.accepted[a]];
      && s.id in peer.owner && peer.owner[s.id] < |peer.core.objs|
      && var opener := peer.core.objs[peer.owner[s.id]];
      && opener.id == s.id && s.target == opener.target
      && (forall j: nat :: Decides(rules, opener.target, j) ==>
            DialTarget(PortMap(rules), s.target) == RuleTarget(rules[j]))
      && ((forall j :: 0 <= j < |rules| ==> !Routes(rules[j], opener.target)) ==>
            DialTarget(PortMap(rules), s.target) == LOOPBACK + opener.target)
  {
    hide Run, PortMap, Routes, DialTarget, RuleTarget;
    TargetCarried(states, acts, k, side, a);
    var port := states[k].At(side).core.objs[states[k].At(side).accepted[a]].target;
    forall j: nat | Decides(rules, port, j) ensures DialTarget(PortMap(rules), port) == RuleTarget(rules[j]) {
      LastRuleDecides(rules, port, j);
    }
    if forall j :: 0 <= j < |rules| ==> !Routes(rules[j], port) {
      NoRuleMeansLoopback(rules, port);
    }
  }

  lemma TargetCarried(states: seq<System>, acts: seq<Action>, k: nat, side: Side, a: nat)
    requires Run(states, acts) && k < |states| && a < |states[k].At(side).accepted|
    ensures var e, peer := states[k].At(side), states[k].At(Peer(side));
      && e.accepted[a] < |e.core.objs|
      && var s := e.core.objs[e.accepted[a]];
      && s.id in peer.owner && peer.owner[s.id] < |peer.core.objs|
      && peer.core.objs[peer.owner[s.id]].id == s.id && peer.core.objs[peer.owner[s.id]].target == s.target
  {
    hide Run, Announcing, Written, Writers, ClosesOnce, Flowing, Arriving, Created, Queued, Numbered, Fated, Lifecycle;
    MuxFlow.RunInvariant(states, acts, k);
    MuxTheorems.AcceptOrder(states, acts, k, side);
    var e, peer := states[k].At(side), states[k].At(Peer(side));
    AnnouncedBy(peer, e.hist[e.accepted[a]].origin.at);
  }

  lemma AnnouncedBy(peer: Endpoint, at: nat)
    requires Local(peer) && at < |peer.log| && peer.log[at].kind == STREAM_OPEN
    ensures var id := peer.log[at].id;
      && id in peer.owner && peer.owner[id] < |peer.core.objs|
      && peer.core.objs[peer.owner[id]].id == id && peer.core.objs[peer.owner[id]].target == peer.log[at].payload
  {
    hide Announcing, Written, Writers, ClosesOnce, Queued, Numbered, Fated, Lifecycle;
  }
}
