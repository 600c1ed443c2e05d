/** What app/static/js/agent.py, line 419, makes of a paqet template: the meaning of str.replace, and of the three
    replacements one after the other. */
module Templates {
  import opened Agent

  /** The pattern is in s at no place below n. */
  predicate NotBefore(s: string, pattern: string, n: nat)
    requires n <= |s|
  {
    forall k :: 0 <= k < n ==> !(pattern <= s[k..])
  }

  /** replace skips what comes before the first place where the pattern is. */
  lemma {:induction false} ReplaceSkips(s: string, pattern: string, value: string, n: nat)
    requires pattern != "" && n <= |s| && NotBefore(s, pattern, n)
    ensures Replace(s, pattern, value) == s[..n] + Replace(s[n..], pattern, value)
    decreases n
  {
    hide Replace;
    if n == 0 {
      assert s[0..] == s && s[..0] == "";
    } else {
      assert s[0..] == s && !(pattern <= s[0..]);
      ReplaceNext(s, pattern, value);
      forall k | 0 <= k < n - 1 ensures !(pattern <= s[1..][k..]) {
        assert s[1..][k..] == s[k + 1..];
      }
      ReplaceSkips(s[1..], pattern, value, n - 1);
      assert s[1..][n - 1..] == s[n..] && s[..n] == [s[0]] + s[1..][..n - 1];
    }
  }

  lemma ReplaceNext(s: string, pattern: string, value: string)
    requires pattern != "" && s != "" && !(pattern <= s)
    ensures Replace(s, pattern, value) == [s[0]] + Replace(s[1..], pattern, value)
  {
  }

  /** str.replace: the leftmost place is replaced, and the same is done with what follows it; without any, nothing
      changes. */
  lemma ReplaceLeftmost(s: string, pattern: string, value: string, n: nat)
    requires pattern != "" && n <= |s| && NotBefore(s, pattern, n)
    ensures pattern <= s[n..] ==>
      Replace(s, pattern, value) == s[..n] + value + Replace(s[n + |pattern|..], pattern, value)
    ensures n == |s| ==> Replace(s, pattern, value) == s
  {
    hide Replace, NotBefore;
    ReplaceSkips(s, pattern, value, n);
    if pattern <= s[n..] {
      ReplaceHere(s[n..], pattern, value);
      assert s[n..][|pattern|..] == s[n + |pattern|..];
      var rest := Replace(s[n + |pattern|..], pattern, value);
      assert s[..n] + (value + rest) == s[..n] + value + rest;
    }
    if n == |s| {
      assert s[n..] == "" && s[..n] == s;
      ReplaceNothing(pattern, value);
      assert s + "" == s;
    }
  }

  lemma ReplaceHere(s: string, pattern: string, value: string)
    requires pattern != "" && pattern <= s
    ensures Replace(s, pattern, value) == value + Replace(s[|pattern|..], pattern, value)
  {
  }

  lemma ReplaceNothing(pattern: string, value: string)
    requires pattern != ""
    ensures Replace("", pattern, value) == ""
  {
  }

  // ---- The paqet template ----

  /** A piece of a template. */
  datatype Piece = Literal(text: string) | Interface | LocalIp | RouterMac

  function Written(p: Piece): string {
    match p
    case Literal(text) => text
    case Interface => "{{INTERFACE}}"
    case LocalIp => "{{LOCAL_IP}}"
    case RouterMac => "{{ROUTER_MAC}}"
  }

  function Text(ps: seq<Piece>): string {
    if ps == [] then "" else Written(ps[0]) + Text(ps[1..])
  }

  /** What a piece stands for. */
  function Meant(p: Piece, net: NetInfo): string {
    match p
    case Literal(text) => text
    case Interface => net.iface
    case LocalIp => net.localIp
    case RouterMac => net.gatewayMac
  }

  function Filled(ps: seq<Piece>, net: NetInfo): string {
    if ps == [] then "" else Meant(ps[0], net) + Filled(ps[1..], net)
  }

  /** No two braces in a row begin in this text, whatever follows it. */
  ghost predicate Inert(text: string) {
    forall k :: 0 <= k < |text| && text[k] == '{' ==> k + 1 < |text| && text[k + 1] != '{'
  }

  ghost predicate Plain(ps: seq<Piece>) {
    forall k :: 0 <= k < |ps| && ps[k].Literal? ==> Inert(ps[k].text)
  }

  /** The pieces with a text in place of each q. */
  function Put(ps: seq<Piece>, q: Piece, value: string): (r: seq<Piece>)
    ensures |r| == |ps| && forall k :: 0 <= k < |ps| ==> r[k] == if ps[k] == q then Literal(value) else ps[k]
  {
    seq(|ps|, k requires 0 <= k < |ps| => if ps[k] == q then Literal(value) else ps[k])
  }

  /** A placeholder is found nowhere in another piece. */
  lemma OtherPiece(p: Piece, q: Piece, rest: string)
    requires p != q && !q.Literal? && (p.Literal? ==> Inert(p.text))
    ensures NotBefore(Written(p) + rest, Written(q), |Written(p)|)
  {
    var s, w, pattern := Written(p) + rest, Written(p), Written(q);
    assert pattern[0] == '{' && pattern[1] == '{';
    forall k | 0 <= k < |w| ensures !(pattern <= s[k..]) {
      assert s[k] == w[k] && (k + 1 < |w| ==> s[k + 1] == w[k + 1]);
      assert k == 0 && !p.Literal? ==> s[1] == w[1] && s[2] == w[2];
      if k + 2 < |s| {
        assert s[k..][0] == s[k] && s[k..][1] == s[k + 1] && s[k..][2] == s[k + 2];
      }
    }
  }

  /** Replacing a placeholder in a template replaces those pieces. */
  lemma {:induction false} ReplacePuts(ps: seq<Piece>, q: Piece, value: string)
    requires Plain(ps) && !q.Literal?
    ensures Replace(Text(ps), Written(q), value) == Text(Put(ps, q, value))
  {
    assert Written(q) != "";
    hide Replace, Written, NotBefore, Put;
    if ps == [] {
      ReplaceNothing(Written(q), value);
    } else {
      var w, rest := Written(ps[0]), Text(ps[1..]);
      PutTail(ps, q, value);
      ReplacePuts(ps[1..], q, value);
      assert (w + rest)[|w|..] == rest && (w + rest)[..|w|] == w;
      if ps[0] == q {
        ReplaceHere(w + rest, w, value);
      } else {
        OtherPiece(ps[0], q, rest);
        ReplaceSkips(w + rest, Written(q), value, |w|);
      }
    }
  }

  lemma PutTail(ps: seq<Piece>, q: Piece, value: string)
    requires ps != []
    ensures Put(ps, q, value)[1..] == Put(ps[1..], q, value) && Written(Literal(value)) == value
  {
  }

  lemma {:induction false} PutsMean(ps: seq<Piece>, net: NetInfo)
    ensures Text(Put(Put(Put(ps, Interface, net.iface), LocalIp, net.localIp), RouterMac, net.gatewayMac))
         == Filled(ps, net)
  {
    var all := Put(Put(Put(ps, Interface, net.iface), LocalIp, net.localIp), RouterMac, net.gatewayMac);
    if ps != [] {
      PutsMean(ps[1..], net);
      assert all[1..] == Put(Put(Put(ps[1..], Interface, net.iface), LocalIp, net.localIp), RouterMac, net.gatewayMac);
    }
  }

  /** Any template, with any number of placeholders in any order, is filled in as it is meant, if neither in the text
      between them nor in the interface and the address two braces in a row begin. */
  lemma FillsIn(ps: seq<Piece>, net: NetInfo)
    requires Plain(ps) && Inert(net.iface) && Inert(net.localIp)
    ensures Fill(Text(ps), net) == Filled(ps, net)
  {
    hide Replace, Text, Filled, Inert;
    ReplacePuts(ps, Interface, net.iface);
    var one := Put(ps, Interface, net.iface);
    ReplacePuts(one, LocalIp, net.localIp);
    var two := Put(one, LocalIp, net.localIp);
    ReplacePuts(two, RouterMac, net.gatewayMac);
    PutsMean(ps, net);
  }
}
