/** _iptables_bytes of app/static/js/agent.py, lines 559 to 575: the byte counter of a port, found by a substring
    test on the lines of an iptables listing. */
module Counters {
  import opened Wrappers
  import opened Decimal

  // ---- Columns ----

  const BLANKS: string := " \t\r\n"

  function Word(s: string): (w: string)
    ensures w <= s && (forall k :: 0 <= k < |w| ==> w[k] !in BLANKS)
    ensures |w| < |s| ==> s[|w|] in BLANKS
  {
    if s == "" || s[0] in BLANKS then "" else [s[0]] + Word(s[1..])
  }

  /** line.split() */
  function Columns(s: string): (cols: seq<string>)
    decreases |s|
  {
    if s == "" then []
    else if s[0] in BLANKS then Columns(s[1..])
    else [Word(s)] + Columns(s[|Word(s)|..])
  }

  predicate IsDigit(s: string) {
    s != "" && AllDigits(s)
  }

  /** int(columns[1]), where the first two columns are numbers. */
  function Counter(line: string): Option<nat> {
    var cols := Columns(line);
    if |cols| >= 2 && IsDigit(cols[0]) && IsDigit(cols[1]) then Some(Val(cols[1])) else None
  }

  // ---- The search ----

  /** part in s */
  predicate Contains(s: string, part: string)
    decreases |s|
  {
    part <= s || (s != "" && Contains(s[1..], part))
  }

  predicate Matches(line: string, needle: string) {
    Contains(line, needle) && Contains(line, "NOTRACK") && Counter(line).Some?
  }

  /** Where the search stops; |lines| where it raises. */
  function Found(lines: seq<string>, needle: string): (k: nat)
    ensures k <= |lines| && (k < |lines| ==> Matches(lines[k], needle))
    ensures forall j :: 0 <= j < k ==> !Matches(lines[j], needle)
  {
    if lines == [] then 0 else if Matches(lines[0], needle) then 0 else 1 + Found(lines[1..], needle)
  }

  method IptablesBytes(lines: seq<string>, displayKind: string, port: nat) returns (bytes: Option<nat>)
    ensures var k := Found(lines, displayKind + ":" + StrNat(port));
      bytes == if k < |lines| then Counter(lines[k]) else None
  {
    hide Columns, Contains, Val, StrNat, AllDigits;
    var needle := displayKind + ":" + StrNat(port);
    var i := 0;
    while i < |lines|
      invariant i <= |lines|
      invariant forall j :: 0 <= j < i ==> !Matches(lines[j], needle)
    {
      var line := lines[i];
      if Contains(line, needle) && Contains(line, "NOTRACK") {
        var columns := Columns(line);
        if |columns| >= 2 && IsDigit(columns[0]) && IsDigit(columns[1]) {
          return Some(Val(columns[1]));
        }
      }
      i := i + 1;
    }
    return None;
  }

  // ---- The counter of a listed rule ----

  predicate AllBlank(s: string) {
    forall k :: 0 <= k < |s| ==> s[k] in BLANKS
  }

  lemma {:induction false} SkipBlanks(pad: string, s: string)
    requires AllBlank(pad)
    ensures Columns(pad + s) == Columns(s)
    decreases |pad|
  {
    if pad == "" {
      assert pad + s == s;
    } else {
      assert (pad + s)[0] == pad[0] && (pad + s)[1..] == pad[1..] + s;
      SkipBlanks(pad[1..], s);
    }
  }

  lemma {:induction false} WordOf(w: string, rest: string)
    requires (forall k :: 0 <= k < |w| ==> w[k] !in BLANKS) && (rest != "" ==> rest[0] in BLANKS)
    ensures Word(w + rest) == w
    decreases |w|
  {
    if w == "" {
      assert w + rest == rest;
    } else {
      assert (w + rest)[0] == w[0] && (w + rest)[1..] == w[1..] + rest;
      WordOf(w[1..], rest);
    }
  }

  lemma FirstColumn(w: string, rest: string)
    requires w != "" && (forall k :: 0 <= k < |w| ==> w[k] !in BLANKS) && (rest != "" ==> rest[0] in BLANKS)
    ensures Columns(w + rest) == [w] + Columns(rest)
  {
    WordOf(w, rest);
    assert (w + rest)[0] == w[0] && (w + rest)[|w|..] == rest;
  }

  lemma DigitsAreNotBlank(n: nat)
    ensures forall k :: 0 <= k < |StrNat(n)| ==> StrNat(n)[k] !in BLANKS
  {
    hide StrNat;
    forall k | 0 <= k < |StrNat(n)| ensures StrNat(n)[k] !in BLANKS {
      assert StrNat(n)[k] in DIGITS;
    }
  }

  predicate Solid(w: string) {
    w != "" && forall k :: 0 <= k < |w| ==> w[k] !in " \t\r\n"
  }

  /** The counter of a line is the number in its second column, if that and the first one are made of digits; a line of
      one column, or none, has no counter. */
  lemma CounterOf(pad: string, a: string, gap: string, b: string, rest: string)
    requires AllBlank(pad) && Solid(a) && AllBlank(gap) && gap != "" && Solid(b) && (rest != "" ==> rest[0] in BLANKS)
    ensures Counter(pad + (a + (gap + (b + rest)))) ==
      if (forall k :: 0 <= k < |a| ==> a[k] in "0123456789") && (forall k :: 0 <= k < |b| ==> b[k] in "0123456789")
      then Some(Val(b)) else None
    ensures Counter(pad + (a + gap)) == None && Counter(pad) == None
  {
    hide Columns, Val;
    SkipBlanks(pad, a + (gap + (b + rest)));
    FirstColumn(a, gap + (b + rest));
    SkipBlanks(gap, b + rest);
    FirstColumn(b, rest);
    assert Columns("") == [] by { NoColumns(); }
    SkipBlanks(pad, a + gap);
    FirstColumn(a, gap);
    SkipBlanks(gap, "");
    assert gap + "" == gap && pad + "" == pad;
    SkipBlanks(pad, "");
    assert DIGITS == "0123456789";
  }

  lemma NoColumns()
    ensures Columns("") == []
  {
  }

  /** The bytes that iptables prints in the second column are the bytes that are read from it. */
  lemma CounterIsPrinted(pad: string, packets: nat, gap: string, bytes: nat, rest: string)
    requires AllBlank(pad) && AllBlank(gap) && gap != "" && (rest != "" ==> rest[0] in BLANKS)
    ensures Counter(pad + (StrNat(packets) + (gap + (StrNat(bytes) + rest)))) == Some(bytes)
  {
    hide StrNat, Counter, Val;
    DigitsAreNotBlank(packets);
    DigitsAreNotBlank(bytes);
    CounterOf(pad, StrNat(packets), gap, StrNat(bytes), rest);
    ValOfStr(bytes);
  }

  // ---- Which lines the substring test takes ----

  lemma {:induction false} ContainsAt(s: string, part: string, i: nat)
    requires i <= |s| && part <= s[i..]
    ensures Contains(s, part)
    decreases i
  {
    if i > 0 {
      assert s[1..][i - 1..] == s[i..];
      ContainsAt(s[1..], part, i - 1);
    }
  }

  lemma {:induction false} ContainsWhere(s: string, part: string) returns (i: nat)
    requires Contains(s, part)
    ensures i <= |s| && part <= s[i..]
    decreases |s|
  {
    if part <= s {
      i := 0;
      assert s[0..] == s;
    } else {
      var j := ContainsWhere(s[1..], part);
      i := j + 1;
      assert s[1..][j..] == s[i..];
    }
  }

  /** The digits of p are what is left of those of q when some are cut off at the end. */
  predicate Starts(p: nat, q: nat)
    decreases q
  {
    p == q || (q >= 10 && Starts(p, q / 10))
  }

  lemma {:induction false} StartsIff(p: nat, q: nat)
    ensures StrNat(p) <= StrNat(q) <==> Starts(p, q)
    decreases q
  {
    if StrNat(p) == StrNat(q) {
      StrNatInjective(p, q);
    } else if q >= 10 {
      var s := StrNat(q);
      StartsIff(p, q / 10);
      assert s[..|s| - 1] == StrNat(q / 10);
      if StrNat(p) <= s {
        assert StrNat(p) == s[..|StrNat(p)|] && |StrNat(p)| < |s|;
        assert StrNat(p) <= s[..|s| - 1];
      }
    } else {
      assert |StrNat(q)| == 1;
    }
  }

  function LeadingDigits(s: string): (d: string)
    ensures d <= s && (forall k :: 0 <= k < |d| ==> d[k] in DIGITS) && (|d| < |s| ==> s[|d|] !in DIGITS)
  {
    if s == "" || s[0] !in DIGITS then "" else [s[0]] + LeadingDigits(s[1..])
  }

  /** The digits that follow each "kind:" in a line. */
  function Named(line: string, kind: string): seq<string>
    decreases |line|
  {
    if line == "" then []
    else
      (if kind + ":" <= line then [LeadingDigits(line[|kind| + 1..])] else []) + Named(line[1..], kind)
  }

  predicate StartsOne(part: string, runs: seq<string>) {
    exists k :: 0 <= k < |runs| && part <= runs[k]
  }

  lemma SamePrefix(name: string, a: string, b: string)
    ensures name + a <= name + b <==> a <= b
  {
    assert (name + a)[|name|..] == a && (name + b)[|name|..] == b;
  }

  lemma PrefixOfDigits(a: string, s: string)
    requires forall k :: 0 <= k < |a| ==> a[k] in DIGITS
    ensures a <= s <==> a <= LeadingDigits(s)
  {
  }

  lemma NeedleHere(line: string, kind: string, d: string)
    requires forall k :: 0 <= k < |d| ==> d[k] in DIGITS
    ensures kind + ":" + d <= line <==> kind + ":" <= line && d <= LeadingDigits(line[|kind| + 1..])
  {
    var name := kind + ":";
    if name <= line {
      assert line == name + line[|name|..];
      SamePrefix(name, d, line[|name|..]);
      PrefixOfDigits(d, line[|name|..]);
    }
    if name + d <= line {
      assert (name + d)[..|name|] == name && line[..|name|] == name;
    }
  }

  lemma StartsAppend(part: string, a: seq<string>, b: seq<string>)
    ensures StartsOne(part, a + b) <==> StartsOne(part, a) || StartsOne(part, b)
  {
    if StartsOne(part, b) {
      var k :| 0 <= k < |b| && part <= b[k];
      assert (a + b)[|a| + k] == b[k];
    }
    if StartsOne(part, a) {
      var k :| 0 <= k < |a| && part <= a[k];
      assert (a + b)[k] == a[k];
    }
  }

  /** Any line has the needle in it exactly if the digits looked for start those that follow one of its "kind:". */
  lemma {:induction false} NeedleIff(line: string, kind: string, d: string)
    requires forall k :: 0 <= k < |d| ==> d[k] in DIGITS
    ensures Contains(line, kind + ":" + d) <==> StartsOne(d, Named(line, kind))
    decreases |line|
  {
    hide StartsOne, LeadingDigits;
    if line == "" {
      NoRuns(d);
    } else {
      NeedleHere(line, kind, d);
      NeedleIff(line[1..], kind, d);
      var here := if kind + ":" <= line then [LeadingDigits(line[|kind| + 1..])] else [];
      StartsAppend(d, here, Named(line[1..], kind));
      if kind + ":" <= line { OneRun(d, here[0]); } else { NoRuns(d); }
    }
  }

  lemma NoRuns(d: string)
    ensures !StartsOne(d, [])
  {
  }

  lemma OneRun(d: string, run: string)
    ensures StartsOne(d, [run]) <==> d <= run
  {
    assert [run][0] == run;
  }

  /** A line that the search takes into account: a NOTRACK rule with two numbers in front. */
  predicate Counted(line: string) {
    Contains(line, "NOTRACK") && Counter(line).Some?
  }

  /** The port's own rule. */
  predicate OwnRule(line: string, kind: string, port: nat) {
    Counted(line) && StrNat(port) in Named(line, kind)
  }

  /** In any listing, the line read for a port is that of its own rule, the k-th, exactly if no counted line before
      it names, after "kind:", digits that the port's digits start: the same port again, or one that only starts
      alike (StartsIff). */
  lemma ReadsOwnIff(lines: seq<string>, kind: string, port: nat, k: nat)
    requires k < |lines| && OwnRule(lines[k], kind, port)
    ensures Found(lines, kind + ":" + StrNat(port)) == k
       <==> forall j :: 0 <= j < k && Counted(lines[j]) ==> !StartsOne(StrNat(port), Named(lines[j], kind))
  {
    hide StrNat, Contains, Counter, Named;
    var needle := kind + ":" + StrNat(port);
    forall j | 0 <= j <= k
      ensures Matches(lines[j], needle) <==> Counted(lines[j]) && StartsOne(StrNat(port), Named(lines[j], kind))
    {
      NeedleIff(lines[j], kind, StrNat(port));
    }
    var runs := Named(lines[k], kind);
    var i :| 0 <= i < |runs| && runs[i] == StrNat(port);
    assert StrNat(port) <= runs[i];
  }

  // ---- A listing as it is printed ----

  lemma {:induction false} NamedAt(line: string, kind: string, i: nat)
    requires i <= |line| && kind + ":" <= line[i..]
    ensures LeadingDigits(line[i..][|kind| + 1..]) in Named(line, kind)
    decreases i
  {
    hide LeadingDigits;
    if i == 0 {
      assert line[0..] == line;
    } else {
      assert line[1..][i - 1..] == line[i..];
      NamedAt(line[1..], kind, i - 1);
    }
  }

  lemma DigitsEnd(d: string, tail: string)
    requires (forall k :: 0 <= k < |d| ==> d[k] in DIGITS) && (tail != "" ==> tail[0] !in DIGITS)
    ensures LeadingDigits(d + tail) == d
  {
    PrefixOfDigits(d, d + tail);
    assert tail != "" ==> (d + tail)[|d|] == tail[0];
  }

  /** A rule as iptables prints it: packets and bytes, then mid, which has the target, the addresses and whatever else
      comes before the port, then the port, then tail. */
  function Printed(packets: nat, bytes: nat, mid: string, kind: string, port: nat, tail: string): string {
    " " + (StrNat(packets) + (" " + (StrNat(bytes) + (" " + (mid + (kind + ":" + (StrNat(port) + tail)))))))
  }

  /** What precedes mid. */
  function Front(packets: nat, bytes: nat): string {
    " " + (StrNat(packets) + (" " + (StrNat(bytes) + " ")))
  }

  lemma PrintedParts(packets: nat, bytes: nat, mid: string, kind: string, port: nat, tail: string)
    ensures Printed(packets, bytes, mid, kind, port, tail)
         == Front(packets, bytes) + (mid + (kind + ":" + (StrNat(port) + tail)))
  {
    hide StrNat;
  }

  lemma PrintedCounter(packets: nat, bytes: nat, mid: string, kind: string, port: nat, tail: string)
    ensures Counter(Printed(packets, bytes, mid, kind, port, tail)) == Some(bytes)
  {
    hide StrNat, Counter;
    var rest := " " + (mid + (kind + ":" + (StrNat(port) + tail)));
    assert rest[0] == ' ' && AllBlank(" ");
    CounterIsPrinted(" ", packets, " ", bytes, rest);
  }

  lemma ContainsInside(front: string, mid: string, back: string, part: string)
    requires Contains(mid, part)
    ensures Contains(front + (mid + back), part)
  {
    hide Contains;
    var i := ContainsWhere(mid, part);
    var line := front + (mid + back);
    assert line[|front| + i..] == mid[i..] + back;
    ContainsAt(line, part, |front| + i);
  }

  lemma NamedInside(front: string, mid: string, kind: string, d: string, tail: string)
    requires (forall k :: 0 <= k < |d| ==> d[k] in DIGITS) && (tail != "" ==> tail[0] !in DIGITS)
    ensures d in Named(front + (mid + (kind + ":" + (d + tail))), kind)
  {
    hide Named, LeadingDigits;
    var name := kind + ":" + (d + tail);
    var line := front + (mid + name);
    var i := |front| + |mid|;
    assert line[i..] == name && name[|kind| + 1..] == d + tail;
    NamedAt(line, kind, i);
    DigitsEnd(d, tail);
  }

  lemma PrintedIsOwn(packets: nat, bytes: nat, mid: string, kind: string, port: nat, tail: string)
    requires Contains(mid, "NOTRACK") && (tail != "" ==> tail[0] !in DIGITS)
    ensures var line := Printed(packets, bytes, mid, kind, port, tail);
      Counter(line) == Some(bytes) && OwnRule(line, kind, port)
  {
    hide StrNat, Counter, Named, Contains, Printed, Front;
    PrintedCounter(packets, bytes, mid, kind, port, tail);
    PrintedParts(packets, bytes, mid, kind, port, tail);
    ContainsInside(Front(packets, bytes), mid, kind + ":" + (StrNat(port) + tail), "NOTRACK");
    NamedInside(Front(packets, bytes), mid, kind, StrNat(port), tail);
  }

  /** With the rule of port 8080 listed before that of port 80, the counter read for port 80 is that of port 8080. */
  lemma ReadsAnother(packets: nat, longer: nat, own: nat)
    ensures var lines := [Printed(packets, longer, "NOTRACK tcp ", "dpt", 8080, ""),
                          Printed(packets, own, "NOTRACK tcp ", "dpt", 80, "")];
      && OwnRule(lines[1], "dpt", 80) && Counter(lines[1]) == Some(own)
      && Found(lines, "dpt" + ":" + StrNat(80)) == 0 && Counter(lines[0]) == Some(longer)
  {
    hide StrNat, Counter, Named, Contains, Printed;
    var mid := "NOTRACK tcp ";
    ContainsAt(mid, "NOTRACK", 0);
    var first := Printed(packets, longer, mid, "dpt", 8080, "");
    PrintedIsOwn(packets, longer, mid, "dpt", 8080, "");
    PrintedIsOwn(packets, own, mid, "dpt", 80, "");
    StartsIff(80, 8080);
    assert Starts(80, 808) && Starts(80, 8080);
    var runs := Named(first, "dpt");
    var i :| 0 <= i < |runs| && runs[i] == StrNat(8080);
    assert StrNat(80) <= runs[i];
    NeedleIff(first, "dpt", StrNat(80));
  }
}
