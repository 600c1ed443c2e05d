/** str(n) of Python, and the restart markers of app/static/js/agent.py built from it. */
module Decimal {

  const DIGITS: string := "0123456789"

  function StrNat(n: nat): (s: string)
    ensures |s| > 0
    ensures forall k :: 0 <= k < |s| ==> s[k] in DIGITS
    decreases n
  {
    assert DIGITS[n % 10] in DIGITS;
    if n < 10 then [DIGITS[n]] else StrNat(n / 10) + [DIGITS[n % 10]]
  }

  function Str(n: int): (s: string)
    ensures |s| > 0
    ensures forall k :: 0 <= k < |s| ==> s[k] in DIGITS || s[k] == '-'
  {
    if n < 0 then "-" + StrNat(-n) else StrNat(n)
  }

  lemma DigitsDiffer(i: nat, j: nat)
    requires i < 10 && j < 10 && DIGITS[i] == DIGITS[j]
    ensures i == j
  {
  }

  lemma {:induction false} StrNatInjective(m: nat, n: nat)
    requires StrNat(m) == StrNat(n)
    ensures m == n
    decreases m
  {
    var s := StrNat(m);
    assert s[|s| - 1] == DIGITS[m % 10] && s[|s| - 1] == DIGITS[n % 10];
    DigitsDiffer(m % 10, n % 10);
    if m >= 10 && n >= 10 {
      assert StrNat(m / 10) == s[..|s| - 1] && StrNat(n / 10) == s[..|s| - 1];
      StrNatInjective(m / 10, n / 10);
    } else {
      assert |StrNat(m)| == 1 || |StrNat(n)| == 1;
    }
  }

  lemma SignsDiffer(m: int, n: int)
    ensures m < 0 <= n ==> Str(m) != Str(n)
  {
    if m < 0 <= n {
      assert Str(m)[0] == '-' && Str(n)[0] in DIGITS;
    }
  }

  lemma StrInjective(m: int, n: int)
    requires Str(m) == Str(n)
    ensures m == n
  {
    SignsDiffer(m, n);
    SignsDiffer(n, m);
    if m < 0 && n < 0 {
      assert Str(m)[1..] == StrNat(-m) && Str(n)[1..] == StrNat(-n);
      StrNatInjective(-m, -n);
    } else if m >= 0 && n >= 0 {
      StrNatInjective(m, n);
    }
  }

  function DigitOf(c: char): nat {
    if '0' <= c <= '9' then (c as int) - ('0' as int) else 0
  }

  /** The number that a string of digits writes; 0 for the empty one. */
  function Val(s: string): nat {
    if s == "" then 0 else Val(s[..|s| - 1]) * 10 + DigitOf(s[|s| - 1])
  }

  predicate AllDigits(s: string) {
    forall k :: 0 <= k < |s| ==> s[k] in DIGITS
  }

  lemma {:induction false} ValOfStr(n: nat)
    ensures Val(StrNat(n)) == n
    decreases n
  {
    var s := StrNat(n);
    if n >= 10 {
      ValOfStr(n / 10);
      assert s[..|s| - 1] == StrNat(n / 10);
    } else {
      assert s[..0] == "" && Val("") == 0;
    }
    assert DigitOf(s[|s| - 1]) == n % 10;
  }

  /** It is written in the digits 0 to 9, the first of which is 0 for no number but 0; and a string of digits is read
      from the left, ten times what was read so far and the next digit. */
  lemma {:induction false} DigitsOfNumber(n: nat, s: string, d: char)
    requires '0' <= d <= '9'
    ensures (forall k :: 0 <= k < |StrNat(n)| ==> '0' <= StrNat(n)[k] <= '9') && (StrNat(n)[0] == '0' <==> n == 0)
    ensures Val("") == 0 && Val(s + [d]) == 10 * Val(s) + ((d as int) - 48)
    decreases n
  {
    assert (s + [d])[..|s|] == s;
    assert forall c :: c in DIGITS ==> '0' <= c <= '9';
    if n >= 10 {
      DigitsOfNumber(n / 10, s, d);
    }
  }

  lemma {:induction false} ValOfPrefix(s: string, k: nat)
    requires k <= |s|
    ensures Val(s[..k]) <= Val(s)
    decreases |s|
  {
    if k == |s| {
      assert s[..k] == s;
    } else {
      assert s[..|s| - 1][..k] == s[..k];
      ValOfPrefix(s[..|s| - 1], k);
    }
  }

  const RESTART: string := "\0restart:"

  /** The text that a running tunnel is compared by: its configuration and its restart nonce. */
  function Marker(content: string, nonce: int): string {
    content + RESTART + Str(nonce)
  }

  lemma MarkerAt(content: string, nonce: int)
    ensures var m := Marker(content, nonce);
      && |content| < |m| && m[|content|] == '\0' && m[..|content|] == content
      && (forall k :: |content| < k < |m| ==> m[k] != '\0')
      && |content| + |RESTART| <= |m| && m[|content| + |RESTART|..] == Str(nonce)
  {
    var m := Marker(content, nonce);
    var tail := RESTART + Str(nonce);
    assert m == content + tail;
    forall k | |content| < k < |m| ensures m[k] != '\0' {
      assert m[k] == tail[k - |content|];
    }
  }

  /** No content, not even one holding NUL characters, makes two different pairs share a marker. */
  lemma MarkersDiffer(c: string, m: int, d: string, n: int)
    ensures Marker(c, m) == Marker(d, n) <==> c == d && m == n
  {
    if Marker(c, m) == Marker(d, n) {
      MarkerAt(c, m);
      MarkerAt(d, n);
      StrInjective(m, n);
    }
  }
}
