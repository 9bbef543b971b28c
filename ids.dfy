/**
 * The deterministic identifiers of generated rows: posts are `P{week}-{n}`
 * and comments `C{week}-{n}-{c}`, numbers written in decimal as a template
 * literal renders an integer.
 */
module Ids {

  predicate IsDigit(c: char) {
    '0' <= c <= '9'
  }

  predicate AllDigits(s: string) {
    forall i :: 0 <= i < |s| ==> IsDigit(s[i])
  }

  function DigitChar(d: int): (c: char)
    requires 0 <= d < 10
    ensures IsDigit(c)
  {
    (48 + d) as char
  }

  /** Decimal rendering of a natural number, without leading zeros. */
  function NatToString(n: nat): (s: string)
    ensures |s| > 0 && AllDigits(s)
    ensures |s| > 1 ==> s[0] != '0'
  {
    if n < 10 then [DigitChar(n)] else NatToString(n / 10) + [DigitChar(n % 10)]
  }

  /** Decimal rendering of an integer: a minus sign before the digits of a negative one. */
  function IntToString(w: int): (s: string)
    ensures |s| > 0 && (w < 0 <==> s[0] == '-')
    ensures w >= 0 ==> AllDigits(s) && ParseNat(s) == w
    ensures w < 0 ==> AllDigits(s[1..]) && ParseNat(s[1..]) == -w
  {
    ParseNatToString(if w < 0 then -w else w);
    if w < 0 then "-" + NatToString(-w) else NatToString(w)
  }

  /** Reads a string of digits as a number (the inverse of NatToString). */
  function ParseNat(s: string): nat
    requires AllDigits(s)
  {
    if |s| == 0 then 0 else ParseNat(s[..|s| - 1]) * 10 + (s[|s| - 1] as int - 48)
  }

  lemma {:induction false} ParseNatToString(n: nat)
    ensures ParseNat(NatToString(n)) == n
  {
    if n >= 10 {
      var s := NatToString(n);
      assert s[..|s| - 1] == NatToString(n / 10);
      ParseNatToString(n / 10);
    }
  }

  lemma NatToStringInjective(a: nat, b: nat)
    requires NatToString(a) == NatToString(b)
    ensures a == b
  {
    ParseNatToString(a);
    ParseNatToString(b);
  }

  lemma IntToStringInjective(a: int, b: int)
    requires IntToString(a) == IntToString(b)
    ensures a == b
  {
    var s := IntToString(a);
    if a < 0 {
      assert s[1..] == NatToString(-a) && s[1..] == NatToString(-b);
      NatToStringInjective(-a, -b);
    } else {
      NatToStringInjective(a, b);
    }
  }

  /** Position of the last occurrence of `c` in `s`, or -1. */
  function LastIndexOf(s: string, c: char): (i: int)
    ensures -1 <= i < |s|
  {
    if |s| == 0 then -1
    else if s[|s| - 1] == c then |s| - 1
    else LastIndexOf(s[..|s| - 1], c)
  }

  /** In `a + "-" + b` with `b` all digits, the last `-` is the one after `a`. */
  lemma {:induction false} LastDashBeforeDigits(a: string, b: string)
    requires AllDigits(b)
    ensures LastIndexOf(a + "-" + b, '-') == |a|
  {
    var s := a + "-" + b;
    if |b| > 0 {
      assert s[..|s| - 1] == a + "-" + b[..|b| - 1];
      LastDashBeforeDigits(a, b[..|b| - 1]);
    }
  }

  /** A string `a + "-" + b` with `b` a non-empty run of digits splits at its last `-` only. */
  lemma SplitAtLastDash(a: string, b: string, a': string, b': string)
    requires AllDigits(b) && AllDigits(b')
    requires a + "-" + b == a' + "-" + b'
    ensures a == a' && b == b'
  {
    var s := a + "-" + b;
    LastDashBeforeDigits(a, b);
    LastDashBeforeDigits(a', b');
    assert a == s[..|a|] == a';
    assert b == s[|a| + 1..] == b';
  }

  /** After `head` and a dash, the decimal digits of `n` are the last dash's suffix, and read back as `n`. */
  lemma ReadBackAfterLastDash(head: string, n: nat)
    ensures var id := head + "-" + NatToString(n);
      && LastIndexOf(id, '-') == |head| && id[..|head|] == head
      && id[|head| + 1..] == NatToString(n) && ParseNat(id[|head| + 1..]) == n
  {
    LastDashBeforeDigits(head, NatToString(n));
    ParseNatToString(n);
    var id := head + "-" + NatToString(n);
    assert id[|head| + 1..] == NatToString(n) && id[..|head|] == head;
  }

  /**
   * `P{week}-{n}`: the letter P, the week number in decimal, a dash, and the
   * post number in decimal; both numbers can be read back from the id.
   */
  function PostId(week: int, n: nat): (id: string)
    ensures |id| > 0 && id[0] == 'P'
    ensures var d := LastIndexOf(id, '-');
      && 1 < d && AllDigits(id[d + 1..]) && ParseNat(id[d + 1..]) == n
      && id[1..d] == IntToString(week)
  {
    var head := "P" + IntToString(week);
    ReadBackAfterLastDash(head, n);
    assert head[1..] == IntToString(week);
    head + "-" + NatToString(n)
  }

  /**
   * `C{week}-{n}-{c}`: the letter C, the week number, the post number and
   * the comment number, in decimal and separated by dashes.
   */
  function CommentId(week: int, n: nat, c: nat): (id: string)
    ensures |id| > 0 && id[0] == 'C'
  {
    "C" + IntToString(week) + "-" + NatToString(n) + "-" + NatToString(c)
  }

  /**
   * The comment number follows the last dash of a comment id; what precedes
   * that dash is `C{week}-{n}`, whose own last dash is followed by the post
   * number and preceded by `C` and the week number.
   */
  lemma CommentIdReadBack(week: int, n: nat, c: nat)
    ensures var id := CommentId(week, n, c); var d := LastIndexOf(id, '-');
      && 0 <= d && AllDigits(id[d + 1..]) && ParseNat(id[d + 1..]) == c
      && id[..d] == "C" + IntToString(week) + "-" + NatToString(n)
    ensures var head := "C" + IntToString(week) + "-" + NatToString(n); var e := LastIndexOf(head, '-');
      && 1 < e && AllDigits(head[e + 1..]) && ParseNat(head[e + 1..]) == n && head[1..e] == IntToString(week)
  {
    var post := "C" + IntToString(week);
    var head := post + "-" + NatToString(n);
    ReadBackAfterLastDash(head, c);
    ReadBackAfterLastDash(post, n);
    assert CommentId(week, n, c) == head + "-" + NatToString(c);
    assert head[..|post|][1..] == IntToString(week);
  }

  /** Distinct (week, post number) pairs give distinct post ids, across weeks as within one. */
  lemma PostIdInjective(w: int, n: nat, w': int, n': nat)
    ensures PostId(w, n) == PostId(w', n') ==> w == w' && n == n'
  {
    if PostId(w, n) == PostId(w', n') {
      PostIdInjectiveCase(w, n, w', n');
    }
  }

  lemma PostIdInjectiveCase(w: int, n: nat, w': int, n': nat)
    requires PostId(w, n) == PostId(w', n')
    ensures w == w' && n == n'
  {
    SplitAtLastDash("P" + IntToString(w), NatToString(n), "P" + IntToString(w'), NatToString(n'));
    assert IntToString(w) == ("P" + IntToString(w))[1..];
    assert IntToString(w') == ("P" + IntToString(w'))[1..];
    IntToStringInjective(w, w');
    NatToStringInjective(n, n');
  }

  /** Distinct (week, post number, comment number) triples give distinct comment ids. */
  lemma CommentIdInjective(w: int, n: nat, c: nat, w': int, n': nat, c': nat)
    ensures CommentId(w, n, c) == CommentId(w', n', c') ==> w == w' && n == n' && c == c'
  {
    if CommentId(w, n, c) == CommentId(w', n', c') {
      CommentIdInjectiveCase(w, n, c, w', n', c');
    }
  }

  lemma CommentIdInjectiveCase(w: int, n: nat, c: nat, w': int, n': nat, c': nat)
    requires CommentId(w, n, c) == CommentId(w', n', c')
    ensures w == w' && n == n' && c == c'
  {
    var a := "C" + IntToString(w) + "-" + NatToString(n);
    var a' := "C" + IntToString(w') + "-" + NatToString(n');
    SplitAtLastDash(a, NatToString(c), a', NatToString(c'));
    SplitAtLastDash("C" + IntToString(w), NatToString(n), "C" + IntToString(w'), NatToString(n'));
    assert IntToString(w) == ("C" + IntToString(w))[1..];
    assert IntToString(w') == ("C" + IntToString(w'))[1..];
    IntToStringInjective(w, w');
    NatToStringInjective(n, n');
    NatToStringInjective(c, c');
  }
}
