/**
 * Persona tone in the TypeScript handler `src/app/api/generate-week/route.ts`:
 * a bio is classified by the first of four keywords it mentions,
 * case-insensitively, and each tone has one fixed comment line.
 */
module Tones {
  import opened Options

  /** `toLowerCase` on the Latin capitals; every other character is kept. */
  function LowerChar(c: char): char {
    if 'A' <= c <= 'Z' then (c as int + 32) as char else c
  }

  function Lower(s: string): (r: string)
    ensures |r| == |s| && forall i :: 0 <= i < |s| ==> r[i] == LowerChar(s[i])
  {
    seq(|s|, i requires 0 <= i < |s| => LowerChar(s[i]))
  }

  /** Lower-casing twice is lower-casing once. */
  lemma LowerIdempotent(s: string)
    ensures Lower(Lower(s)) == Lower(s)
  {
  }

  /** `p` occurs in `s` starting at position `i`. */
  predicate OccursAt(p: string, s: string, i: int) {
    0 <= i <= |s| - |p| && s[i..i + |p|] == p
  }

  /** `p` occurs in `s` at some position. */
  ghost predicate Occurs(p: string, s: string) {
    exists i :: OccursAt(p, s, i)
  }

  /** `s.includes(p)`, scanning from the left. */
  function Includes(s: string, p: string): (b: bool)
    ensures b <==> Occurs(p, s)
  {
    if |p| > |s| then false
    else if s[..|p|] == p then (assert OccursAt(p, s, 0); true)
    else (OccursInTail(p, s); Includes(s[1..], p))
  }

  /** An occurrence is at the front or in the tail. */
  lemma OccursInTail(p: string, s: string)
    requires |s| > 0
    ensures Occurs(p, s) <==> OccursAt(p, s, 0) || Occurs(p, s[1..])
  {
    if Occurs(p, s) {
      var i :| OccursAt(p, s, i);
      if i > 0 {
        assert s[1..][i - 1..i - 1 + |p|] == s[i..i + |p|];
        assert OccursAt(p, s[1..], i - 1);
      }
    }
    if Occurs(p, s[1..]) {
      var i :| OccursAt(p, s[1..], i);
      assert s[1..][i..i + |p|] == s[i + 1..i + 1 + |p|];
      assert OccursAt(p, s, i + 1);
    }
  }

  datatype Tone = Sales | Ops | Pm | Consult | General

  /**
   * `tone(bio)`: a missing bio reads as the empty text; "sales" wins over
   * "operations", which wins over "product", which wins over "consultant".
   */
  function ToneOf(bio: Option<string>): (t: Tone)
    ensures var b := Lower(bio.GetOr(""));
      && (t == Sales <==> Occurs("sales", b))
      && (t == Ops <==> !Occurs("sales", b) && Occurs("operations", b))
      && (t == Pm <==> !Occurs("sales", b) && !Occurs("operations", b) && Occurs("product", b))
      && (t == Consult <==> !Occurs("sales", b) && !Occurs("operations", b) && !Occurs("product", b)
                            && Occurs("consultant", b))
      && (t == General <==> !Occurs("sales", b) && !Occurs("operations", b) && !Occurs("product", b)
                            && !Occurs("consultant", b))
  {
    var b := Lower(bio.GetOr(""));
    if Includes(b, "sales") then Sales
    else if Includes(b, "operations") then Ops
    else if Includes(b, "product") then Pm
    else if Includes(b, "consultant") then Consult
    else General
  }

  /** The classification ignores letter case. */
  lemma ToneIgnoresCase(bio: string)
    ensures ToneOf(Some(Lower(bio))) == ToneOf(Some(bio))
  {
    LowerIdempotent(bio);
  }

  /** The five fixed comment lines, kept opaque. */
  datatype Line = PmLine | OpsLine | SalesLine | ConsultLine | GeneralLine

  /** `commentLine(t)`. */
  function CommentLine(t: Tone): (l: Line)
    ensures t == Pm ==> l == PmLine
    ensures t == Ops ==> l == OpsLine
    ensures t == Sales ==> l == SalesLine
    ensures t == Consult ==> l == ConsultLine
    ensures t == General ==> l == GeneralLine
  {
    // tested in the handler's order: pm, ops, sales, consult, then the general line
    match t
    case Pm => PmLine
    case Ops => OpsLine
    case Sales => SalesLine
    case Consult => ConsultLine
    case General => GeneralLine
  }

  /** Each tone has its own line. */
  lemma CommentLineInjective(t: Tone, t': Tone)
    requires CommentLine(t) == CommentLine(t')
    ensures t == t'
  {
  }
}
