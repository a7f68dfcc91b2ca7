/**
 * The central redactor: longest-first replacement of exact secrets, then masking of
 * secret-shaped spans.
 *
 * A text on its way through the redactor is followed as a sequence of pieces: characters
 * kept from the original and spans that are shown as the mask.
 */
module Redaction {
  import opened Text

  const MASK := "[REDACTED]"

  datatype Piece = Kept(c: char) | Hit(span: string)

  /** The text the pieces were cut from. */
  function Source(ps: seq<Piece>): string {
    if ps == [] then ""
    else (match ps[0] case Kept(c) => [c] case Hit(span) => span) + Source(ps[1..])
  }

  /** The text the pieces are shown as. */
  function Output(ps: seq<Piece>): string {
    if ps == [] then ""
    else (match ps[0] case Kept(c) => [c] case Hit(_) => MASK) + Output(ps[1..])
  }

  function Letters(t: string): (ps: seq<Piece>)
    ensures |ps| == |t| && forall i | 0 <= i < |t| :: ps[i] == Kept(t[i])
  {
    seq(|t|, i requires 0 <= i < |t| => Kept(t[i]))
  }

  /** `str.replace(s, MASK)`: leftmost, non-overlapping. */
  function Replace(t: string, s: string): string
    requires s != ""
  {
    if |t| < |s| then t
    else if At(t, 0, s) then MASK + Replace(t[|s|..], s)
    else [t[0]] + Replace(t[1..], s)
  }

  /** A regular expression, reduced to how it cuts a text into kept characters and matches. */
  type Pattern = string -> seq<Piece>

  /** A pattern only cuts: the pieces make up the whole text, and no match is empty. */
  ghost predicate Cuts(p: Pattern) {
    forall t: string :: Source(p(t)) == t && forall i | 0 <= i < |p(t)| :: p(t)[i] != Hit("")
  }

  function MaskSecrets(secrets: seq<string>, t: string): string
    requires "" !in secrets
  {
    if secrets == [] then t else MaskSecrets(secrets[1..], Replace(t, secrets[0]))
  }

  function MaskPatterns(patterns: seq<Pattern>, t: string): string {
    if patterns == [] then t else MaskPatterns(patterns[1..], Output(patterns[0](t)))
  }

  function Redacted(secrets: seq<string>, patterns: seq<Pattern>, t: string): string
    requires "" !in secrets
  {
    MaskPatterns(patterns, MaskSecrets(secrets, t))
  }

  predicate LongestFirst(secrets: seq<string>) {
    forall i, j | 0 <= i < j < |secrets| :: |secrets[i]| >= |secrets[j]|
  }

  predicate Distinct(secrets: seq<string>) {
    forall i, j | 0 <= i < j < |secrets| :: secrets[i] != secrets[j]
  }

  /** Nothing but white space: such values are dropped from the secret set. */
  predicate Blank(s: string) {
    forall i | 0 <= i < |s| :: IsSpace(s[i])
  }

  class Redactor {
    const secrets: seq<string>
    const patterns: seq<Pattern>

    ghost predicate Valid() {
      Distinct(secrets) && LongestFirst(secrets) && (forall s | s in secrets :: !Blank(s))
    }

    constructor (given: seq<string>, patterns: seq<Pattern>)
      ensures Valid() && this.patterns == patterns
      ensures forall s :: s in secrets <==> s in given && exists i :: 0 <= i < |s| && !IsSpace(s[i])
    {
      var sorted: seq<string> := [];
      var n := 0;
      while n < |given|
        invariant 0 <= n <= |given|
        invariant Distinct(sorted) && LongestFirst(sorted)
        invariant forall s :: s in sorted <==> s in given[..n] && !Blank(s)
      {
        if !Blank(given[n]) && given[n] !in sorted {
          var at := 0;
          while at < |sorted| && |sorted[at]| >= |given[n]|
            invariant 0 <= at <= |sorted|
            invariant forall i | 0 <= i < at :: |sorted[i]| >= |given[n]|
          {
            at := at + 1;
          }
          InsertedInOrder(sorted, at, given[n]);
          InsertedContents(sorted, at, given[n]);
          sorted := Inserted(sorted, at, given[n]);
        }
        n := n + 1;
      }
      secrets := sorted;
      this.patterns := patterns;
    }

    method Redact(value: string) returns (text: string)
      requires Valid()
      ensures "" !in secrets && text == Redacted(secrets, patterns, value)
    {
      assert Blank("");
      text := value;
      for i := 0 to |secrets|
        invariant MaskSecrets(secrets[i..], text) == MaskSecrets(secrets, value)
      {
        assert secrets[i..][0] == secrets[i] && secrets[i..][1..] == secrets[i + 1..];
        if Occurs(secrets[i], text) {
          text := Replace(text, secrets[i]);
        } else {
          ReplaceAbsent(text, secrets[i]);
        }
      }
      for i := 0 to |patterns|
        invariant MaskPatterns(patterns[i..], text) == Redacted(secrets, patterns, value)
      {
        assert patterns[i..][0] == patterns[i] && patterns[i..][1..] == patterns[i + 1..];
        text := Output(patterns[i](text));
      }
    }
  }

  function Inserted(ss: seq<string>, at: nat, s: string): (r: seq<string>)
    requires at <= |ss|
    ensures |r| == |ss| + 1
    ensures forall i | 0 <= i < |r| :: r[i] == if i < at then ss[i] else if i == at then s else ss[i - 1]
  {
    ss[..at] + [s] + ss[at..]
  }

  /** Inserting in front of the first shorter secret keeps the longest-first order. */
  lemma InsertedInOrder(ss: seq<string>, at: nat, s: string)
    requires at <= |ss| && Distinct(ss) && LongestFirst(ss) && s !in ss
    requires forall i | 0 <= i < at :: |ss[i]| >= |s|
    requires at < |ss| ==> |ss[at]| < |s|
    ensures Distinct(Inserted(ss, at, s)) && LongestFirst(Inserted(ss, at, s))
  {
  }

  lemma InsertedContents(ss: seq<string>, at: nat, s: string)
    requires at <= |ss|
    ensures forall x :: x in Inserted(ss, at, s) <==> x in ss || x == s
  {
    var r := Inserted(ss, at, s);
    forall x | x in ss || x == s ensures x in r {
      if x == s {
        assert r[at] == s;
      } else {
        var i :| 0 <= i < |ss| && ss[i] == x;
        assert r[if i < at then i else i + 1] == x;
      }
    }
  }

  lemma {:induction false} ReplaceAbsent(t: string, s: string)
    requires s != "" && !Occurs(s, t)
    ensures Replace(t, s) == t
  {
    if |t| >= |s| {
      if At(t, 0, s) { OccursAt(s, t, 0); }
      if Occurs(s, t[1..]) {
        assert t == [t[0]] + t[1..] + "";
        OccursInPart(s, [t[0]], t[1..], "");
      }
      ReplaceAbsent(t[1..], s);
    }
  }
}
