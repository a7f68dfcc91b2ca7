/** The pattern layer, one pattern at a time: which spans each of them hides, and that no pattern is left out. */
module RedactionChain {
  import opened Redaction
  import opened RedactionSafety

  // ----- a text laid out as consecutive parts

  /** The part is what stands from `i` to `j`. */
  predicate Stands(part: string, t: string, i: nat, j: nat) {
    i <= j <= |t| && t[i..j] == part
  }

  /** The text is the parts in a row: part `k` stands from `at[k]` to `at[k + 1]`. */
  predicate Laid(parts: seq<string>, at: seq<nat>, t: string) {
    && |at| == |parts| + 1 && at[0] == 0 && at[|parts|] == |t|
    && forall k | 0 <= k < |parts| :: Stands(parts[k], t, at[k], at[k + 1])
  }

  function Flat(parts: seq<string>): string {
    if parts == [] then "" else Flat(parts[..|parts| - 1]) + parts[|parts| - 1]
  }

  lemma {:induction false} Lay(parts: seq<string>) returns (at: seq<nat>)
    ensures Laid(parts, at, Flat(parts))
  {
    if parts == [] {
      at := [0];
    } else {
      var n := |parts| - 1;
      var front := Lay(parts[..n]);
      at := front + [|Flat(parts)|];
      LaidLast(parts, front, Flat(parts[..n]));
    }
  }

  lemma LaidLast(parts: seq<string>, at: seq<nat>, t: string)
    requires parts != [] && Laid(parts[..|parts| - 1], at, t)
    ensures Laid(parts, at + [|t| + |parts[|parts| - 1]|], t + parts[|parts| - 1])
  {
    var n := |parts| - 1;
    var u, more := t + parts[n], at + [|t| + |parts[n]|];
    forall k | 0 <= k < |parts| ensures Stands(parts[k], u, more[k], more[k + 1]) {
      if k < n {
        assert Stands(parts[..n][k], t, at[k], at[k + 1]);
        StandsStill(parts[k], t, parts[n], at[k], at[k + 1]);
      }
    }
  }

  lemma StandsStill(part: string, t: string, more: string, i: nat, j: nat)
    requires Stands(part, t, i, j)
    ensures Stands(part, t + more, i, j)
  {
    assert (t + more)[i..j] == t[i..j];
  }

  /** A text that is laid out as these parts is nothing else. */
  lemma {:induction false} LaidIsFlat(parts: seq<string>, at: seq<nat>, t: string, n: nat)
    requires Laid(parts, at, t) && n <= |parts|
    ensures at[n] <= |t| && t[..at[n]] == Flat(parts[..n])
  {
    if n > 0 {
      LaidIsFlat(parts, at, t, n - 1);
      assert parts[..n][..n - 1] == parts[..n - 1];
      assert t[..at[n]] == t[..at[n - 1]] + t[at[n - 1]..at[n]];
    }
  }

  // ----- one pattern

  /** What a piece is cut from, and what is shown of it. */
  function Before(p: Piece): string {
    match p
    case Kept(c) => [c]
    case Hit(span) => span
  }

  function After(p: Piece): string {
    match p
    case Kept(c) => [c]
    case Hit(_) => "[REDACTED]"
  }

  function PartsBefore(ps: seq<Piece>): (parts: seq<string>)
    ensures |parts| == |ps| && forall k | 0 <= k < |ps| :: parts[k] == Before(ps[k])
  {
    seq(|ps|, k requires 0 <= k < |ps| => Before(ps[k]))
  }

  function PartsAfter(ps: seq<Piece>): (parts: seq<string>)
    ensures |parts| == |ps| && forall k | 0 <= k < |ps| :: parts[k] == After(ps[k])
  {
    seq(|ps|, k requires 0 <= k < |ps| => After(ps[k]))
  }

  lemma {:induction false} PartsAreFlat(ps: seq<Piece>)
    ensures Flat(PartsBefore(ps)) == Source(ps) && Flat(PartsAfter(ps)) == Output(ps)
  {
    if ps != [] {
      var front, p := ps[..|ps| - 1], ps[|ps| - 1];
      PartsAreFlat(front);
      assert ps == front + [p];
      SourceConcat(front, [p]);
      OutputConcat(front, [p]);
      OnePiece(p);
      assert PartsBefore(ps)[..|ps| - 1] == PartsBefore(front) && PartsAfter(ps)[..|ps| - 1] == PartsAfter(front);
    }
  }

  lemma OnePiece(p: Piece)
    ensures Source([p]) == Before(p) && Output([p]) == After(p)
  {
    assert [p][1..] == [];
    assert Before(p) + "" == Before(p) && After(p) + "" == After(p);
  }

  /**
   * `after` is `before` with exactly the spans that the pattern cuts from it shown as the mask:
   * piece `k` stands at `from[k]` in the one and at `at[k]` in the other.
   */
  predicate Hides(p: Pattern, before: string, from: seq<nat>, after: string, at: seq<nat>) {
    Laid(PartsBefore(p(before)), from, before) && Laid(PartsAfter(p(before)), at, after)
  }

  ghost predicate Link(p: Pattern, before: string, after: string) {
    exists from, at :: Hides(p, before, from, after, at)
  }

  lemma OutputIsLink(p: Pattern, t: string)
    requires Source(p(t)) == t
    ensures Link(p, t, Output(p(t)))
  {
    PartsAreFlat(p(t));
    var from := Lay(PartsBefore(p(t)));
    var at := Lay(PartsAfter(p(t)));
    assert Hides(p, t, from, Output(p(t)), at);
  }

  lemma LinkIsOutput(p: Pattern, t: string, u: string)
    requires Link(p, t, u)
    ensures u == Output(p(t))
  {
    var from, at :| Hides(p, t, from, u, at);
    var parts := PartsAfter(p(t));
    LaidIsFlat(parts, at, u, |parts|);
    assert parts[..|parts|] == parts && u[..|u|] == u;
    PartsAreFlat(p(t));
  }

  // ----- all patterns

  /** One link for each pattern, in order. */
  ghost predicate Chain(patterns: seq<Pattern>, chain: seq<string>) {
    && |chain| == |patterns| + 1
    && forall i | 0 <= i < |patterns| :: Link(patterns[i], chain[i], chain[i + 1])
  }

  lemma ChainFront(p: Pattern, patterns: seq<Pattern>, t: string, chain: seq<string>)
    requires Chain(patterns, chain) && Link(p, t, chain[0])
    ensures Chain([p] + patterns, [t] + chain)
  {
    forall i | 0 <= i < |patterns| + 1 ensures Link(([p] + patterns)[i], ([t] + chain)[i], ([t] + chain)[i + 1]) {
      if i > 0 { assert Link(patterns[i - 1], chain[i - 1], chain[i]); }
    }
  }

  lemma {:induction false} PatternsChain(patterns: seq<Pattern>, t: string) returns (chain: seq<string>)
    requires forall p | p in patterns :: Cuts(p)
    ensures Chain(patterns, chain) && chain[0] == t && chain[|patterns|] == MaskPatterns(patterns, t)
  {
    if patterns == [] {
      chain := [t];
    } else {
      assert Cuts(patterns[0]);
      OutputIsLink(patterns[0], t);
      var rest := PatternsChain(patterns[1..], Output(patterns[0](t)));
      ChainFront(patterns[0], patterns[1..], t, rest);
      assert patterns == [patterns[0]] + patterns[1..];
      chain := [t] + rest;
    }
  }

  lemma {:induction false} ChainDecides(patterns: seq<Pattern>, chain: seq<string>)
    requires Chain(patterns, chain)
    ensures chain[|patterns|] == MaskPatterns(patterns, chain[0])
  {
    if patterns != [] {
      LinkIsOutput(patterns[0], chain[0], chain[1]);
      assert Chain(patterns[1..], chain[1..]);
      ChainDecides(patterns[1..], chain[1..]);
    }
  }

  /**
   * Redaction goes from the text with its secrets replaced to the output by one link for each
   * pattern in order, and nowhere else.
   */
  lemma RedactedIsChain(secrets: seq<string>, patterns: seq<Pattern>, t: string, out: string)
    requires "" !in secrets && forall p | p in patterns :: Cuts(p)
    ensures out == Redacted(secrets, patterns, t)
       <==> exists chain :: Chain(patterns, chain) && chain[0] == MaskSecrets(secrets, t) && chain[|patterns|] == out
  {
    var links := PatternsChain(patterns, MaskSecrets(secrets, t));
    if chain :| Chain(patterns, chain) && chain[0] == MaskSecrets(secrets, t) && chain[|patterns|] == out {
      ChainDecides(patterns, chain);
    }
  }

  // ----- no pattern is left out

  lemma QuietLink(p: Pattern, t: string, u: string)
    requires Link(p, t, u) && p(t) == Letters(t)
    ensures u == t
  {
    LinkIsOutput(p, t, u);
    LettersOf(t);
  }

  /** Along patterns that find nothing the text stays the same. */
  lemma {:induction false} QuietChain(patterns: seq<Pattern>, chain: seq<string>, i: nat, j: nat)
    requires Chain(patterns, chain) && i <= j <= |patterns|
    requires forall k | i <= k < j :: patterns[k](chain[i]) == Letters(chain[i])
    ensures chain[j] == chain[i]
    decreases j
  {
    if i < j {
      QuietChain(patterns, chain, i, j - 1);
      QuietLink(patterns[j - 1], chain[j - 1], chain[j]);
    }
  }

  /**
   * Whatever place a pattern has in the list: if the others find nothing in the text before it and
   * after it, every span it cuts is shown as the mask, and the rest is kept.
   */
  lemma EveryPatternHides(secrets: seq<string>, patterns: seq<Pattern>, t: string, i: nat)
    requires "" !in secrets && i < |patterns| && forall p | p in patterns :: Cuts(p)
    requires forall k | 0 <= k < i :: patterns[k](MaskSecrets(secrets, t)) == Letters(MaskSecrets(secrets, t))
    requires forall u | Link(patterns[i], MaskSecrets(secrets, t), u) ::
      forall k | i < k < |patterns| :: patterns[k](u) == Letters(u)
    ensures Link(patterns[i], MaskSecrets(secrets, t), Redacted(secrets, patterns, t))
  {
    var chain := PatternsChain(patterns, MaskSecrets(secrets, t));
    QuietChain(patterns, chain, 0, i);
    assert Link(patterns[i], chain[i], chain[i + 1]);
    QuietChain(patterns, chain, i + 1, |patterns|);
  }
}
