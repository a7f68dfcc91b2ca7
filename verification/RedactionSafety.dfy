/** No secret survives redaction, and exactly which secret sets make that true. */
module RedactionSafety {
  import opened Text
  import opened Redaction

  /**
   * `s` and the mask cannot share text: neither contains the other and no end of one is a
   * beginning of the other.
   */
  predicate MaskDisjoint(s: string) {
    && s != "" && !Occurs(s, MASK) && !Occurs(MASK, s)
    && forall k | 0 < k < |s| && k < |MASK| ::
         s[|s| - k..] != MASK[..k] && MASK[|MASK| - k..] != s[..k]
  }

  ghost predicate AllDisjoint(secrets: seq<string>) {
    "" !in secrets && forall s | s in secrets :: MaskDisjoint(s)
  }

  /** `s` stands at piece `i`, in kept characters only. */
  predicate PieceAt(ps: seq<Piece>, i: nat, s: string) {
    i + |s| <= |ps| && forall k | 0 <= k < |s| :: ps[i + k] == Kept(s[k])
  }

  /** One replacement, at the level of pieces: earlier masks are never matched. */
  function Mark(ps: seq<Piece>, s: string): seq<Piece>
    requires s != ""
  {
    if ps == [] then []
    else if PieceAt(ps, 0, s) then [Hit(s)] + Mark(ps[|s|..], s)
    else [ps[0]] + Mark(ps[1..], s)
  }

  lemma LettersOf(t: string)
    ensures Output(Letters(t)) == t && Source(Letters(t)) == t
  {
    if t != "" {
      assert Letters(t)[1..] == Letters(t[1..]);
      LettersOf(t[1..]);
    }
  }

  // ----- a mask-disjoint string is only ever found in kept characters

  lemma NotInsideMask(s: string, rest: string, p: nat)
    requires MaskDisjoint(s) && p < |MASK|
    ensures !At(MASK + rest, p, s)
  {
    var t := MASK + rest;
    if p + |s| <= |MASK| {
      assert t[p..p + |s|] == MASK[p..p + |s|];
      assert !At(MASK, p, s);
    } else if p + |s| <= |t| && p == 0 {
      assert t[0..|s|][..|MASK|] == MASK;
      assert !At(s, 0, MASK) && s[0..|MASK|] == s[..|MASK|];
    } else if p + |s| <= |t| {
      SliceOfSlice(t, p, p + |s|, |MASK| - p);
      assert t[p..|MASK|] == MASK[p..];
      assert MASK[|MASK| - (|MASK| - p)..] != s[..|MASK| - p];
    }
  }

  lemma SliceOfSlice(t: string, i: nat, j: nat, n: nat)
    requires i <= j <= |t| && n <= j - i
    ensures t[i..j][..n] == t[i..i + n]
  {
  }

  lemma NotAcrossMask(s: string, rest: string, k: nat)
    requires MaskDisjoint(s) && k < |s|
    ensures !At(MASK + rest, 0, s[k..])
  {
    var t, n := MASK + rest, |s| - k;
    assert s[0..] == s;
    NotInsideMask(s, rest, 0);
    if 0 < k && n < |MASK| {
      assert n <= |t| && t[0..n] == MASK[..n];
      assert s[|s| - n..] != MASK[..n];
    } else if 0 < k && n <= |t| {
      SliceOfSlice(t, 0, n, |MASK|);
      assert t[0..|MASK|] == MASK;
      assert !At(s, k, MASK);
      SliceOfSlice(s, k, |s|, |MASK|);
    }
  }

  /** If what is left of `s` after `k` characters begins the output, those pieces are kept characters. */
  lemma {:induction false} RestIsKept(ps: seq<Piece>, s: string, k: nat)
    requires MaskDisjoint(s) && k <= |s| && At(Output(ps), 0, s[k..])
    ensures PieceAt(ps, 0, s[k..])
    decreases |s| - k
  {
    if k < |s| {
      var rest := Output(ps[1..]);
      match ps[0]
      case Kept(c) =>
        assert Output(ps) == [c] + rest;
        assert s[k..][1..] == s[k + 1..];
        assert rest[..|s| - k - 1] == Output(ps)[..|s| - k][1..] == s[k..][1..];
        RestIsKept(ps[1..], s, k + 1);
        assert PieceAt(ps[1..], 0, s[k + 1..]);
        forall j | 0 <= j < |s[k..]| ensures ps[0 + j] == Kept(s[k..][j]) {
          if j > 0 { assert ps[1..][0 + (j - 1)] == Kept(s[k + 1..][j - 1]); }
        }
      case Hit(_) =>
        assert Output(ps) == MASK + rest;
        NotAcrossMask(s, rest, k);
        assert false;
    }
  }

  /** Where a mask-disjoint string is shown, it is made of consecutive kept characters. */
  lemma {:induction false} ShownIsKept(ps: seq<Piece>, s: string, p: nat) returns (i: nat)
    requires MaskDisjoint(s) && At(Output(ps), p, s)
    ensures PieceAt(ps, i, s)
    ensures p == 0 ==> i == 0
    decreases |ps|
  {
    if p == 0 {
      assert s[0..] == s;
      RestIsKept(ps, s, 0);
      return 0;
    }
    assert ps != [];
    var rest := Output(ps[1..]);
    var w := |Output(ps)| - |rest|;
    if ps[0].Hit? && p < w {
      NotInsideMask(s, rest, p);
      assert false;
    } else {
      assert Output(ps) == Output(ps)[..w] + rest;
      AtShift(Output(ps)[..w], rest, p - w, s);
      i := ShownIsKept(ps[1..], s, p - w);
      PieceShift(ps[..1], ps[1..], i, s);
      assert ps == ps[..1] + ps[1..];
      i := i + 1;
    }
  }

  /** Kept characters are shown: a run at the front of the pieces begins the output. */
  lemma {:induction false} KeptIsShown(ps: seq<Piece>, n: nat)
    requires n <= |ps| && forall k | 0 <= k < n :: ps[k].Kept?
    ensures Output(ps) == seq(n, k requires 0 <= k < n => ps[k].c) + Output(ps[n..])
    ensures Source(ps) == seq(n, k requires 0 <= k < n => ps[k].c) + Source(ps[n..])
  {
    if n > 0 {
      KeptIsShown(ps[1..], n - 1);
      assert ps[1..][n - 1..] == ps[n..];
      assert [ps[0].c] + seq(n - 1, k requires 0 <= k < n - 1 => ps[1..][k].c)
          == seq(n, k requires 0 <= k < n => ps[k].c);
    }
  }

  lemma PieceIsShown(ps: seq<Piece>, s: string)
    requires PieceAt(ps, 0, s)
    ensures Output(ps) == s + Output(ps[|s|..]) && Source(ps) == s + Source(ps[|s|..])
  {
    forall k | 0 <= k < |s| ensures ps[k].Kept? { assert ps[0 + k] == Kept(s[k]); }
    KeptIsShown(ps, |s|);
    assert seq(|s|, k requires 0 <= k < |s| => ps[k].c) == s by {
      forall k | 0 <= k < |s| ensures ps[k].c == s[k] { assert ps[0 + k] == Kept(s[k]); }
    }
  }

  // ----- text replacement is piece marking

  lemma ReplaceAfter(c: char, u: string, s: string)
    requires s != "" && !At([c] + u, 0, s)
    ensures Replace([c] + u, s) == [c] + Replace(u, s)
  {
    assert ([c] + u)[1..] == u;
    if |[c] + u| < |s| { assert Replace(u, s) == u; }
  }

  lemma {:induction false} ReplaceSkips(a: string, b: string, s: string)
    requires s != "" && forall p | 0 <= p < |a| :: !At(a + b, p, s)
    ensures Replace(a + b, s) == a + Replace(b, s)
  {
    if a == "" {
      assert a + b == b;
    } else {
      var c, rest := a[0], a[1..];
      assert a == [c] + rest;
      assert a + b == [c] + (rest + b);
      forall p | 0 <= p < |rest| ensures !At(rest + b, p, s) {
        AtShift([c], rest + b, p, s);
      }
      ReplaceSkips(rest, b, s);
      ReplaceAfter(c, rest + b, s);
      Prepended(c, rest, Replace(b, s));
    }
  }

  lemma Prepended(c: char, x: string, y: string)
    ensures [c] + (x + y) == ([c] + x) + y
  {
  }

  /**
   * `str.replace` never touches a mask that is already there: on mask-disjoint secrets it
   * does to the text exactly what `Mark` does to the pieces.
   */
  lemma {:induction false} ReplaceIsMark(ps: seq<Piece>, s: string)
    requires MaskDisjoint(s)
    ensures Replace(Output(ps), s) == Output(Mark(ps, s))
    ensures Source(Mark(ps, s)) == Source(ps)
    decreases |ps|
  {
    if ps == [] {
    } else if PieceAt(ps, 0, s) {
      PieceIsShown(ps, s);
      assert (s + Output(ps[|s|..]))[|s|..] == Output(ps[|s|..]);
      assert At(Output(ps), 0, s);
      ReplaceIsMark(ps[|s|..], s);
      assert ([Hit(s)] + Mark(ps[|s|..], s))[1..] == Mark(ps[|s|..], s);
    } else {
      var rest := Output(ps[1..]);
      var head := if ps[0].Kept? then [ps[0].c] else MASK;
      assert Output(ps) == head + rest;
      forall p | 0 <= p < |head| ensures !At(head + rest, p, s) {
        if ps[0].Hit? {
          NotInsideMask(s, rest, p);
        } else if At(head + rest, p, s) {
          assert p == 0;
          var i := ShownIsKept(ps, s, p);
        }
      }
      ReplaceSkips(head, rest, s);
      ReplaceIsMark(ps[1..], s);
      assert ([ps[0]] + Mark(ps[1..], s))[1..] == Mark(ps[1..], s);
    }
  }

  // ----- marking removes its own secret and creates none

  /** Kept characters at the front of a marking were the front of the pieces. */
  lemma {:induction false} MarkKeepsFront(ps: seq<Piece>, s: string, n: nat)
    requires s != "" && n <= |Mark(ps, s)| && forall k | 0 <= k < n :: Mark(ps, s)[k].Kept?
    ensures n <= |ps| && Mark(ps, s)[..n] == ps[..n]
  {
    if n > 0 {
      var m := Mark(ps, s);
      assert m[0].Kept?;
      assert m == [ps[0]] + Mark(ps[1..], s);
      forall k | 0 <= k < n - 1 ensures Mark(ps[1..], s)[k].Kept? {
        assert Mark(ps[1..], s)[k] == m[k + 1];
      }
      MarkKeepsFront(ps[1..], s, n - 1);
      assert m[..n] == [ps[0]] + Mark(ps[1..], s)[..n - 1];
      assert ps[..n] == [ps[0]] + ps[1..][..n - 1];
    }
  }

  lemma MarkedAtFront(ps: seq<Piece>, s: string, u: string)
    requires s != "" && PieceAt(Mark(ps, s), 0, u)
    ensures PieceAt(ps, 0, u)
  {
    var m := Mark(ps, s);
    forall k | 0 <= k < |u| ensures m[k].Kept? { assert m[0 + k] == Kept(u[k]); }
    MarkKeepsFront(ps, s, |u|);
    forall k | 0 <= k < |u| ensures ps[0 + k] == Kept(u[k]) {
      assert m[..|u|][k] == ps[..|u|][k];
      assert m[0 + k] == Kept(u[k]);
    }
  }

  lemma PieceShift(a: seq<Piece>, b: seq<Piece>, i: nat, u: string)
    ensures PieceAt(a + b, |a| + i, u) <==> PieceAt(b, i, u)
  {
    if PieceAt(a + b, |a| + i, u) {
      forall k | 0 <= k < |u| ensures b[i + k] == Kept(u[k]) {
        assert (a + b)[|a| + i + k] == Kept(u[k]);
      }
    }
    if PieceAt(b, i, u) {
      forall k | 0 <= k < |u| ensures (a + b)[|a| + i + k] == Kept(u[k]) {
        assert b[i + k] == Kept(u[k]);
      }
    }
  }

  /** Anything found in the marking was there before. */
  lemma {:induction false} MarkCreatesNothing(ps: seq<Piece>, s: string, u: string, i: nat) returns (j: nat)
    requires s != "" && u != "" && PieceAt(Mark(ps, s), i, u)
    ensures PieceAt(ps, j, u)
    decreases |ps|
  {
    if i == 0 {
      MarkedAtFront(ps, s, u);
      return 0;
    }
    assert ps != [];
    var n := if PieceAt(ps, 0, s) then |s| else 1;
    var m := Mark(ps[n..], s);
    assert Mark(ps, s) == [Mark(ps, s)[0]] + m;
    PieceShift([Mark(ps, s)[0]], m, i - 1, u);
    j := MarkCreatesNothing(ps[n..], s, u, i - 1);
    PieceShift(ps[..n], ps[n..], j, u);
    assert ps == ps[..n] + ps[n..];
    j := n + j;
  }

  lemma {:induction false} MarkRemoves(ps: seq<Piece>, s: string, i: nat)
    requires s != ""
    ensures !PieceAt(Mark(ps, s), i, s)
    decreases |ps|
  {
    if PieceAt(Mark(ps, s), i, s) {
      if i == 0 {
        assert Mark(ps, s)[0 + 0] == Kept(s[0]);
        MarkedAtFront(ps, s, s);
        assert false;
      } else {
        var n := if PieceAt(ps, 0, s) then |s| else 1;
        var m := Mark(ps[n..], s);
        assert Mark(ps, s) == [Mark(ps, s)[0]] + m;
        PieceShift([Mark(ps, s)[0]], m, i - 1, s);
        MarkRemoves(ps[n..], s, i - 1);
      }
    }
  }

  // ----- the text-level consequences

  /** Masking any set of spans of a text cannot make a mask-disjoint string appear. */
  lemma MaskingCreatesNothing(ps: seq<Piece>, u: string)
    requires MaskDisjoint(u) && Occurs(u, Output(ps))
    ensures Occurs(u, Source(ps))
  {
    var p: nat :| p <= |Output(ps)| && At(Output(ps), p, u);
    var i := ShownIsKept(ps, u, p);
    SourceOfKept(ps, i, u);
  }

  lemma {:induction false} SourceOfKept(ps: seq<Piece>, i: nat, u: string)
    requires PieceAt(ps, i, u)
    ensures Occurs(u, Source(ps))
  {
    if i == 0 {
      PieceIsShown(ps, u);
      OccursAt(u, Source(ps), 0);
    } else {
      PieceShift(ps[..1], ps[1..], i - 1, u);
      assert ps == ps[..1] + ps[1..];
      SourceOfKept(ps[1..], i - 1, u);
      var w := |Source(ps)| - |Source(ps[1..])|;
      assert Source(ps) == Source(ps)[..w] + Source(ps[1..]) + "";
      OccursInPart(u, Source(ps)[..w], Source(ps[1..]), "");
    }
  }

  lemma LettersAt(t: string, s: string)
    requires PieceAt(Letters(t), 0, s)
    ensures At(t, 0, s)
  {
    forall k | 0 <= k < |s| ensures t[k] == s[k] { assert Letters(t)[0 + k] == Kept(s[k]); }
    assert t[0..|s|] == s;
  }

  /** Any replacement only masks spans of the text it is given, whatever is in it already. */
  lemma {:induction false} ReplaceCuts(t: string, s: string)
    requires s != ""
    ensures Replace(t, s) == Output(Mark(Letters(t), s)) && Source(Mark(Letters(t), s)) == t
  {
    var ps := Letters(t);
    if t != "" {
      var n := if At(t, 0, s) then |s| else 1;
      assert ps[n..] == Letters(t[n..]);
      ReplaceCuts(t[n..], s);
      if At(t, 0, s) {
        forall k | 0 <= k < |s| ensures ps[0 + k] == Kept(s[k]) { assert t[0..|s|][k] == t[k]; }
        assert t == s + t[n..];
      } else {
        if PieceAt(ps, 0, s) { LettersAt(t, s); }
        assert t == [t[0]] + t[1..];
      }
    }
  }

  lemma ReplaceCreatesNothing(t: string, s: string, u: string)
    requires s != "" && MaskDisjoint(u) && Occurs(u, Replace(t, s))
    ensures Occurs(u, t)
  {
    ReplaceCuts(t, s);
    MaskingCreatesNothing(Mark(Letters(t), s), u);
  }

  lemma ReplaceRemoves(t: string, s: string)
    requires MaskDisjoint(s)
    ensures !Occurs(s, Replace(t, s))
  {
    LettersOf(t);
    ReplaceIsMark(Letters(t), s);
    var r := Replace(t, s);
    if Occurs(s, r) {
      var p: nat :| p <= |r| && At(r, p, s);
      var i := ShownIsKept(Mark(Letters(t), s), s, p);
      MarkRemoves(Letters(t), s, i);
    }
  }

  lemma {:induction false} SecretsCreateNothing(secrets: seq<string>, t: string, u: string)
    requires MaskDisjoint(u) && "" !in secrets && Occurs(u, MaskSecrets(secrets, t))
    ensures Occurs(u, t)
  {
    if secrets != [] {
      SecretsCreateNothing(secrets[1..], Replace(t, secrets[0]), u);
      ReplaceCreatesNothing(t, secrets[0], u);
    }
  }

  lemma {:induction false} SecretsAreMasked(secrets: seq<string>, t: string, i: nat)
    requires i < |secrets| && "" !in secrets && MaskDisjoint(secrets[i])
    ensures !Occurs(secrets[i], MaskSecrets(secrets, t))
  {
    var t1 := Replace(t, secrets[0]);
    if i > 0 {
      SecretsAreMasked(secrets[1..], t1, i - 1);
    } else {
      ReplaceRemoves(t, secrets[0]);
      if Occurs(secrets[0], MaskSecrets(secrets[1..], t1)) {
        SecretsCreateNothing(secrets[1..], t1, secrets[0]);
      }
    }
  }

  lemma {:induction false} PatternsCreateNothing(patterns: seq<Pattern>, t: string, u: string)
    requires MaskDisjoint(u) && forall p | p in patterns :: Cuts(p)
    requires Occurs(u, MaskPatterns(patterns, t))
    ensures Occurs(u, t)
  {
    if patterns != [] {
      assert Cuts(patterns[0]);
      PatternsCreateNothing(patterns[1..], Output(patterns[0](t)), u);
      MaskingCreatesNothing(patterns[0](t), u);
    }
  }

  /** A mask-disjoint secret never survives, whatever the other secrets are. */
  lemma DisjointNeverSurvives(secrets: seq<string>, patterns: seq<Pattern>, t: string, s: string)
    requires "" !in secrets && s in secrets && MaskDisjoint(s) && forall p | p in patterns :: Cuts(p)
    ensures !Occurs(s, Redacted(secrets, patterns, t))
  {
    var i :| 0 <= i < |secrets| && secrets[i] == s;
    SecretsAreMasked(secrets, t, i);
    if Occurs(s, Redacted(secrets, patterns, t)) {
      PatternsCreateNothing(patterns, MaskSecrets(secrets, t), s);
    }
  }

  /** A secret that contains no other secret. */
  predicate Minimal(secrets: seq<string>, s: string) {
    s in secrets && forall u | u in secrets && Occurs(u, s) :: u == s
  }

  /** The smallest secrets share no text with the mask; what contains one of them may do as it likes. */
  predicate CoreDisjoint(secrets: seq<string>) {
    "" !in secrets && forall s | s in secrets && Minimal(secrets, s) :: MaskDisjoint(s)
  }

  lemma OccursIsShorter(u: string, s: string)
    requires Occurs(u, s)
    ensures |u| <= |s| && (|u| == |s| ==> u == s)
  {
    var i: nat :| i <= |s| && At(s, i, u);
    if |u| == |s| { assert s[0..|s|] == s; }
  }

  lemma {:induction false} ContainsMinimal(secrets: seq<string>, s: string) returns (u: string)
    requires s in secrets
    ensures Minimal(secrets, u) && Occurs(u, s)
    decreases |s|
  {
    if Minimal(secrets, s) {
      u := s;
      WholeOccurs(s);
    } else {
      var v :| v in secrets && Occurs(v, s) && v != s;
      OccursIsShorter(v, s);
      u := ContainsMinimal(secrets, v);
      OccursTransitive(u, v, s);
    }
  }

  /** No secret survives, however the secrets overlap one another. */
  lemma NoSecretSurvives(secrets: seq<string>, patterns: seq<Pattern>, t: string, s: string)
    requires s in secrets && CoreDisjoint(secrets) && forall p | p in patterns :: Cuts(p)
    ensures !Occurs(s, Redacted(secrets, patterns, t))
  {
    var u := ContainsMinimal(secrets, s);
    DisjointNeverSurvives(secrets, patterns, t, u);
    if Occurs(s, Redacted(secrets, patterns, t)) { OccursTransitive(u, s, Redacted(secrets, patterns, t)); }
  }

  // ----- exactly which secret sets are safe

  /** The redactor's promise: no text comes out with a secret in it, whatever spans the patterns match. */
  ghost predicate Safe(secrets: seq<string>) {
    "" !in secrets
    && forall patterns: seq<Pattern>, t: string, s | s in secrets && (forall p | p in patterns :: Cuts(p)) ::
         !Occurs(s, Redacted(secrets, patterns, t))
  }

  /** A non-empty string that is not mask-disjoint is made of two ends and a part of the mask between them. */
  lemma SharesWithMask(s: string) returns (a: string, b: string)
    requires s != "" && !MaskDisjoint(s)
    ensures Occurs(s, a + MASK + b) && |a| < |s| && |b| < |s|
    ensures Occurs(a, s) && Occurs(b, s)
  {
    if Occurs(s, MASK) {
      a, b := "", "";
      OccursAt("", s, 0);
      OccursInPart(s, a, MASK, b);
    } else if Occurs(MASK, s) {
      var i: nat :| i <= |s| && At(s, i, MASK);
      a, b := s[..i], s[i + |MASK|..];
      EndsOccur(s, i, i + |MASK|);
      WholeOccurs(s);
      assert a + MASK + b == s;
    } else {
      var k :| 0 < k < |s| && k < |MASK| && (s[|s| - k..] == MASK[..k] || MASK[|MASK| - k..] == s[..k]);
      a, b := SharedEnds(s, MASK, k);
    }
  }

  lemma SharedEnds(s: string, m: string, k: nat) returns (a: string, b: string)
    requires 0 < k < |s| && k < |m| && (s[|s| - k..] == m[..k] || m[|m| - k..] == s[..k])
    ensures Occurs(s, a + m + b) && |a| < |s| && |b| < |s|
    ensures Occurs(a, s) && Occurs(b, s)
  {
    OccursAt("", s, 0);
    if s[|s| - k..] == m[..k] {
      a, b := s[..|s| - k], "";
      EndsOccur(s, |s| - k, |s|);
      assert (a + m + b)[0..|s|] == a + m[..k] == s;
      OccursAt(s, a + m + b, 0);
    } else {
      a, b := "", s[k..];
      EndsOccur(s, 0, k);
      assert (a + m + b)[|m| - k..|m| - k + |s|] == m[|m| - k..] + b == s;
      OccursAt(s, a + m + b, |m| - k);
    }
  }

  lemma EndsOccur(s: string, i: nat, j: nat)
    requires i <= j <= |s|
    ensures Occurs(s[..i], s) && Occurs(s[j..], s)
  {
    OccursAt(s[..i], s, 0);
    OccursAt(s[j..], s, j);
  }

  /** A string of a concatenation that avoids the character in the middle is in one of the ends. */
  lemma AroundFresh(u: string, a: string, z: char, b: string)
    requires z !in u && Occurs(u, a + [z] + b)
    ensures Occurs(u, a) || Occurs(u, b)
  {
    var t := a + [z] + b;
    var i: nat :| i <= |t| && At(t, i, u);
    if i + |u| <= |a| {
      assert a[i..i + |u|] == t[i..i + |u|];
      OccursAt(u, a, i);
    } else if i > |a| {
      var j := i - |a| - 1;
      AtShift(a + [z], b, j, u);
      OccursAt(u, b, j);
    } else {
      MiddleIsIn(t, i, u, |a|);
    }
  }

  lemma MiddleIsIn(t: string, i: nat, u: string, k: nat)
    requires At(t, i, u) && i <= k < i + |u|
    ensures t[k] in u
  {
    assert t[i..i + |u|][k - i] == t[k];
  }

  lemma {:induction false} Untouched(secrets: seq<string>, t: string)
    requires "" !in secrets && forall u | u in secrets :: !Occurs(u, t)
    ensures MaskSecrets(secrets, t) == t
  {
    if secrets != [] {
      ReplaceAbsent(t, secrets[0]);
      Untouched(secrets[1..], t);
    }
  }

  /** A pattern that masks the middle of one text and nothing else. */
  function OnlyIn(a: string, z: char, b: string): Pattern {
    (t: string) => if t == a + [z] + b then Letters(a) + [Hit([z])] + Letters(b) else Letters(t)
  }

  lemma {:induction false} SourceConcat(p: seq<Piece>, q: seq<Piece>)
    ensures Source(p + q) == Source(p) + Source(q)
  {
    if p == [] {
      assert p + q == q;
    } else {
      var r := p + q;
      assert r[0] == p[0] && r[1..] == p[1..] + q;
      SourceConcat(p[1..], q);
    }
  }

  lemma {:induction false} OutputConcat(p: seq<Piece>, q: seq<Piece>)
    ensures Output(p + q) == Output(p) + Output(q)
  {
    if p == [] {
      assert p + q == q;
    } else {
      var r := p + q;
      assert r[0] == p[0] && r[1..] == p[1..] + q;
      OutputConcat(p[1..], q);
    }
  }

  lemma OnlyInCuts(a: string, z: char, b: string)
    ensures Cuts(OnlyIn(a, z, b)) && Output(OnlyIn(a, z, b)(a + [z] + b)) == a + MASK + b
  {
    forall t: string ensures Source(Letters(t)) == t == Output(Letters(t)) { LettersOf(t); }
    SourceConcat(Letters(a) + [Hit([z])], Letters(b));
    SourceConcat(Letters(a), [Hit([z])]);
    OutputConcat(Letters(a) + [Hit([z])], Letters(b));
    OutputConcat(Letters(a), [Hit([z])]);
    assert Source([Hit([z])]) == [z] && Output([Hit([z])]) == MASK;
  }

  /** One secret that contains no other and shares text with the mask is enough for a leak. */
  lemma SharedLeaks(secrets: seq<string>, s: string, z: char) returns (patterns: seq<Pattern>, t: string)
    requires "" !in secrets && Minimal(secrets, s) && !MaskDisjoint(s) && forall u | u in secrets :: z !in u
    ensures (forall p | p in patterns :: Cuts(p)) && Occurs(s, Redacted(secrets, patterns, t))
  {
    var a, b := SharesWithMask(s);
    t, patterns := a + [z] + b, [OnlyIn(a, z, b)];
    forall u | u in secrets ensures !Occurs(u, t) {
      if Occurs(u, t) {
        AroundFresh(u, a, z, b);
        var end := if Occurs(u, a) then a else b;
        OccursTransitive(u, end, s);
        OccursIsShorter(u, end);
      }
    }
    Untouched(secrets, t);
    OnlyInCuts(a, z, b);
    assert MaskPatterns(patterns, t) == MaskPatterns([], Output(patterns[0](t)));
  }

  /**
   * The redactor's promise, decided for every set of secrets that leaves some character
   * unused: it holds exactly when no smallest secret shares text with the mask.
   */
  lemma SafeIff(secrets: seq<string>, z: char)
    requires "" !in secrets && forall s | s in secrets :: z !in s
    ensures Safe(secrets) <==> CoreDisjoint(secrets)
  {
    if CoreDisjoint(secrets) {
      forall patterns: seq<Pattern>, t: string, s | s in secrets && (forall p | p in patterns :: Cuts(p))
        ensures !Occurs(s, Redacted(secrets, patterns, t))
      {
        NoSecretSurvives(secrets, patterns, t, s);
      }
    } else {
      var s :| s in secrets && Minimal(secrets, s) && !MaskDisjoint(s);
      var patterns, t := SharedLeaks(secrets, s, z);
    }
  }

  // ----- when the mask itself spells a secret

  lemma {:induction false} MaskShown(ps: seq<Piece>, i: nat)
    requires i < |ps| && ps[i].Hit?
    ensures Occurs(MASK, Output(ps))
  {
    var w := |Output(ps)| - |Output(ps[1..])|;
    if i == 0 {
      assert Output(ps)[0..|MASK|] == MASK;
      OccursAt(MASK, Output(ps), 0);
    } else {
      MaskShown(ps[1..], i - 1);
      assert Output(ps) == Output(ps)[..w] + Output(ps[1..]) + "";
      OccursInPart(MASK, Output(ps)[..w], Output(ps[1..]), "");
    }
  }

  lemma {:induction false} AllKept(ps: seq<Piece>)
    requires forall i | 0 <= i < |ps| :: ps[i].Kept?
    ensures Output(ps) == Source(ps)
  {
    if ps != [] { AllKept(ps[1..]); }
  }

  /** A replacement that finds its secret shows the mask. */
  lemma {:induction false} ReplaceShowsMask(t: string, s: string)
    requires s != "" && Occurs(s, t)
    ensures Occurs(MASK, Replace(t, s))
  {
    if At(t, 0, s) {
      var rest := Replace(t[|s|..], s);
      assert (MASK + rest)[0..|MASK|] == MASK;
      OccursAt(MASK, MASK + rest, 0);
    } else {
      var i: nat :| i <= |t| && At(t, i, s);
      assert t[1..][i - 1..i - 1 + |s|] == t[i..i + |s|];
      OccursAt(s, t[1..], i - 1);
      ReplaceShowsMask(t[1..], s);
      assert Replace(t, s) == [t[0]] + Replace(t[1..], s) + "";
      OccursInPart(MASK, [t[0]], Replace(t[1..], s), "");
    }
  }

  /** Once the mask is shown it stays shown, whatever later secrets and patterns match. */
  lemma {:induction false} MaskStays(secrets: seq<string>, t: string)
    requires "" !in secrets && Occurs(MASK, t)
    ensures Occurs(MASK, MaskSecrets(secrets, t))
  {
    if secrets != [] {
      if Occurs(secrets[0], t) { ReplaceShowsMask(t, secrets[0]); } else { ReplaceAbsent(t, secrets[0]); }
      MaskStays(secrets[1..], Replace(t, secrets[0]));
    }
  }

  lemma {:induction false} MaskStaysThroughPatterns(patterns: seq<Pattern>, t: string)
    requires Occurs(MASK, t) && forall p | p in patterns :: Cuts(p)
    ensures Occurs(MASK, MaskPatterns(patterns, t))
  {
    if patterns != [] {
      var ps := patterns[0](t);
      assert Cuts(patterns[0]);
      if i :| 0 <= i < |ps| && ps[i].Hit? { MaskShown(ps, i); } else { AllKept(ps); }
      MaskStaysThroughPatterns(patterns[1..], Output(ps));
    }
  }

  /** Some secret is hit when the text is itself a secret, so the mask is shown. */
  lemma {:induction false} SecretShowsMask(secrets: seq<string>, t: string, s: string)
    requires "" !in secrets && s in secrets && Occurs(s, t)
    ensures Occurs(MASK, MaskSecrets(secrets, t))
  {
    if Occurs(secrets[0], t) {
      ReplaceShowsMask(t, secrets[0]);
      MaskStays(secrets[1..], Replace(t, secrets[0]));
    } else {
      ReplaceAbsent(t, secrets[0]);
      SecretShowsMask(secrets[1..], t, s);
    }
  }

  predicate BracketFree(s: string) {
    '[' !in s && ']' !in s
  }

  lemma InsideTheBrackets(s: string)
    requires s != "" && BracketFree(s)
    ensures Occurs(s, MASK) <==> Occurs(s, "REDACTED")
  {
    assert MASK == "[" + "REDACTED" + "]";
    Bracketed(s, "REDACTED");
  }

  lemma Bracketed(s: string, word: string)
    requires s != "" && BracketFree(s)
    ensures Occurs(s, "[" + word + "]") <==> Occurs(s, word)
  {
    if Occurs(s, word) { OccursInPart(s, "[", word, "]"); }
    if Occurs(s, "[" + word + "]") {
      assert "[" + word + "]" == "" + ['['] + (word + "]") && word + "]" == word + [']'] + "";
      AroundFresh(s, "", '[', word + "]");
      if Occurs(s, "") { OccursIsShorter(s, ""); }
      AroundFresh(s, word, ']', "");
    }
  }

  /** A secret without brackets meets the mask only if it is part of the word inside the brackets. */
  lemma BracketFreeIsDisjoint(s: string)
    requires s != "" && BracketFree(s)
    ensures MaskDisjoint(s) <==> !Occurs(s, "REDACTED")
  {
    InsideTheBrackets(s);
    forall i: nat | i <= |s| ensures !At(s, i, MASK) {
      if i + |MASK| <= |s| {
        assert s[i..i + |MASK|][0] == s[i];
      }
    }
    forall k | 0 < k < |s| && k < |MASK| ensures s[|s| - k..] != MASK[..k] && MASK[|MASK| - k..] != s[..k] {
      assert MASK[..k][0] == '[' && s[|s| - k..][0] == s[|s| - k];
      assert MASK[|MASK| - k..][k - 1] == ']' && s[..k][k - 1] == s[k - 1];
    }
  }

  /**
   * The same for any one list of patterns: for secrets without brackets, every text comes
   * out free of every secret exactly when no secret is part of the word REDACTED.
   */
  lemma RedactorSafeIff(secrets: seq<string>, patterns: seq<Pattern>)
    requires "" !in secrets && (forall s | s in secrets :: BracketFree(s)) && forall p | p in patterns :: Cuts(p)
    ensures (forall t: string, s | s in secrets :: !Occurs(s, Redacted(secrets, patterns, t)))
       <==> (forall s | s in secrets :: !Occurs(s, "REDACTED"))
  {
    if forall s | s in secrets :: !Occurs(s, "REDACTED") {
      forall s | s in secrets ensures MaskDisjoint(s) { BracketFreeIsDisjoint(s); }
      forall t: string, s | s in secrets ensures !Occurs(s, Redacted(secrets, patterns, t)) {
        NoSecretSurvives(secrets, patterns, t, s);
      }
    } else {
      var s :| s in secrets && Occurs(s, "REDACTED");
      assert MASK == "[" + "REDACTED" + "]";
      OccursInPart(s, "[", "REDACTED", "]");
      WholeOccurs(s);
      SecretShowsMask(secrets, s, s);
      MaskStaysThroughPatterns(patterns, MaskSecrets(secrets, s));
      OccursTransitive(s, MASK, Redacted(secrets, patterns, s));
    }
  }

  /** Patterns that find nothing in a text. */
  ghost predicate LeaveAlone(patterns: seq<Pattern>, t: string) {
    forall p | p in patterns :: p(t) == Letters(t)
  }

  lemma {:induction false} LeftAlone(patterns: seq<Pattern>, t: string)
    requires LeaveAlone(patterns, t)
    ensures MaskPatterns(patterns, t) == t
  {
    if patterns != [] {
      assert patterns[0] in patterns;
      LettersOf(t);
      LeftAlone(patterns[1..], t);
    }
  }

  /** A secret that ends as the mask begins can be rebuilt by the mask: an input that leaks. */
  lemma BorderLeaks(patterns: seq<Pattern>)
    requires LeaveAlone(patterns, "x" + MASK)
    ensures !MaskDisjoint("x[") && Occurs("x[", Redacted(["x["], patterns, "xx["))
  {
    var t := "xx[";
    assert "x["[1..] == MASK[..1];
    assert !At(t, 0, "x[") by { assert t[0..2][1] == 'x'; }
    assert t[1..] == "x[";
    assert At(t[1..], 0, "x[") by { assert t[1..][0..2] == "x["; }
    assert t[1..][2..] == "";
    assert Replace(t, "x[") == "x" + MASK;
    LeftAlone(patterns, "x" + MASK);
    assert MaskSecrets(["x["], t) == "x" + MASK;
    assert ("x" + MASK)[0..2] == "x[";
    OccursAt("x[", "x" + MASK, 0);
  }
}
