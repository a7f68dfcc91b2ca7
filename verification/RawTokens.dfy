/** The raw text behind what a Markdown reader shows, token by token. */
module RawTokens {
  import opened Text
  import opened Redaction
  import opened RedactionSafety
  import opened Markdown
  import opened Summary

  // ----- tokens and the text they were read from

  function RawToken(k: Token): string {
    match k
    case Plain(c) => [c]
    case Escaped(c) => ['\\', c]
    case Entity(c) => if c == '&' then "&amp;" else if c == '<' then "&lt;" else "&gt;"
  }

  function Raw(tokens: seq<Token>): string {
    if tokens == [] then "" else RawToken(tokens[0]) + Raw(tokens[1..])
  }

  /** A token the reader can produce. */
  predicate Sound(k: Token) {
    match k
    case Plain(_) => true
    case Escaped(c) => IsPunctuation(c)
    case Entity(c) => c == '&' || c == '<' || c == '>'
  }

  predicate AllSound(tokens: seq<Token>) {
    forall i | 0 <= i < |tokens| :: Sound(tokens[i])
  }

  /** The first token, and the text behind it. */
  lemma LexStep(t: string) returns (k: Token, rest: string)
    requires t != ""
    ensures Lex(t) == [k] + Lex(rest) && t == RawToken(k) + rest && Sound(k) && |rest| < |t|
  {
    if t[0] == '\\' && |t| > 1 && IsPunctuation(t[1]) {
      k, rest := Escaped(t[1]), t[2..];
    } else if "&amp;" <= t {
      k, rest := Entity('&'), t[5..];
    } else if "&lt;" <= t {
      k, rest := Entity('<'), t[4..];
    } else if "&gt;" <= t {
      k, rest := Entity('>'), t[4..];
    } else {
      k, rest := Plain(t[0]), t[1..];
    }
  }

  lemma {:induction false} LexSound(t: string)
    ensures Raw(Lex(t)) == t && AllSound(Lex(t))
    decreases |t|
  {
    if t != "" {
      var k, rest := LexStep(t);
      LexSound(rest);
      assert ([k] + Lex(rest))[1..] == Lex(rest);
    }
  }

  lemma {:induction false} RawConcat(a: seq<Token>, b: seq<Token>)
    ensures Raw(a + b) == Raw(a) + Raw(b)
  {
    if a == [] {
      assert a + b == b;
    } else {
      assert (a + b)[1..] == a[1..] + b;
      RawConcat(a[1..], b);
      Regroup(RawToken(a[0]), Raw(a[1..]), Raw(b));
    }
  }

  lemma Regroup(x: string, y: string, z: string)
    ensures x + (y + z) == (x + y) + z
  {
  }

  lemma {:induction false} ShownAt(tokens: seq<Token>)
    ensures |Shown(tokens)| == |tokens| && forall i | 0 <= i < |tokens| :: Shown(tokens)[i] == tokens[i].c
  {
    if tokens != [] {
      ShownAt(tokens[1..]);
      forall i | 0 <= i < |tokens| ensures Shown(tokens)[i] == tokens[i].c {
        if i > 0 { assert tokens[1..][i - 1] == tokens[i]; }
      }
    }
  }

  lemma ShownConcat(a: seq<Token>, b: seq<Token>)
    ensures Shown(a + b) == Shown(a) + Shown(b)
  {
    ShownAt(a);
    ShownAt(b);
    ShownAt(a + b);
  }

  /** What a page shows comes from a run of its tokens. */
  lemma ShownComesFrom(t: string, m: string) returns (tokens: seq<Token>)
    requires Occurs(m, Render(t))
    ensures Shown(tokens) == m && AllSound(tokens) && Occurs(Raw(tokens), t)
  {
    LexSound(t);
    tokens := StretchOf(Lex(t), m);
  }

  lemma StretchOf(all: seq<Token>, m: string) returns (tokens: seq<Token>)
    requires AllSound(all) && Occurs(m, Shown(all))
    ensures Shown(tokens) == m && AllSound(tokens) && Occurs(Raw(tokens), Raw(all))
  {
    ShownAt(all);
    var i: nat :| i <= |Shown(all)| && At(Shown(all), i, m);
    tokens := all[i..i + |m|];
    StretchShows(all, i, |m|);
    StretchOccurs(all, i, |m|);
  }

  lemma StretchShows(all: seq<Token>, i: nat, n: nat)
    requires i + n <= |all|
    ensures |Shown(all)| == |all| && Shown(all[i..i + n]) == Shown(all)[i..i + n]
    ensures AllSound(all) ==> AllSound(all[i..i + n])
  {
    ShownAt(all);
    ShownAt(all[i..i + n]);
  }

  lemma StretchOccurs(all: seq<Token>, i: nat, n: nat)
    requires i + n <= |all|
    ensures Occurs(Raw(all[i..i + n]), Raw(all))
  {
    assert all == all[..i] + all[i..i + n] + all[i + n..];
    MiddleOccurs(all[..i], all[i..i + n], all[i + n..]);
  }

  lemma MiddleOccurs(front: seq<Token>, tokens: seq<Token>, back: seq<Token>)
    ensures Occurs(Raw(tokens), Raw(front + tokens + back))
  {
    RawConcat(front + tokens, back);
    RawConcat(front, tokens);
    WholeOccurs(Raw(tokens));
    OccursInPart(Raw(tokens), Raw(front), Raw(tokens), Raw(back));
  }

  // ----- secrets the escape cannot take apart unnoticed

  /** The characters that only escapes and entities bring into the raw text, and the end of an entity. */
  predicate IsMark(c: char) {
    c == '\\' || c == '&' || c == ';'
  }

  predicate Unmarked(s: string) {
    forall i | 0 <= i < |s| :: !IsMark(s[i])
  }

  /** Solid, and free of what escapes and entities are made of. */
  predicate Clean(s: string) {
    Solid(s) && Unmarked(s)
  }

  /**
   * A secret that can be shown across the end of a name: it ends with the colon behind the name,
   * and what is escaped of it leaves no part of the row equal to it.
   */
  predicate Edge(m: string) {
    && |m| > 1 && m[|m| - 1] == ':'
    && (m[0] == '<' || m[0] == '>' || exists i | 1 <= i < |m| - 1 :: IsMeta(m[i]))
  }

  predicate AnyEscape(tokens: seq<Token>) {
    exists i | 0 <= i < |tokens| :: !tokens[i].Plain?
  }

  /** Tokens that show an unmarked text, the first not behind a backslash. */
  predicate Spelling(tokens: seq<Token>) {
    && tokens != [] && AllSound(tokens) && !tokens[0].Escaped?
    && forall i | 0 <= i < |tokens| :: !IsMark(tokens[i].c)
  }

  lemma {:induction false} PlainIsRaw(tokens: seq<Token>)
    requires !AnyEscape(tokens)
    ensures Raw(tokens) == Shown(tokens)
  {
    if tokens != [] {
      assert tokens[0].Plain?;
      assert forall i | 0 <= i < |tokens| - 1 :: tokens[1..][i] == tokens[i + 1];
      PlainIsRaw(tokens[1..]);
    }
  }

  /** A backslash in front of the first character is not needed to find the rest. */
  function Trim(tokens: seq<Token>): seq<Token> {
    if tokens != [] && tokens[0].Escaped? then [Plain(tokens[0].c)] + tokens[1..] else tokens
  }

  lemma TrimOccurs(tokens: seq<Token>, t: string)
    requires AllSound(tokens) && Occurs(Raw(tokens), t)
    ensures Shown(Trim(tokens)) == Shown(tokens) && AllSound(Trim(tokens)) && Occurs(Raw(Trim(tokens)), t)
  {
    if tokens != [] && tokens[0].Escaped? {
      var r := Trim(tokens);
      assert r[1..] == tokens[1..];
      assert Raw(tokens) == ['\\'] + Raw(r) + "";
      WholeOccurs(Raw(r));
      OccursInPart(Raw(r), ['\\'], Raw(r), "");
      OccursTransitive(Raw(r), Raw(tokens), t);
    }
  }

  // ----- unmarked strings inside raw text

  /** At the front, only plain tokens spell an unmarked string. */
  lemma {:induction false} UnmarkedInFront(tokens: seq<Token>, w: string)
    requires Unmarked(w) && w <= Raw(tokens)
    ensures |w| <= |tokens| && w <= Shown(tokens) && forall i | 0 <= i < |w| :: tokens[i].Plain?
    decreases |w|
  {
    ShownAt(tokens);
    if w != "" {
      assert tokens != [] && w[0] == Raw(tokens)[0] == RawToken(tokens[0])[0];
      assert tokens[0].Plain? && Raw(tokens)[1..] == Raw(tokens[1..]);
      UnmarkedInFront(tokens[1..], w[1..]);
      forall i | 0 <= i < |w| ensures tokens[i].Plain? && w[i] == Shown(tokens)[i] {
        if i > 0 {
          ShownAt(tokens[1..]);
          assert tokens[1..][i - 1] == tokens[i] && w[1..][i - 1] == w[i];
        }
      }
    }
  }

  /** The letters of an entity. */
  predicate InEntity(w: string) {
    Occurs(w, "amp") || Occurs(w, "lt") || Occurs(w, "gt")
  }

  /** Where an unmarked string stands in the raw text: in an entity, or shown with nothing escaped behind its start. */
  ghost predicate StandsAt(w: string, tokens: seq<Token>, y: nat) {
    && At(Shown(tokens), y, w) && y < |tokens| && !tokens[y].Entity?
    && forall i | y < i < y + |w| && i < |tokens| :: tokens[i].Plain?
  }

  lemma BetweenMarks(letters: string, x: nat, w: string, rest: string)
    requires Unmarked(w) && w != "" && 0 < x < |letters| + 2 && At(['&'] + letters + [';'] + rest, x, w)
    ensures Occurs(w, letters)
  {
    var raw, n := ['&'] + letters + [';'] + rest, |letters| + 1;
    assert raw[n] == ';';
    if x + |w| > n {
      assert raw[x..x + |w|][n - x] == ';' && IsMark(w[n - x]);
      assert false;
    }
    assert letters[x - 1..x - 1 + |w|] == raw[x..x + |w|];
    OccursAt(w, letters, x - 1);
  }

  lemma EntityLetters(c: char, x: nat, w: string, rest: string)
    requires Sound(Entity(c)) && Unmarked(w) && w != "" && 0 < x < |RawToken(Entity(c))|
    requires At(RawToken(Entity(c)) + rest, x, w)
    ensures InEntity(w)
  {
    if c == '&' {
      assert RawToken(Entity(c)) == ['&'] + "amp" + [';'];
      BetweenMarks("amp", x, w, rest);
    } else if c == '<' {
      assert RawToken(Entity(c)) == ['&'] + "lt" + [';'];
      BetweenMarks("lt", x, w, rest);
    } else {
      assert RawToken(Entity(c)) == ['&'] + "gt" + [';'];
      BetweenMarks("gt", x, w, rest);
    }
  }

  lemma {:induction false} UnmarkedStands(tokens: seq<Token>, w: string, x: nat) returns (y: nat)
    requires AllSound(tokens) && Unmarked(w) && w != "" && At(Raw(tokens), x, w)
    ensures InEntity(w) || StandsAt(w, tokens, y)
  {
    var k, rest := tokens[0], tokens[1..];
    var n := |RawToken(k)|;
    y := 0;
    if x == 0 {
      StandsInFront(tokens, w);
    } else if x >= n {
      AtShift(RawToken(k), Raw(rest), x - n, w);
      y := UnmarkedStands(rest, w, x - n);
      if StandsAt(w, rest, y) {
        StandsShift(k, rest, w, y);
        y := y + 1;
        assert tokens == [k] + rest;
      }
    } else {
      StandsInToken(k, rest, w, x);
      assert tokens == [k] + rest;
    }
  }

  lemma StandsInFront(tokens: seq<Token>, w: string)
    requires Unmarked(w) && w != "" && At(Raw(tokens), 0, w)
    ensures StandsAt(w, tokens, 0)
  {
    UnmarkedInFront(tokens, w);
    ShownAt(tokens);
  }

  lemma StandsInToken(k: Token, rest: seq<Token>, w: string, x: nat)
    requires Sound(k) && Unmarked(w) && w != "" && 0 < x < |RawToken(k)| && At(RawToken(k) + Raw(rest), x, w)
    ensures InEntity(w) || StandsAt(w, [k] + rest, 0)
  {
    if k.Entity? {
      EntityLetters(k.c, x, w, Raw(rest));
    } else {
      PairTail(k, Raw(rest), w);
      BehindBackslash(k.c, rest, w);
      StandsBehind(k, rest, w);
    }
  }

  lemma PairTail(k: Token, x: string, w: string)
    requires k.Escaped? && At(RawToken(k) + x, 1, w)
    ensures w <= [k.c] + x
  {
    assert (RawToken(k) + x)[1..] == [k.c] + x;
    assert (RawToken(k) + x)[1..1 + |w|] == ([k.c] + x)[..|w|];
  }

  lemma StandsBehind(k: Token, rest: seq<Token>, w: string)
    requires !k.Entity? && At([k.c] + Shown(rest), 0, w) && |w| <= |rest| + 1
    requires forall j | 0 <= j < |w| - 1 :: rest[j].Plain?
    ensures StandsAt(w, [k] + rest, 0)
  {
    var tokens := [k] + rest;
    assert tokens[1..] == rest && Shown(tokens) == [k.c] + Shown(rest);
    forall i | 0 < i < |w| && i < |tokens| ensures tokens[i].Plain? { assert tokens[i] == rest[i - 1]; }
  }

  lemma StandsShift(k: Token, rest: seq<Token>, w: string, y: nat)
    requires StandsAt(w, rest, y)
    ensures StandsAt(w, [k] + rest, y + 1)
  {
    var tokens := [k] + rest;
    assert tokens[1..] == rest && Shown(tokens) == [k.c] + Shown(rest);
    AtShift([k.c], Shown(rest), y, w);
    forall i | y + 1 < i < y + 1 + |w| && i < |tokens| ensures tokens[i].Plain? { assert tokens[i] == rest[i - 1]; }
  }

  lemma PrefixTail(c: char, x: string, w: string)
    requires w != "" && w <= [c] + x
    ensures w[0] == c && w[1..] <= x && w == [c] + w[1..]
    ensures Unmarked(w) ==> Unmarked(w[1..])
  {
    assert w[0] == ([c] + x)[0];
    assert w[1..] == ([c] + x)[..|w|][1..] == x[..|w| - 1];
  }

  lemma PrefixGrow(c: char, y: string, v: string)
    requires v <= y
    ensures At([c] + y, 0, [c] + v)
  {
    assert ([c] + y)[0..|v| + 1] == [c] + y[..|v|];
  }

  lemma BehindBackslash(c: char, rest: seq<Token>, w: string)
    requires Unmarked(w) && w != "" && w <= [c] + Raw(rest)
    ensures At([c] + Shown(rest), 0, w) && |w| <= |rest| + 1
    ensures forall j | 0 <= j < |w| - 1 :: rest[j].Plain?
  {
    var v := w[1..];
    PrefixTail(c, Raw(rest), w);
    UnmarkedInFront(rest, v);
    PrefixGrow(c, Shown(rest), v);
  }

  lemma RawLast(front: seq<Token>, k: Token)
    ensures Raw(front + [k]) == Raw(front) + RawToken(k) && Shown(front + [k]) == Shown(front) + [k.c]
  {
    RawConcat(front, [k]);
    ShownConcat(front, [k]);
    assert [k][1..] == [] && Raw([k]) == RawToken(k) + "" && Shown([k]) == [k.c] + "";
  }

  predicate Ends(w: string, t: string) {
    |w| <= |t| && t[|t| - |w|..] == w
  }

  lemma EndsGrow(w: string, t: string, c: char)
    requires Ends(w, t)
    ensures Ends(w + [c], t + [c])
  {
  }

  /** At the end, an unmarked string is what the last tokens show. */
  lemma {:induction false} UnmarkedAtEnd(tokens: seq<Token>, w: string)
    requires AllSound(tokens) && Unmarked(w) && Ends(w, Raw(tokens))
    ensures Ends(w, Shown(tokens))
    decreases |tokens|
  {
    if w != "" {
      var front, k, v := tokens[..|tokens| - 1], tokens[|tokens| - 1], w[..|w| - 1];
      assert tokens == front + [k];
      EndOfTokens(front, k, w);
      if v != "" { UnmarkedAtEnd(front, v); }
      EndIsShown(front, k, w);
    }
  }

  lemma EndOfTokens(front: seq<Token>, k: Token, w: string)
    requires Sound(k) && Unmarked(w) && w != "" && Ends(w, Raw(front + [k]))
    ensures w == w[..|w| - 1] + [k.c] && Unmarked(w[..|w| - 1]) && Ends(w[..|w| - 1], Raw(front))
  {
    RawLast(front, k);
    EndStep(Raw(front), k, w);
    UnmarkedFront(w);
  }

  lemma UnmarkedFront(w: string)
    requires Unmarked(w) && w != ""
    ensures Unmarked(w[..|w| - 1])
  {
  }

  lemma EndIsShown(front: seq<Token>, k: Token, w: string)
    requires w != "" && w == w[..|w| - 1] + [k.c] && Ends(w[..|w| - 1], Shown(front))
    ensures Ends(w, Shown(front + [k]))
  {
    RawLast(front, k);
    EndsGrow(w[..|w| - 1], Shown(front), k.c);
  }

  lemma EndStep(a: string, k: Token, w: string)
    requires Sound(k) && Unmarked(w) && w != "" && Ends(w, a + RawToken(k))
    ensures w == w[..|w| - 1] + [k.c] && Ends(w[..|w| - 1], a)
  {
    var b := RawToken(k);
    LastOfToken(k);
    EndsAlike(a, b, w);
    SplitLast(w);
    assert !IsMark(w[|w| - 1]);
    if |w| > 1 {
      assert !IsMark(w[|w| - 2]);
      EndsBefore(a, b[0], w);
    }
  }

  lemma LastOfToken(k: Token)
    requires Sound(k)
    ensures k.Plain? ==> RawToken(k) == [k.c]
    ensures k.Escaped? ==> RawToken(k) == ['\\', k.c]
    ensures k.Entity? ==> |RawToken(k)| >= 4 && RawToken(k)[|RawToken(k)| - 1] == ';'
  {
  }

  lemma EndsAlike(a: string, b: string, w: string)
    requires w != "" && b != "" && Ends(w, a + b)
    ensures w[|w| - 1] == b[|b| - 1]
    ensures |w| > 1 && |b| > 1 ==> w[|w| - 2] == b[|b| - 2]
  {
    var t := a + b;
    var d := |t| - |w|;
    assert w[|w| - 1] == t[d..][|w| - 1] == t[|t| - 1];
    if |w| > 1 && |b| > 1 { assert w[|w| - 2] == t[d..][|w| - 2] == t[|t| - 2]; }
  }

  lemma EndsBefore(a: string, c: char, w: string)
    requires w != ""
    ensures Ends(w, a + [c]) ==> Ends(w[..|w| - 1], a)
  {
    var t, n := a + [c], |w| - 1;
    if Ends(w, t) { assert t[|t| - |w|..][..n] == a[|a| - n..]; }
  }

  lemma SplitLast(w: string)
    requires w != ""
    ensures w == w[..|w| - 1] + [w[|w| - 1]]
  {
  }

  // ----- the escaped form of a secret meets the mask no more than the secret itself

  lemma MaskIsUnmarked()
    ensures Unmarked(MASK) && |MASK| == 10
  {
  }

  lemma {:induction false} EscapeIsMarked(tokens: seq<Token>, i: nat)
    requires i < |tokens| && !tokens[i].Plain?
    ensures !Unmarked(Raw(tokens))
  {
    var head, rest := RawToken(tokens[0]), Raw(tokens[1..]);
    if i == 0 {
      assert (head + rest)[0] == head[0] && IsMark(head[0]);
    } else {
      assert tokens[1..][i - 1] == tokens[i];
      EscapeIsMarked(tokens[1..], i - 1);
      var j :| 0 <= j < |rest| && IsMark(rest[j]);
      assert (head + rest)[|head| + j] == rest[j];
    }
  }

  lemma PartUnmarked(w: string, t: string)
    requires Occurs(w, t) && Unmarked(t)
    ensures Unmarked(w)
  {
    var i: nat :| i <= |t| && At(t, i, w);
    forall k | 0 <= k < |w| ensures !IsMark(w[k]) { assert w[k] == t[i..i + |w|][k] == t[i + k]; }
  }

  lemma NotLongInEntity(w: string)
    requires |w| > 3
    ensures !InEntity(w)
  {
  }

  lemma SpelledDisjoint(tokens: seq<Token>, m: string)
    requires Spelling(tokens) && AnyEscape(tokens) && Shown(tokens) == m && MaskDisjoint(m)
    ensures MaskDisjoint(Raw(tokens))
  {
    var q := Raw(tokens);
    var e :| 0 <= e < |tokens| && !tokens[e].Plain?;
    EscapeIsMarked(tokens, e);
    MaskIsUnmarked();
    if Occurs(q, MASK) { PartUnmarked(q, MASK); }
    if Occurs(MASK, q) { MaskIsShown(tokens); }
    forall k | 0 < k < |q| && k < |MASK|
      ensures q[|q| - k..] != MASK[..k] && MASK[|MASK| - k..] != q[..k]
    {
      if q[|q| - k..] == MASK[..k] { NoMaskBehind(tokens, m, k); }
      if MASK[|MASK| - k..] == q[..k] { NoMaskInFront(tokens, m, k); }
    }
  }

  lemma MaskIsShown(tokens: seq<Token>)
    requires AllSound(tokens) && Occurs(MASK, Raw(tokens))
    ensures Occurs(MASK, Shown(tokens))
  {
    MaskIsUnmarked();
    var x: nat :| x <= |Raw(tokens)| && At(Raw(tokens), x, MASK);
    var y := UnmarkedStands(tokens, MASK, x);
    NotLongInEntity(MASK);
    OccursAt(MASK, Shown(tokens), y);
  }

  /** A mask-disjoint secret is neither the start nor the end of the mask. */
  lemma NotEndOfMask(m: string, k: nat)
    requires MaskDisjoint(m) && k < |MASK|
    ensures m != MASK[..k] && m != MASK[|MASK| - k..]
  {
    if m == MASK[..k] {
      assert MASK[0..0 + k] == m;
      OccursAt(m, MASK, 0);
    }
    if m == MASK[|MASK| - k..] {
      assert MASK[|MASK| - k..|MASK| - k + k] == m;
      OccursAt(m, MASK, |MASK| - k);
    }
  }

  lemma NoMaskBehind(tokens: seq<Token>, m: string, k: nat)
    requires AllSound(tokens) && Shown(tokens) == m && MaskDisjoint(m)
    requires 0 < k < |Raw(tokens)| && k < |MASK|
    ensures Raw(tokens)[|Raw(tokens)| - k..] != MASK[..k]
  {
    var w := MASK[..k];
    MaskIsUnmarked();
    NotEndOfMask(m, k);
    assert k == |m| ==> m[|m| - k..] == m;
    if Raw(tokens)[|Raw(tokens)| - k..] == w { UnmarkedAtEnd(tokens, w); }
  }

  lemma NoMaskInFront(tokens: seq<Token>, m: string, k: nat)
    requires AllSound(tokens) && Shown(tokens) == m && MaskDisjoint(m)
    requires 0 < k < |Raw(tokens)| && k < |MASK|
    ensures MASK[|MASK| - k..] != Raw(tokens)[..k]
  {
    var w := MASK[|MASK| - k..];
    MaskIsUnmarked();
    NotEndOfMask(m, k);
    assert k == |m| ==> m[..k] == m;
    ShownAt(tokens);
    if w == Raw(tokens)[..k] { UnmarkedInFront(tokens, w); }
  }
}
