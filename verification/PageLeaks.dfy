/** Which secrets the rendered summary does show, and when it shows none. */
module PageLeaks {
  import opened Wrappers
  import opened Text
  import opened Redaction
  import opened RedactionSafety
  import opened Markdown
  import opened Summary
  import opened RawTokens
  import opened PageShown

  // ----- what is shown: redaction and rendering go word by word

  /** Text without a solid secret's characters between two parts: they are redacted each for itself. */
  lemma {:induction false} ReplaceAtSpace(a: string, b: string, s: string)
    requires s != "" && ' ' !in s
    ensures Replace(a + [' '] + b, s) == Replace(a, s) + [' '] + Replace(b, s)
    decreases |a|
  {
    var t := a + [' '] + b;
    if a == "" {
      assert t == [' '] + b;
      NotAtSpace("", b, s);
      ReplaceAfter(' ', b, s);
      assert Replace("", s) == "";
    } else if At(a, 0, s) {
      var rest := a[|s|..];
      assert t[|s|..] == rest + [' '] + b;
      assert t[0..|s|] == a[0..|s|];
      ReplaceAtSpace(rest, b, s);
      ThreeMore(MASK, Replace(rest, s), [' '], Replace(b, s));
    } else {
      var c, rest := a[0], a[1..];
      assert t == [c] + (rest + [' '] + b) && a == [c] + rest;
      NotAtSpace(a, b, s);
      ReplaceAfter(c, rest + [' '] + b, s);
      ReplaceAfter(c, rest, s);
      ReplaceAtSpace(rest, b, s);
      ThreeMore([c], Replace(rest, s), [' '], Replace(b, s));
    }
  }

  lemma NotAtSpace(a: string, b: string, s: string)
    requires ' ' !in s && !At(a, 0, s)
    ensures !At(a + [' '] + b, 0, s)
  {
    var t := a + [' '] + b;
    assert t[|a|] == ' ';
    CharInFront(s, t, |a|);
    if |s| <= |a| { AtFront(a, [' '] + b, s); }
    assert a + ([' '] + b) == t;
  }

  lemma AtFront(a: string, y: string, s: string)
    requires |s| <= |a|
    ensures At(a + y, 0, s) <==> At(a, 0, s)
  {
    assert (a + y)[0..|s|] == a[0..|s|];
  }

  lemma CharInFront(s: string, t: string, i: nat)
    ensures (At(t, 0, s) || s <= t) && i < |s| ==> t[i] in s
  {
    if (At(t, 0, s) || s <= t) && i < |s| { assert s[i] == if At(t, 0, s) then t[0..|s|][i] else t[i]; }
  }

  lemma ThreeMore(x: string, a: string, b: string, c: string)
    ensures x + (a + b + c) == (x + a) + b + c
  {
  }

  lemma {:induction false} SecretsAtSpace(secrets: seq<string>, a: string, b: string)
    requires "" !in secrets && forall s | s in secrets :: ' ' !in s
    ensures MaskSecrets(secrets, a + [' '] + b) == MaskSecrets(secrets, a) + [' '] + MaskSecrets(secrets, b)
  {
    if secrets != [] {
      ReplaceAtSpace(a, b, secrets[0]);
      SecretsAtSpace(secrets[1..], Replace(a, secrets[0]), Replace(b, secrets[0]));
    }
  }

  lemma {:induction false} ShownAtSpace(a: string, b: string)
    ensures Render(a + [' '] + b) == Render(a) + [' '] + Render(b)
    decreases |a|
  {
    var t := a + [' '] + b;
    if a == "" {
      assert t == [' '] + b;
      LexSpace(b);
      ShownStep(Plain(' '), Lex(b));
      assert Render("") == "";
    } else {
      var k, rest := LexStepSpaced(a, b);
      var more := rest + [' '] + b;
      ShownAtSpace(rest, b);
      ShownStep(k, Lex(rest));
      ShownStep(k, Lex(more));
      ThreeMore([k.c], Render(rest), [' '], Render(b));
    }
  }

  lemma ShownStep(k: Token, rest: seq<Token>)
    ensures Shown([k] + rest) == [k.c] + Shown(rest)
  {
    assert ([k] + rest)[1..] == rest;
  }

  lemma NotPrefix(w: string, t: string)
    requires w != "" && t != "" && w[0] != t[0]
    ensures !(w <= t)
  {
  }

  lemma LexSpace(b: string)
    ensures Lex([' '] + b) == [Plain(' ')] + Lex(b)
  {
    var t := [' '] + b;
    assert t[0] == ' ' && t[1..] == b;
    NotPrefix("&amp;", t);
    NotPrefix("&lt;", t);
    NotPrefix("&gt;", t);
  }

  /** A token is read alike when a space follows somewhere behind it. */
  lemma LexStepSpaced(a: string, b: string) returns (k: Token, rest: string)
    requires a != ""
    ensures Lex(a) == [k] + Lex(rest) && Lex(a + [' '] + b) == [k] + Lex(rest + [' '] + b) && |rest| < |a|
  {
    var t := a + [' '] + b;
    assert t[0] == a[0] && t[1] == if |a| > 1 then a[1] else ' ';
    PrefixAtSpace("&amp;", a, b);
    PrefixAtSpace("&lt;", a, b);
    PrefixAtSpace("&gt;", a, b);
    if a[0] == '\\' && |a| > 1 && IsPunctuation(a[1]) {
      k, rest := Escaped(a[1]), a[2..];
      assert t[2..] == rest + [' '] + b;
    } else if "&amp;" <= a {
      k, rest := Entity('&'), a[5..];
      assert t[5..] == rest + [' '] + b;
    } else if "&lt;" <= a {
      k, rest := Entity('<'), a[4..];
      assert t[4..] == rest + [' '] + b;
    } else if "&gt;" <= a {
      k, rest := Entity('>'), a[4..];
      assert t[4..] == rest + [' '] + b;
    } else {
      k, rest := Plain(a[0]), a[1..];
      assert t[1..] == rest + [' '] + b;
    }
  }

  lemma PrefixAtSpace(w: string, a: string, b: string)
    requires ' ' !in w
    ensures w <= a + [' '] + b <==> w <= a
  {
    var t := a + [' '] + b;
    assert t[|a|] == ' ';
    CharInFront(w, t, |a|);
  }

  // ----- an edge secret is shown

  /** The name that shows an edge secret: all of it but the colon. */
  function NameOf(m: string): string
    requires m != ""
  {
    m[..|m| - 1]
  }

  function Word(m: string): string
    requires m != ""
  {
    Translate(NameOf(m)) + ":"
  }

  /** The tokens of a name's raw form and of the colon behind it. */
  lemma WordTokens(m: string) returns (tokens: seq<Token>)
    requires Edge(m)
    ensures Raw(tokens) == Word(m) && Shown(tokens) == m && AllSound(tokens)
    ensures !StandsAt(m, tokens, 0)
  {
    var n := NameOf(m);
    var name := Lex(Translate(n));
    LexTranslate(n);
    LexSound(Translate(n));
    tokens := name + [Plain(':')];
    RawLast(name, Plain(':'));
    SplitLast(m);
    EdgeBreaks(m, tokens);
  }

  lemma EdgeBreaks(m: string, tokens: seq<Token>)
    requires Edge(m) && |tokens| == |m| && forall i | 0 <= i < |m| - 1 :: tokens[i] == TokenOf(m[i])
    ensures !StandsAt(m, tokens, 0)
  {
    if m[0] == '<' || m[0] == '>' {
      assert tokens[0] == TokenOf(m[0]) && tokens[0].Entity?;
    } else {
      var i :| 1 <= i < |m| - 1 && IsMeta(m[i]);
      assert tokens[i] == TokenOf(m[i]) && !tokens[i].Plain?;
    }
  }

  lemma WholeStands(m: string, tokens: seq<Token>, y: nat)
    requires Shown(tokens) == m && StandsAt(m, tokens, y)
    ensures StandsAt(m, tokens, 0)
  {
    ShownAt(tokens);
    assert y == 0;
  }

  /** The smallest secret that contains no other is not in the raw form of itself, nor is any other secret. */
  lemma WordHasNoSecret(secrets: seq<string>, m: string, v: string)
    requires Minimal(secrets, m) && Edge(m) && Clean(m) && v in secrets && Clean(v) && !InEntity(v)
    ensures !Occurs(v, Word(m))
  {
    if Occurs(v, Word(m)) {
      var tokens := WordTokens(m);
      var x: nat :| x <= |Word(m)| && At(Word(m), x, v);
      var y := UnmarkedStands(tokens, v, x);
      OccursAt(v, m, y);
      WholeStands(m, tokens, y);
      assert false;
    }
  }

  lemma NameHasNoSecret(secrets: seq<string>, m: string)
    requires Minimal(secrets, m) && m != ""
    ensures forall v | v in secrets :: !Occurs(v, NameOf(m))
  {
    forall v | v in secrets ensures !Occurs(v, NameOf(m)) {
      if Occurs(v, NameOf(m)) {
        OccursIsShorter(v, NameOf(m));
        assert m == "" + NameOf(m) + m[|m| - 1..];
        OccursInPart(v, "", NameOf(m), m[|m| - 1..]);
      }
    }
  }

  lemma {:induction false} LineInPage(lines: seq<string>, k: nat) returns (front: string, back: string)
    requires k < |lines|
    ensures JoinLines(lines) == front + lines[k] + back
  {
    if k == 0 {
      front := "";
      back := if |lines| == 1 then "" else "\n" + JoinLines(lines[1..]);
    } else {
      var f, b := LineInPage(lines[1..], k - 1);
      front, back := lines[0] + "\n" + f, b;
      assert lines[1..][k - 1] == lines[k];
      FourMore(lines[0] + "\n", f, lines[k], b);
    }
  }

  lemma FourMore(x: string, a: string, b: string, c: string)
    ensures x + (a + b + c) == (x + a) + b + c
  {
  }

  lemma NameIsKept(secrets: seq<string>, patterns: seq<Pattern>, m: string)
    requires "" !in secrets && Minimal(secrets, m) && Solid(m) && |m| > 1 && LeaveAlone(patterns, NameOf(m))
    ensures SafeField(secrets, patterns, NameOf(m)) == Translate(NameOf(m))
  {
    var n := NameOf(m);
    NameHasNoSecret(secrets, m);
    Untouched(secrets, n);
    LeftAlone(patterns, n);
    forall i | 0 <= i < |n| ensures !Collapses(n[i]) { assert n[i] == m[i]; }
    SolidIsTidied(n);
  }

  /** Text without white space is left as it is. */
  lemma SolidIsTidied(n: string)
    requires forall i | 0 <= i < |n| :: !Collapses(n[i])
    ensures Tidied(n) == n
  {
    assert Collapses(' ');
    TidiedIffTidy(n);
  }

  lemma Embed(f: string, w: string, tail: string, b: string)
    ensures f + ("-" + [' '] + (w + [' '] + tail)) + b == (f + "-") + [' '] + (w + [' '] + (tail + b))
  {
  }

  /** The page around a name and its colon. */
  lemma PageHasName(secrets: seq<string>, patterns: seq<Pattern>, rows: seq<Row>, i: nat, words: Wording)
      returns (a: string, b: string)
    requires "" !in secrets && i < |rows|
    ensures PageText(secrets, patterns, rows, false, words)
         == a + [' '] + ((SafeField(secrets, patterns, rows[i].name) + ":") + [' '] + b)
  {
    var row, name := rows[i], SafeField(secrets, patterns, rows[i].name);
    var lines := SummaryLines(secrets, patterns, rows, false, words);
    RowAt(secrets, patterns, rows, words, i);
    var front, back := LineInPage(lines, 2 + i);
    var detail := if HasDetail(row) then Some(SafeField(secrets, patterns, row.detail.value)) else None;
    RowShape(row, name, detail);
    var tail := RowTail(row, detail);
    Embed(front, name + ":", tail, back);
    a, b := front + "-", tail + back;
  }

  /** What a word shows after redaction, the page shows. */
  lemma WordOnPage(secrets: seq<string>, word: string, v: string, a: string, b: string)
    requires "" !in secrets && (forall s | s in secrets :: ' ' !in s) && Occurs(v, Render(MaskSecrets(secrets, word)))
    ensures Occurs(v, Render(MaskSecrets(secrets, a + [' '] + (word + [' '] + b))))
  {
    SecretsAtSpace(secrets, a, word + [' '] + b);
    SecretsAtSpace(secrets, word, b);
    var x, w, y := MaskSecrets(secrets, a), MaskSecrets(secrets, word), MaskSecrets(secrets, b);
    ShownAtSpace(x, w + [' '] + y);
    ShownAtSpace(w, y);
    OccursInPart(v, Render(x) + [' '], Render(w), [' '] + Render(y));
    Middle(Render(x), Render(w), Render(y));
  }

  lemma Middle(x: string, w: string, y: string)
    ensures (x + [' ']) + w + ([' '] + y) == x + [' '] + (w + [' '] + y)
  {
  }

  /** Secrets that are all clean, and none of which is found among the letters of an entity. */
  predicate Tractable(secrets: seq<string>) {
    CoreDisjoint(secrets) && forall s | s in secrets :: Clean(s) && !InEntity(s)
  }

  lemma WordIsKept(secrets: seq<string>, m: string)
    requires Tractable(secrets) && Minimal(secrets, m) && Edge(m)
    ensures MaskSecrets(secrets, Word(m)) == Word(m) && Occurs(m, Render(Word(m)))
  {
    forall s | s in secrets ensures !Occurs(s, Word(m)) { WordHasNoSecret(secrets, m, s); }
    Untouched(secrets, Word(m));
    WordRenders(NameOf(m));
    assert m == NameOf(m) + ":";
    WholeOccurs(m);
  }

  lemma {:induction false} WordRenders(n: string)
    ensures Render(Translate(n) + ":") == n + ":"
  {
    if n == "" {
      assert Translate(n) + ":" == ":" && ":"[1..] == "";
      assert Lex(":") == [Plain(':')] + Lex("");
    } else {
      Regroup(Escape(n[0]), Translate(n[1..]), ":");
      LexEscape(n[0], Translate(n[1..]) + ":");
      WordRenders(n[1..]);
      var more := Lex(Translate(n[1..]) + ":");
      assert Shown([TokenOf(n[0])] + more) == [n[0]] + Shown(more) by { assert ([TokenOf(n[0])] + more)[1..] == more; }
      assert n + ":" == [n[0]] + (n[1..] + ":");
    }
  }

  /**
   * Each of those is shown: by a target whose name is the secret without its colon, whatever the
   * other targets and the wording are, if the patterns find nothing in the name and the page.
   */
  lemma EdgeIsShown(secrets: seq<string>, patterns: seq<Pattern>, rows: seq<Row>, i: nat, words: Wording, m: string)
    requires Tractable(secrets) && Minimal(secrets, m) && Edge(m) && i < |rows| && rows[i].name == NameOf(m)
    requires LeaveAlone(patterns, NameOf(m))
    requires LeaveAlone(patterns, MaskSecrets(secrets, PageText(secrets, patterns, rows, false, words)))
    ensures Occurs(m, Render(PageOf(secrets, patterns, rows, false, words)))
  {
    NameIsKept(secrets, patterns, m);
    var a, b := PageHasName(secrets, patterns, rows, i, words);
    WordIsKept(secrets, m);
    assert Collapses(' ');
    WordOnPage(secrets, Word(m), m, a, b);
    LeftAlone(patterns, MaskSecrets(secrets, PageText(secrets, patterns, rows, false, words)));
  }

  // ----- decided

  /** One target that is named to show an edge secret. */
  function EdgeRow(m: string): Row
    requires m != ""
  {
    Row(NameOf(m), "", "", "", None, None, true)
  }

  /** The patterns find nothing in the name and the page of such a target. */
  ghost predicate LeavesEdges(secrets: seq<string>, patterns: seq<Pattern>, words: Wording)
    requires "" !in secrets
  {
    forall m | m in secrets && Minimal(secrets, m) && Edge(m) ::
      && LeaveAlone(patterns, NameOf(m))
      && LeaveAlone(patterns, MaskSecrets(secrets, PageText(secrets, patterns, [EdgeRow(m)], false, words)))
  }

  /** No summary with this wording shows a secret. */
  ghost predicate PageSafe(secrets: seq<string>, patterns: seq<Pattern>, words: Wording)
    requires "" !in secrets
  {
    forall rows: seq<Row>, hostDown: bool, u | u in secrets && PlainPage(rows, words) ::
      !Occurs(u, Render(PageOf(secrets, patterns, rows, hostDown, words)))
  }

  /** No smallest secret ends with a colon behind something escaped. */
  predicate NoEdges(secrets: seq<string>) {
    forall m | m in secrets && Minimal(secrets, m) :: !Edge(m)
  }

  /** The wording has nothing escaped in it. */
  ghost predicate PlainWords(words: Wording) {
    && NoMarks(words.headline) && NoMarks(words.hostDown)
    && forall failed, targets :: NoMarks(words.result(failed, targets))
  }

  lemma NoEdgesIsSafe(secrets: seq<string>, patterns: seq<Pattern>, words: Wording)
    requires Tractable(secrets) && (forall p | p in patterns :: Cuts(p)) && NoEdges(secrets)
    ensures PageSafe(secrets, patterns, words)
  {
    forall rows: seq<Row>, hostDown: bool, u | u in secrets && PlainPage(rows, words)
      ensures !Occurs(u, Render(PageOf(secrets, patterns, rows, hostDown, words)))
    {
      if Occurs(u, Render(PageOf(secrets, patterns, rows, hostDown, words))) {
        var m := ShownHasEdge(secrets, patterns, rows, hostDown, words, u);
      }
    }
  }

  lemma EdgeIsUnsafe(secrets: seq<string>, patterns: seq<Pattern>, words: Wording, m: string)
    requires Tractable(secrets) && LeavesEdges(secrets, patterns, words) && PlainWords(words)
    requires m in secrets && Minimal(secrets, m) && Edge(m)
    ensures !PageSafe(secrets, patterns, words)
  {
    var rows := [EdgeRow(m)];
    assert rows[0] == EdgeRow(m);
    EdgeIsShown(secrets, patterns, rows, 0, words, m);
    assert PlainRow(EdgeRow(m));
    assert PlainPage(rows, words);
  }

  /**
   * For one wording and one list of patterns: no summary shows a secret exactly when no smallest
   * secret ends with a colon behind something escaped.
   */
  lemma PageSafeIff(secrets: seq<string>, patterns: seq<Pattern>, words: Wording)
    requires Tractable(secrets) && (forall p | p in patterns :: Cuts(p)) && LeavesEdges(secrets, patterns, words)
    requires PlainWords(words)
    ensures PageSafe(secrets, patterns, words) <==> NoEdges(secrets)
  {
    if NoEdges(secrets) {
      NoEdgesIsSafe(secrets, patterns, words);
    } else {
      var m :| m in secrets && Minimal(secrets, m) && Edge(m);
      EdgeIsUnsafe(secrets, patterns, words, m);
    }
  }

  // ----- inputs

  lemma ShortAndPlain(s: string, word: string)
    requires s != "" && s[0] !in word
    ensures !Occurs(s, word)
  {
    assert s[0] in s;
    if Occurs(s, word) { CharsOccur(s, word); }
  }

  /** The name `a.` shows the secret `a.:`. */
  lemma ColonLeaks(s: string, patterns: seq<Pattern>, rows: seq<Row>, i: nat, words: Wording)
    requires s == "a.:" && i < |rows| && rows[i].name == "a." && LeaveAlone(patterns, rows[i].name)
    requires LeaveAlone(patterns, MaskSecrets([s], PageText([s], patterns, rows, false, words)))
    ensures Tractable([s]) && Occurs(s, Render(PageOf([s], patterns, rows, false, words)))
  {
    ColonIsEdge(s);
    EdgeIsShown([s], patterns, rows, i, words, s);
  }

  lemma ColonIsEdge(s: string)
    requires s == "a.:"
    ensures Tractable([s]) && Minimal([s], s) && Edge(s) && NameOf(s) == "a."
  {
    ShortAndPlain(s, "REDACTED");
    BracketFreeIsDisjoint(s);
    ShortAndPlain(s, "lt");
    ShortAndPlain(s, "gt");
    LongerThanEntity(s);
    assert IsMeta(s[1]);
  }

  lemma LongerThanEntity(s: string)
    requires |s| >= 3 && s[0] == 'a' && s[1] != 'm'
    ensures !Occurs(s, "amp")
  {
    forall i: nat | i <= 3 ensures !At("amp", i, s) {
      if i + |s| <= 3 { assert "amp"[0..3][1] == 'm'; }
    }
  }

  // A secret that is found in an entity leaves the rest of the entity behind.

  /** Characters that begin no token but their own. */
  lemma {:induction false} RenderPlain(a: string, b: string)
    requires NoMarks(a)
    ensures Render(a + b) == a + Render(b)
  {
    if a == "" {
      assert a + b == b;
    } else {
      var t := a + b;
      assert t[0] == a[0] && t[1..] == a[1..] + b && a[0] in a;
      NotPrefix("&amp;", t);
      NotPrefix("&lt;", t);
      NotPrefix("&gt;", t);
      assert Lex(t) == [Plain(a[0])] + Lex(t[1..]);
      ShownStep(Plain(a[0]), Lex(t[1..]));
      RenderPlain(a[1..], b);
      assert a == [a[0]] + a[1..];
    }
  }

  lemma RenderCutEntity(t: string)
    requires t != "" && t[0] == '['
    ensures Render(['&'] + t) == ['&'] + Render(t)
  {
    var u := ['&'] + t;
    assert u[0] == '&' && u[1] == '[' && u[1..] == t;
    assert !("&amp;" <= u) && !("&lt;" <= u) && !("&gt;" <= u);
    ShownStep(Plain('&'), Lex(t));
  }

  lemma RenderPair(c: char, t: string)
    requires IsPunctuation(c)
    ensures Render(['\\', c] + t) == [c] + Render(t)
  {
    var u := ['\\', c] + t;
    assert u[0] == '\\' && u[1] == c && u[2..] == t;
    ShownStep(Escaped(c), Lex(t));
  }

  /** The name's raw form with the colon, as the two secrets leave it. */
  lemma CutWord(s: string, v: string, word: string)
    requires s == "p;x.y" && v == "am" && word == "&amp;x\\.y:"
    ensures MaskSecrets([s, v], word) == ['&'] + (MASK + "p;x\\.y:")
  {
    CutLong(s, word);
    ReplaceAbsent(word, s);
    CutShort(v, word);
    assert [s, v][1..] == [v] && [v][1..] == [];
    assert MaskSecrets([s, v], word) == MaskSecrets([v], Replace(word, s)) == MaskSecrets([], Replace(word, v));
  }

  lemma CutLong(s: string, word: string)
    requires s == "p;x.y" && word == "&amp;x\\.y:"
    ensures !Occurs(s, word)
  {
    forall i: nat | i <= |word| ensures !At(word, i, s) {
      if i + 5 <= 10 {
        assert word[i..i + 5][0] == word[i] && word[i..i + 5][3] == word[i + 3];
      }
    }
  }

  lemma CutShort(v: string, word: string)
    requires v == "am" && word == "&amp;x\\.y:"
    ensures Replace(word, v) == ['&'] + (MASK + "p;x\\.y:")
  {
    var rest := word[1..];
    assert word == ['&'] + rest && rest[0..2] == "am" && rest[2..] == "p;x\\.y:";
    assert word[0..2][0] == '&';
    ReplaceAfter('&', rest, v);
    assert At(rest, 0, v);
    var tail := rest[2..];
    forall i: nat | i <= |tail| ensures !At(tail, i, v) {
      if i + 2 <= 7 { assert tail[i..i + 2][0] == tail[i]; }
    }
    ReplaceAbsent(tail, v);
  }

  lemma CutIsShown(mask: string, a: string, b: string)
    requires NoMarks(mask) && mask != "" && mask[0] == '[' && NoMarks(a) && NoMarks(b)
    ensures Render(['&'] + (mask + (a + (['\\', '.'] + b)))) == ['&'] + (mask + (a + (['.'] + b)))
  {
    var dot := ['\\', '.'] + b;
    RenderCutEntity(mask + (a + dot));
    RenderPlain(mask, a + dot);
    RenderPlain(a, dot);
    RenderPair('.', b);
    RenderPlain(b, "");
    assert b + "" == b && Render("") == "";
  }

  lemma CutName(secrets: seq<string>, patterns: seq<Pattern>, name: string)
    requires secrets == ["p;x.y", "am"] && name == "&x.y" && LeaveAlone(patterns, name)
    ensures SafeField(secrets, patterns, name) == "&amp;x\\.y"
  {
    forall v | v in secrets ensures !Occurs(v, name) { ShortAndPlain(v, name); }
    Untouched(secrets, name);
    LeftAlone(patterns, name);
    SolidIsTidied(name);
    CutTranslated(name);
  }

  lemma TranslateStep(c: char, t: string)
    ensures Translate([c] + t) == Escape(c) + Translate(t)
  {
    assert ([c] + t)[1..] == t;
  }

  lemma TranslateFour(a: char, b: char, c: char, d: char)
    ensures Translate([a] + ([b] + ([c] + ([d] + "")))) == Escape(a) + (Escape(b) + (Escape(c) + (Escape(d) + "")))
  {
    TranslateStep(d, "");
    TranslateStep(c, [d] + "");
    TranslateStep(b, [c] + ([d] + ""));
    TranslateStep(a, [b] + ([c] + ([d] + "")));
  }

  lemma CutEscapes()
    ensures Escape('&') == "&amp;" && Escape('x') == ['x'] && Escape('.') == ['\\', '.'] && Escape('y') == ['y']
  {
  }

  lemma CutTranslated(name: string)
    requires name == "&x.y"
    ensures Translate(name) == "&amp;x\\.y"
  {
    TranslateFour('&', 'x', '.', 'y');
    CutEscapes();
    assert name == ['&'] + (['x'] + (['.'] + (['y'] + "")));
  }

  /** The name `&x.y` shows the secret `p;x.y` in its middle when `am` is a secret too. */
  lemma EntityLeaks(secrets: seq<string>, patterns: seq<Pattern>, rows: seq<Row>, i: nat, words: Wording)
    requires secrets == ["p;x.y", "am"] && i < |rows| && rows[i].name == "&x.y" && LeaveAlone(patterns, rows[i].name)
    requires LeaveAlone(patterns, MaskSecrets(secrets, PageText(secrets, patterns, rows, false, words)))
    ensures CoreDisjoint(secrets) && Occurs(secrets[0], Render(PageOf(secrets, patterns, rows, false, words)))
  {
    CutSecretsAreDisjoint();
    CutName(secrets, patterns, rows[i].name);
    var a, b := PageHasName(secrets, patterns, rows, i, words);
    var word := SafeField(secrets, patterns, rows[i].name) + ":";
    CutIsLeak(secrets, word);
    WordOnPage(secrets, word, secrets[0], a, b);
    LeftAlone(patterns, MaskSecrets(secrets, PageText(secrets, patterns, rows, false, words)));
  }

  lemma CutIsLeak(secrets: seq<string>, word: string)
    requires secrets == ["p;x.y", "am"] && word == "&amp;x\\.y" + ":"
    ensures "" !in secrets && (forall s | s in secrets :: ' ' !in s)
    ensures Occurs(secrets[0], Render(MaskSecrets(secrets, word)))
  {
    var s, v := secrets[0], secrets[1];
    assert word == "&amp;x\\.y:" && secrets == [s, v];
    CutWord(s, v, word);
    CutIsShown(MASK, "p;x", "y:");
    assert "p;x\\.y:" == "p;x" + (['\\', '.'] + "y:") && "p;x.y:" == "p;x" + (['.'] + "y:");
    assert ['&'] + (MASK + "p;x.y:") == (['&'] + MASK) + s + ":";
    WholeOccurs(s);
    OccursInPart(s, ['&'] + MASK, s, ":");
  }

  lemma CutSecretsAreDisjoint()
    ensures CoreDisjoint(["p;x.y", "am"])
  {
    forall s | s in ["p;x.y", "am"] ensures MaskDisjoint(s) {
      ShortAndPlain(s, "REDACTED");
      BracketFreeIsDisjoint(s);
    }
  }
}
