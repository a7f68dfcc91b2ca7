/**
 * What the rendered summary can show. Its last redaction reads text that is already escaped, so a
 * secret whose escaped form no redaction knows can be put together again by the reader.
 */
module PageShown {
  import opened Wrappers
  import opened Text
  import opened Redaction
  import opened RedactionSafety
  import opened Markdown
  import opened Summary
  import opened RawTokens

  // ----- where the escaped form of a secret can stand in a field

  /** The tokens spell a stretch of the name, and of the colon behind it. */
  ghost predicate Matches(tokens: seq<Token>, n: string, after: string) {
    && |tokens| <= |n| + |after| && Shown(tokens) == (n + after)[..|tokens|]
    && forall i | 0 <= i < |tokens| && !tokens[i].Plain? :: i < |n| && IsMeta(n[i])
  }

  lemma HeadMatches(k: Token, x: string, c: char, y: string)
    requires Sound(k) && !IsMark(k.c) && RawToken(k) + x <= Escape(c) + y
    ensures k.c == c && x <= y && (!k.Plain? ==> IsMeta(c))
  {
    var l, r := RawToken(k) + x, Escape(c) + y;
    assert l[0] == r[0];
    if k.Plain? {
      assert Escape(c) == [c];
      TailPrefix([c], x, y);
    } else if k.Escaped? {
      assert l[1] == r[1] && c in BACKSLASHED;
      TailPrefix(Escape(c), x, y);
    } else {
      assert l[1] == r[1];
      assert Escape(c) == RawToken(k);
      TailPrefix(Escape(c), x, y);
    }
  }

  lemma TailPrefix(a: string, x: string, y: string)
    requires a + x <= a + y
    ensures x <= y
  {
    assert x == (a + x)[|a|..] && y == (a + y)[|a|..];
    assert (a + y)[..|a + x|][|a|..] == y[..|x|];
  }

  lemma {:induction false} PrefixReads(tokens: seq<Token>, n: string, after: string)
    requires AllSound(tokens) && (forall i | 0 <= i < |tokens| :: !IsMark(tokens[i].c))
    requires after == "" || after == ":"
    requires Raw(tokens) <= Translate(n) + after
    ensures Matches(tokens, n, after)
    decreases |tokens|
  {
    if tokens != [] {
      var k, rest := tokens[0], tokens[1..];
      if n == "" {
        assert Translate(n) + after == after;
        assert Raw(tokens)[0] == after[0] == ':';
        assert k.Plain? && |Raw(tokens)| == 1 + |Raw(rest)|;
        RawNonempty(rest);
        assert Shown(tokens) == [':'] == (n + after)[..1];
      } else {
        Regroup(Escape(n[0]), Translate(n[1..]), after);
        HeadMatches(k, Raw(rest), n[0], Translate(n[1..]) + after);
        PrefixReads(rest, n[1..], after);
        MatchesGrow(k, rest, n, after);
      }
    }
  }

  lemma RawNonempty(tokens: seq<Token>)
    requires Raw(tokens) == ""
    ensures tokens == []
  {
  }

  lemma MatchesGrow(k: Token, rest: seq<Token>, n: string, after: string)
    requires n != "" && Matches(rest, n[1..], after) && k.c == n[0] && (!k.Plain? ==> IsMeta(n[0]))
    ensures Matches([k] + rest, n, after)
  {
    var tokens := [k] + rest;
    assert tokens[1..] == rest && Shown(tokens) == [k.c] + Shown(rest);
    assert (n + after)[..|tokens|] == [n[0]] + (n[1..] + after)[..|rest|];
    forall i | 0 <= i < |tokens| && !tokens[i].Plain? ensures i < |n| && IsMeta(n[i]) {
      if i > 0 { assert rest[i - 1] == tokens[i] && n[1..][i - 1] == n[i]; }
    }
  }

  /** What is found of an entity's inside does not reach beyond it. */
  lemma {:induction false} TailBlocks(tokens: seq<Token>, s: string, y: string)
    requires AllSound(tokens) && (forall i | 0 <= i < |tokens| :: !IsMark(tokens[i].c))
    requires s != "" && s[|s| - 1] == ';' && (forall i | 0 <= i < |s| - 1 :: !IsMark(s[i])) && Raw(tokens) <= s + y
    ensures !AnyEscape(tokens)
    decreases |tokens|
  {
    if tokens != [] {
      var k, rest := tokens[0], tokens[1..];
      assert Raw(tokens)[0] == s[0];
      if |s| > 1 {
        assert k.Plain? && s == [s[0]] + s[1..] && s + y == [s[0]] + (s[1..] + y);
        TailPrefix([s[0]], Raw(rest), s[1..] + y);
        TailBlocks(rest, s[1..], y);
        assert forall i | 0 < i < |tokens| :: tokens[i] == rest[i - 1];
      } else {
        assert false;
      }
    }
  }

  /** A spelling that begins inside the raw form of a character begins with the character itself. */
  lemma InsideEscape(tokens: seq<Token>, n: string, after: string, x: nat)
    requires Sought(tokens, after) && n != "" && 0 < x < |Escape(n[0])|
    requires At(Translate(n) + after, x, Raw(tokens))
    ensures Matches(tokens, n, after)
  {
    var c, y := n[0], Translate(n[1..]) + after;
    Regroup(Escape(c), Translate(n[1..]), after);
    TailOfEscape(c, y, x, Raw(tokens));
    if c in BACKSLASHED {
      SecondOfPair(tokens, c, y);
      PrefixReads(tokens[1..], n[1..], after);
      MatchesGrow(tokens[0], tokens[1..], n, after);
      assert tokens == [tokens[0]] + tokens[1..];
    } else {
      InsideEntity(tokens, c, y, x);
      assert false;
    }
  }

  lemma TailOfEscape(c: char, y: string, x: nat, q: string)
    requires 0 < x < |Escape(c)| && At(Escape(c) + y, x, q)
    ensures q <= Escape(c)[x..] + y
  {
    assert (Escape(c) + y)[x..] == Escape(c)[x..] + y;
    assert (Escape(c) + y)[x..x + |q|] == (Escape(c)[x..] + y)[..|q|];
  }

  lemma SecondOfPair(tokens: seq<Token>, c: char, y: string)
    requires Spelling(tokens) && c in BACKSLASHED && Raw(tokens) <= Escape(c)[1..] + y
    ensures tokens[0] == Plain(c) && Raw(tokens[1..]) <= y
  {
    assert Escape(c)[1..] == [c];
    assert Raw(tokens)[0] == ([c] + y)[0] == c;
    assert tokens[0].Plain?;
    TailPrefix([c], Raw(tokens[1..]), y);
  }

  lemma InsideEntity(tokens: seq<Token>, c: char, y: string, x: nat)
    requires Spelling(tokens) && c !in BACKSLASHED && 0 < x < |Escape(c)| && Raw(tokens) <= Escape(c)[x..] + y
    ensures !AnyEscape(tokens)
  {
    EntityTail(c, x);
    TailBlocks(tokens, Escape(c)[x..], y);
  }

  lemma EntityTail(c: char, x: nat)
    requires c !in BACKSLASHED && 0 < x < |Escape(c)|
    ensures var s := Escape(c)[x..]; s[|s| - 1] == ';' && forall i | 0 <= i < |s| - 1 :: !IsMark(s[i])
  {
    if c == '&' {
      assert Escape(c) == "&amp;";
    } else if c == '<' {
      assert Escape(c) == "&lt;";
    } else {
      assert c == '>' && Escape(c) == "&gt;";
    }
  }

  /** A spelling with something escaped in it, looked for in a field and what follows it. */
  predicate Sought(tokens: seq<Token>, after: string) {
    Spelling(tokens) && AnyEscape(tokens) && (after == "" || after == ":")
  }

  /** What it spells is in the name, or is an edge. */
  ghost predicate Decided(tokens: seq<Token>, n: string, after: string) {
    Occurs(Shown(tokens), n) || (after == ":" && Edge(Shown(tokens)))
  }

  lemma MatchDecides(tokens: seq<Token>, n: string, after: string)
    requires Sought(tokens, after) && Matches(tokens, n, after)
    ensures Decided(tokens, n, after)
  {
    var m := Shown(tokens);
    ShownAt(tokens);
    if |m| <= |n| {
      assert n[0..|m|] == (n + after)[..|m|];
      OccursAt(m, n, 0);
    } else {
      var e :| 0 <= e < |tokens| && !tokens[e].Plain?;
      assert m == n + after;
      assert m[e] == n[e];
    }
  }

  lemma {:induction false} FieldReads(tokens: seq<Token>, n: string, after: string, x: nat)
    requires Sought(tokens, after) && At(Translate(n) + after, x, Raw(tokens))
    ensures Decided(tokens, n, after)
    decreases |n|
  {
    if x == 0 {
      PrefixReads(tokens, n, after);
      MatchDecides(tokens, n, after);
    } else if n == "" {
      NotBehindAll(tokens, after, x);
    } else if x < |Escape(n[0])| {
      InsideEscape(tokens, n, after, x);
      MatchDecides(tokens, n, after);
    } else {
      BehindEscape(n[0], Translate(n[1..]), after, x, Raw(tokens));
      FieldReads(tokens, n[1..], after, x - |Escape(n[0])|);
      DecidedBehind(tokens, n, after);
    }
  }

  lemma DecidedBehind(tokens: seq<Token>, n: string, after: string)
    requires n != "" && Decided(tokens, n[1..], after)
    ensures Decided(tokens, n, after)
  {
    OccursBehind(Shown(tokens), n[0], n[1..]);
    assert n == [n[0]] + n[1..];
  }

  lemma NotBehindAll(tokens: seq<Token>, after: string, x: nat)
    requires tokens != [] && |after| <= 1 && x > 0
    ensures !At(Translate("") + after, x, Raw(tokens))
  {
    if Raw(tokens) == "" { RawNonempty(tokens); }
  }

  lemma BehindEscape(c: char, y: string, after: string, x: nat, q: string)
    requires x >= |Escape(c)| && At((Escape(c) + y) + after, x, q)
    ensures At(y + after, x - |Escape(c)|, q)
  {
    Regroup(Escape(c), y, after);
    AtShift(Escape(c), y + after, x - |Escape(c)|, q);
  }

  lemma OccursBehind(m: string, c: char, rest: string)
    ensures Occurs(m, rest) ==> Occurs(m, [c] + rest)
  {
    if Occurs(m, rest) {
      assert [c] + rest == [c] + rest + "";
      OccursInPart(m, [c], rest, "");
    }
  }

  // ----- where it can stand in the summary

  /** Text that nothing in it is escaped or named by an entity. */
  predicate NoMarks(t: string) {
    '\\' !in t && '&' !in t
  }

  lemma {:induction false} EscapeShows(tokens: seq<Token>, i: nat)
    requires i < |tokens| && !tokens[i].Plain?
    ensures !NoMarks(Raw(tokens))
  {
    var head, rest := RawToken(tokens[0]), Raw(tokens[1..]);
    assert forall c | c in rest :: c in head + rest;
    if i == 0 {
      assert (head + rest)[0] == head[0] && (head[0] == '\\' || head[0] == '&');
    } else {
      assert tokens[1..][i - 1] == tokens[i];
      EscapeShows(tokens[1..], i - 1);
    }
  }

  lemma CharsOccur(q: string, t: string)
    requires Occurs(q, t)
    ensures forall c | c in q :: c in t
  {
    var i: nat :| i <= |t| && At(t, i, q);
    forall k | 0 <= k < |q| ensures q[k] in t { assert t[i..i + |q|][k] == t[i + k]; }
  }

  lemma NotInPlain(q: string, t: string)
    requires !NoMarks(q) && NoMarks(t)
    ensures !Occurs(q, t)
  {
    if Occurs(q, t) { CharsOccur(q, t); }
  }

  lemma {:induction false} RawIsSolid(tokens: seq<Token>)
    requires AllSound(tokens) && forall i | 0 <= i < |tokens| :: !Collapses(tokens[i].c)
    ensures forall i | 0 <= i < |Raw(tokens)| :: !Collapses(Raw(tokens)[i])
  {
    if tokens != [] {
      RawIsSolid(tokens[1..]);
      TokenIsSolid(tokens[0]);
    }
  }

  lemma TokenIsSolid(k: Token)
    requires !Collapses(k.c)
    ensures forall i | 0 <= i < |RawToken(k)| :: !Collapses(RawToken(k)[i])
  {
  }

  lemma {:induction false} GlueConcat(a: seq<string>, b: seq<string>)
    ensures Glue(a + b) == Glue(a) + Glue(b)
  {
    if a == [] {
      assert a + b == b;
    } else {
      assert (a + b)[1..] == a[1..] + b;
      GlueConcat(a[1..], b);
    }
  }

  lemma GlueOne(x: string)
    ensures Glue([x]) == x
  {
    assert [x][1..] == [] && Glue([]) == "";
  }

  /** A row up to its detail. */
  function RowMiddle(row: Row): string {
    Glue([row.classification, " | action: ", row.action, " | elapsed=", row.elapsed])
    + if row.reason.Some? then " | reason: " + row.reason.value else ""
  }

  function RowEnd(row: Row): string {
    if row.pass then "| PASS" else "| FAIL"
  }

  /** What follows the colon and the space behind the name. */
  function RowTail(row: Row, detail: Option<string>): string {
    RowMiddle(row) + (if detail.Some? then " |" + [' '] + detail.value else "") + ([' '] + RowEnd(row))
  }

  lemma RowShape(row: Row, name: string, detail: Option<string>)
    ensures RowLine(row, name, detail) == "-" + [' '] + ((name + ":") + [' '] + RowTail(row, detail))
  {
    var middle := [row.classification, " | action: ", row.action, " | elapsed=", row.elapsed];
    var reason := if row.reason.Some? then " | reason: " + row.reason.value else "";
    var shown := if detail.Some? then " | " + detail.value else "";
    var end := if row.pass then " | PASS" else " | FAIL";
    assert ["- ", name, ": "] + middle
        == ["- ", name, ": ", row.classification, " | action: ", row.action, " | elapsed=", row.elapsed];
    GlueConcat(["- ", name, ": "], middle);
    GlueThree("- ", name, ": ");
    GlueThree(reason, shown, end);
    assert end == [' '] + RowEnd(row);
    assert detail.Some? ==> shown == " |" + [' '] + detail.value;
    RowPieces("- ", name, ": ", Glue(middle), reason, shown, end);
  }

  lemma GlueThree(a: string, b: string, c: string)
    ensures Glue([a, b, c]) == a + b + c
  {
    GlueConcat([a], [b, c]);
    GlueConcat([b], [c]);
    assert [a] + [b, c] == [a, b, c] && [b] + [c] == [b, c];
    GlueOne(a);
    GlueOne(b);
    GlueOne(c);
    Regroup(a, b, c);
  }

  lemma RowPieces(a: string, n: string, b: string, m: string, r: string, d: string, e: string)
    requires a == "- " && b == ": "
    ensures (a + n + b + m) + (r + d + e) == "-" + [' '] + ((n + ":") + [' '] + (m + r + d + e))
  {
  }

  /** The wording and the enumerations are plain text. */
  predicate PlainRow(row: Row) {
    && NoMarks(row.classification) && NoMarks(row.action) && NoMarks(row.elapsed)
    && (row.reason.Some? ==> NoMarks(row.reason.value))
  }

  predicate PlainPage(rows: seq<Row>, words: Wording) {
    && NoMarks(words.headline) && NoMarks(words.hostDown) && NoMarks(words.result(Failed(rows), |rows|))
    && forall i | 0 <= i < |rows| :: PlainRow(rows[i])
  }

  lemma {:induction false} GlueNoMarks(parts: seq<string>)
    requires forall i | 0 <= i < |parts| :: NoMarks(parts[i])
    ensures NoMarks(Glue(parts))
  {
    if parts != [] { GlueNoMarks(parts[1..]); }
  }

  lemma MiddleIsPlain(row: Row)
    requires PlainRow(row)
    ensures NoMarks(RowMiddle(row)) && NoMarks(RowEnd(row))
  {
    GlueNoMarks([row.classification, " | action: ", row.action, " | elapsed=", row.elapsed]);
  }

  /** Nothing escaped stands in a row but in its name, with the colon, or in its detail. */
  lemma InRow(q: string, row: Row, name: string, detail: Option<string>)
    requires ' ' !in q && !NoMarks(q) && PlainRow(row) && Occurs(q, RowLine(row, name, detail))
    ensures Occurs(q, name + ":") || (detail.Some? && Occurs(q, detail.value))
  {
    RowShape(row, name, detail);
    var tail := RowTail(row, detail);
    BehindPlain(q, "-", (name + ":") + [' '] + tail);
    AroundFresh(q, name + ":", ' ', tail);
    if Occurs(q, tail) { InTail(q, row, detail); }
  }

  /** What is escaped does not stand in plain text before a space. */
  lemma BehindPlain(q: string, plain: string, t: string)
    requires ' ' !in q && !NoMarks(q) && NoMarks(plain)
    ensures Occurs(q, plain + [' '] + t) ==> Occurs(q, t)
  {
    NotInPlain(q, plain);
    if Occurs(q, plain + [' '] + t) { AroundFresh(q, plain, ' ', t); }
  }

  lemma BeforePlain(q: string, t: string, plain: string)
    requires ' ' !in q && !NoMarks(q) && NoMarks(plain)
    ensures Occurs(q, t + [' '] + plain) ==> Occurs(q, t)
  {
    NotInPlain(q, plain);
    if Occurs(q, t + [' '] + plain) { AroundFresh(q, t, ' ', plain); }
  }

  lemma TailIsPlain(q: string, row: Row)
    requires ' ' !in q && !NoMarks(q) && PlainRow(row)
    ensures !Occurs(q, RowTail(row, None))
  {
    MiddleIsPlain(row);
    assert RowTail(row, None) == RowMiddle(row) + [' '] + RowEnd(row);
    NotInPlain(q, RowMiddle(row));
    BeforePlain(q, RowMiddle(row), RowEnd(row));
  }

  lemma InTail(q: string, row: Row, detail: Option<string>)
    requires ' ' !in q && !NoMarks(q) && PlainRow(row) && Occurs(q, RowTail(row, detail))
    ensures detail.Some? && Occurs(q, detail.value)
  {
    MiddleIsPlain(row);
    var m, e := RowMiddle(row), RowEnd(row);
    match detail
    case None =>
      TailIsPlain(q, row);
    case Some(d) =>
      assert RowTail(row, detail) == (m + " |") + [' '] + (d + [' '] + e);
      BehindPlain(q, m + " |", d + [' '] + e);
      BeforePlain(q, d, e);
  }

  lemma {:induction false} InLines(q: string, lines: seq<string>) returns (k: nat)
    requires '\n' !in q && q != "" && Occurs(q, JoinLines(lines))
    ensures k < |lines| && Occurs(q, lines[k])
  {
    assert lines != [];
    if |lines| == 1 {
      k := 0;
    } else {
      assert JoinLines(lines) == lines[0] + ['\n'] + JoinLines(lines[1..]);
      AroundFresh(q, lines[0], '\n', JoinLines(lines[1..]));
      if Occurs(q, lines[0]) {
        k := 0;
      } else {
        k := InLines(q, lines[1..]);
        k := k + 1;
      }
    }
  }

  /** The summary before its last redaction. */
  function PageText(secrets: seq<string>, patterns: seq<Pattern>, rows: seq<Row>, hostDown: bool,
      words: Wording): string
    requires "" !in secrets
  {
    JoinLines(SummaryLines(secrets, patterns, rows, hostDown, words))
  }

  /** The summary. */
  function PageOf(secrets: seq<string>, patterns: seq<Pattern>, rows: seq<Row>, hostDown: bool, words: Wording): string
    requires "" !in secrets
  {
    Redacted(secrets, patterns, PageText(secrets, patterns, rows, hostDown, words))
  }

  /** What is escaped in the summary stands in one of its fields. */
  lemma InPage(q: string, secrets: seq<string>, patterns: seq<Pattern>, rows: seq<Row>, hostDown: bool, words: Wording)
      returns (text: string, after: string)
    requires "" !in secrets && ' ' !in q && '\n' !in q && q != "" && !NoMarks(q) && PlainPage(rows, words)
    requires Occurs(q, PageText(secrets, patterns, rows, hostDown, words))
    ensures (after == "" || after == ":") && Occurs(q, SafeField(secrets, patterns, text) + after)
  {
    var lines := SummaryLines(secrets, patterns, rows, hostDown, words);
    var k := InLines(q, lines);
    if hostDown || k < 2 || k >= 2 + |rows| {
      OtherLines(secrets, patterns, rows, hostDown, words, k);
      NotInPlain(q, lines[k]);
      assert false;
    } else {
      RowAt(secrets, patterns, rows, words, k - 2);
      text, after := InSafeRow(q, secrets, patterns, rows[k - 2]);
    }
  }

  /** The lines that are not rows are the program's own wording. */
  lemma OtherLines(secrets: seq<string>, patterns: seq<Pattern>, rows: seq<Row>, hostDown: bool, words: Wording, k: nat)
    requires "" !in secrets && PlainPage(rows, words) && k < |SummaryLines(secrets, patterns, rows, hostDown, words)|
    requires hostDown || k < 2 || k >= 2 + |rows|
    ensures NoMarks(SummaryLines(secrets, patterns, rows, hostDown, words)[k])
  {
  }

  lemma RowAt(secrets: seq<string>, patterns: seq<Pattern>, rows: seq<Row>, words: Wording, i: nat)
    requires "" !in secrets && i < |rows|
    ensures 2 + i < |SummaryLines(secrets, patterns, rows, false, words)|
    ensures SummaryLines(secrets, patterns, rows, false, words)[2 + i] == SafeRow(secrets, patterns, rows[i])
  {
  }

  lemma InSafeRow(q: string, secrets: seq<string>, patterns: seq<Pattern>, row: Row)
      returns (text: string, after: string)
    requires "" !in secrets && ' ' !in q && !NoMarks(q) && PlainRow(row) && Occurs(q, SafeRow(secrets, patterns, row))
    ensures (after == "" || after == ":") && Occurs(q, SafeField(secrets, patterns, text) + after)
  {
    var name := SafeField(secrets, patterns, row.name);
    var detail := if HasDetail(row) then Some(SafeField(secrets, patterns, row.detail.value)) else None;
    InRow(q, row, name, detail);
    if Occurs(q, name + ":") {
      text, after := row.name, ":";
    } else {
      text, after := row.detail.value, "";
      assert detail.value + "" == detail.value;
    }
  }

  // ----- what can be shown

  lemma SpellingOf(m: string, page: string) returns (tokens: seq<Token>)
    requires Clean(m) && Occurs(m, Render(page))
    ensures Spelling(tokens) && Shown(tokens) == m && Occurs(Raw(tokens), page)
    ensures forall i | 0 <= i < |tokens| :: !Collapses(tokens[i].c)
  {
    var found := ShownComesFrom(page, m);
    tokens := Trim(found);
    TrimOccurs(found, page);
    ShownAt(tokens);
    forall i | 0 <= i < |tokens| ensures !IsMark(tokens[i].c) && !Collapses(tokens[i].c) { assert m[i] == tokens[i].c; }
  }

  /**
   * Of the smallest secrets, the summary shows at most those that end with a colon and are broken
   * up by an escape before it: whatever the names, details, secrets and patterns are.
   */
  lemma ShownIsEdge(secrets: seq<string>, patterns: seq<Pattern>, rows: seq<Row>, hostDown: bool, words: Wording,
      m: string)
    requires CoreDisjoint(secrets) && Minimal(secrets, m) && Clean(m) && PlainPage(rows, words)
    requires forall p | p in patterns :: Cuts(p)
    requires Occurs(m, Render(PageOf(secrets, patterns, rows, hostDown, words)))
    ensures Edge(m)
  {
    var text := PageText(secrets, patterns, rows, hostDown, words);
    var tokens := SpellingOf(m, PageOf(secrets, patterns, rows, hostDown, words));
    var q := Raw(tokens);
    if !AnyEscape(tokens) {
      PlainIsRaw(tokens);
      DisjointNeverSurvives(secrets, patterns, text, m);
    }
    SpelledDisjoint(tokens, m);
    PatternsCreateNothing(patterns, MaskSecrets(secrets, text), q);
    SecretsCreateNothing(secrets, text, q);
    RawIsSolid(tokens);
    assert Collapses(' ') && Collapses('\n');
    var e :| 0 <= e < |tokens| && !tokens[e].Plain?;
    EscapeShows(tokens, e);
    var field, after := InPage(q, secrets, patterns, rows, hostDown, words);
    FieldIsSafe(secrets, patterns, field, m);
    var x: nat :| x <= |SafeField(secrets, patterns, field) + after|
      && At(SafeField(secrets, patterns, field) + after, x, q);
    FieldReads(tokens, Tidied(Redacted(secrets, patterns, field)), after, x);
  }

  lemma FieldIsSafe(secrets: seq<string>, patterns: seq<Pattern>, field: string, m: string)
    requires CoreDisjoint(secrets) && Minimal(secrets, m) && Solid(m) && forall p | p in patterns :: Cuts(p)
    ensures !Occurs(m, Tidied(Redacted(secrets, patterns, field)))
  {
    DisjointNeverSurvives(secrets, patterns, field, m);
    TidiedCreatesNothing(Redacted(secrets, patterns, field), m);
  }

  /** A secret the summary shows contains such a smallest one. */
  lemma ShownHasEdge(secrets: seq<string>, patterns: seq<Pattern>, rows: seq<Row>, hostDown: bool, words: Wording,
      u: string)
      returns (m: string)
    requires CoreDisjoint(secrets) && (forall s | s in secrets && Minimal(secrets, s) :: Clean(s))
      && PlainPage(rows, words)
    requires forall p | p in patterns :: Cuts(p)
    requires u in secrets && Occurs(u, Render(PageOf(secrets, patterns, rows, hostDown, words)))
    ensures Minimal(secrets, m) && Occurs(m, u) && Edge(m)
  {
    m := ContainsMinimal(secrets, u);
    OccursTransitive(m, u, Render(PageOf(secrets, patterns, rows, hostDown, words)));
    ShownIsEdge(secrets, patterns, rows, hostDown, words, m);
  }
}
