/**
 * The inline Markdown sanitizer, and the renderer it prints for: sections 6.1 (backslash
 * escapes) and 6.2 (entity references) of the GitHub Flavored Markdown Spec 0.29.
 */
module Markdown {
  import opened Text

  /** White space, C0 controls, DEL and C1 controls. */
  predicate Collapses(c: char) {
    IsSpace(c) || c as int <= 0x1f || 0x7f <= c as int <= 0x9f
  }

  function DropRun(t: string): (r: string)
    ensures |r| <= |t| && r == t[|t| - |r|..]
    ensures r != "" ==> !Collapses(r[0])
  {
    if t != "" && Collapses(t[0]) then DropRun(t[1..]) else t
  }

  /** Every maximal run of collapsing characters becomes one space. */
  function Collapse(t: string): string
    decreases |t|
  {
    if t == "" then ""
    else if Collapses(t[0]) then " " + Collapse(DropRun(t[1..]))
    else [t[0]] + Collapse(t[1..])
  }

  function StripLeft(t: string): string {
    if t != "" && IsSpace(t[0]) then StripLeft(t[1..]) else t
  }

  function StripRight(t: string): string {
    if t != "" && IsSpace(t[|t| - 1]) then StripRight(t[..|t| - 1]) else t
  }

  /** What the sanitizer keeps of a text: collapsed and trimmed. */
  function Tidied(t: string): string {
    StripRight(StripLeft(Collapse(t)))
  }

  const BACKSLASHED: string := "\\`*_[]()!#|~.:/@"

  function Escape(c: char): string {
    if c in BACKSLASHED then ['\\', c]
    else if c == '&' then "&amp;"
    else if c == '<' then "&lt;"
    else if c == '>' then "&gt;"
    else [c]
  }

  predicate IsMeta(c: char) {
    c in BACKSLASHED || c == '&' || c == '<' || c == '>'
  }

  /** `str.translate` with the escape table: one pass, replacements are never read again. */
  function Translate(t: string): string {
    if t == "" then "" else Escape(t[0]) + Translate(t[1..])
  }

  function Sanitize(t: string): string {
    Translate(Tidied(t))
  }

  // ----- reading Markdown text back

  datatype Token = Plain(c: char) | Escaped(c: char) | Entity(c: char)

  /** ASCII punctuation: the characters a backslash escapes. */
  predicate IsPunctuation(c: char) {
    '!' <= c <= '/' || ':' <= c <= '@' || '[' <= c <= '`' || '{' <= c <= '~'
  }

  function Lex(t: string): seq<Token> {
    if t == "" then []
    else if t[0] == '\\' && |t| > 1 && IsPunctuation(t[1]) then [Escaped(t[1])] + Lex(t[2..])
    else if "&amp;" <= t then [Entity('&')] + Lex(t[5..])
    else if "&lt;" <= t then [Entity('<')] + Lex(t[4..])
    else if "&gt;" <= t then [Entity('>')] + Lex(t[4..])
    else [Plain(t[0])] + Lex(t[1..])
  }

  function Shown(tokens: seq<Token>): string {
    if tokens == [] then "" else [tokens[0].c] + Shown(tokens[1..])
  }

  /** What a reader of the rendered page sees. */
  function Render(t: string): string {
    Shown(Lex(t))
  }

  // ----- the escape is read back exactly

  function TokenOf(c: char): Token {
    if c in BACKSLASHED then Escaped(c) else if IsMeta(c) then Entity(c) else Plain(c)
  }

  lemma LexEscape(c: char, rest: string)
    ensures Lex(Escape(c) + rest) == [TokenOf(c)] + Lex(rest)
  {
    var t := Escape(c) + rest;
    if c in BACKSLASHED {
      assert t[0] == '\\' && t[1] == c && t[2..] == rest;
    } else if c == '&' {
      assert t[5..] == rest && "&amp;" <= t;
    } else if c == '<' || c == '>' {
      assert t[4..] == rest && t[1] != 'a';
      assert c == '<' ==> "&lt;" <= t;
      assert c == '>' ==> "&gt;" <= t && t[1] != 'l';
    } else {
      assert t[0] == c && t[1..] == rest && '\\' in BACKSLASHED;
      assert !("&amp;" <= t) && !("&lt;" <= t) && !("&gt;" <= t);
    }
  }

  /** Reading escaped text back gives one token per character, and no bare metacharacter. */
  lemma {:induction false} LexTranslate(t: string)
    ensures Shown(Lex(Translate(t))) == t
    ensures |Lex(Translate(t))| == |t| && forall i | 0 <= i < |t| :: Lex(Translate(t))[i] == TokenOf(t[i])
  {
    if t != "" {
      LexEscape(t[0], Translate(t[1..]));
      LexTranslate(t[1..]);
      assert Lex(Translate(t)) == [TokenOf(t[0])] + Lex(Translate(t[1..]));
      forall i | 0 <= i < |t| ensures Lex(Translate(t))[i] == TokenOf(t[i]) {
        if i > 0 { assert t[1..][i - 1] == t[i]; }
      }
    }
  }

  lemma TranslateIsShown(t: string)
    ensures Render(Translate(t)) == t
    ensures forall token | token in Lex(Translate(t)) && token.Plain? :: !IsMeta(token.c)
  {
    LexTranslate(t);
  }

  /** Rendering the sanitized text shows the collapsed, trimmed input and no active Markdown. */
  lemma RoundTrip(t: string)
    ensures Render(Sanitize(t)) == Tidied(t)
    ensures forall token | token in Lex(Sanitize(t)) && token.Plain? :: !IsMeta(token.c)
  {
    TranslateIsShown(Tidied(t));
  }

  /** Two names look the same in the summary exactly when they differ only in white space and controls. */
  lemma SanitizeInjective(a: string, b: string)
    ensures Sanitize(a) == Sanitize(b) <==> Tidied(a) == Tidied(b)
  {
    RoundTrip(a);
    RoundTrip(b);
  }

  // ----- positions of metacharacters in the output

  predicate Joined(t: string, i: nat) {
    && i < |t|
    && (t[i] == '&' ==> "&amp;" <= t[i..] || "&lt;" <= t[i..] || "&gt;" <= t[i..])
    && t[i] != '<' && t[i] != '>'
    && (t[i] in "`*_[]()!#|~.:/@" ==> i > 0 && t[i - 1] == '\\')
  }

  lemma EscapeGuards(c: char, rest: string, i: nat)
    requires i < |Escape(c)|
    ensures Joined(Escape(c) + rest, i)
  {
    var out := Escape(c) + rest;
    assert out[0..] == out;
    if c in BACKSLASHED {
      assert out[0] == '\\' && out[1] == c;
    } else if IsMeta(c) {
      EntityIsPlain(c, i);
      assert out[i] == Escape(c)[i] && Escape(c) <= out;
    } else {
      assert out[0] == c;
    }
  }

  /** An entity begins with an ampersand and has no other metacharacter. */
  lemma EntityIsPlain(c: char, i: nat)
    requires IsMeta(c) && c !in BACKSLASHED && i < |Escape(c)|
    ensures Escape(c) in {"&amp;", "&lt;", "&gt;"}
    ensures if i == 0 then Escape(c)[i] == '&' else !IsMeta(Escape(c)[i])
  {
  }

  /**
   * Every metacharacter in the output is escaped or starts an emitted entity, so no link
   * or image joint and no URL or `www.` candidate stays contiguous.
   */
  lemma {:induction false} TranslateGuards(t: string, i: nat)
    requires i < |Translate(t)|
    ensures Joined(Translate(t), i)
  {
    var head, rest := Escape(t[0]), Translate(t[1..]);
    if i < |head| {
      EscapeGuards(t[0], rest, i);
    } else {
      TranslateGuards(t[1..], i - |head|);
      JoinedShift(head, rest, i - |head|);
    }
  }

  lemma JoinedShift(head: string, rest: string, i: nat)
    requires Joined(rest, i)
    ensures Joined(head + rest, |head| + i)
  {
    assert (head + rest)[|head| + i..] == rest[i..];
  }

  lemma SanitizeGuards(t: string)
    ensures forall i | 0 <= i < |Sanitize(t)| :: Joined(Sanitize(t), i)
  {
    forall i | 0 <= i < |Sanitize(t)| ensures Joined(Sanitize(t), i) {
      TranslateGuards(Tidied(t), i);
    }
  }

  // ----- collapsed and trimmed text

  /** One line: spaces are single and inner, and no other collapsing character is left. */
  predicate Tidy(t: string) {
    && (forall i | 0 <= i < |t| :: Collapses(t[i]) ==> t[i] == ' ')
    && (forall i | 0 <= i < |t| - 1 :: t[i] == ' ' ==> t[i + 1] != ' ')
    && (t != "" ==> t[0] != ' ' && t[|t| - 1] != ' ')
  }

  predicate Single(t: string) {
    && (forall i | 0 <= i < |t| :: Collapses(t[i]) ==> t[i] == ' ')
    && (forall i | 0 <= i < |t| - 1 :: t[i] == ' ' ==> t[i + 1] != ' ')
  }

  lemma {:induction false} CollapseIsSingle(t: string)
    ensures Single(Collapse(t))
    ensures t != "" ==> Collapse(t) != "" && (Collapses(t[0]) <==> Collapse(t)[0] == ' ')
    decreases |t|
  {
    if t != "" {
      var rest := if Collapses(t[0]) then DropRun(t[1..]) else t[1..];
      CollapseIsSingle(rest);
      assert Collapses(' ');
      SingleJoin([Collapse(t)[0]], Collapse(rest));
    }
  }

  lemma StripSingle(t: string)
    requires Single(t)
    ensures Tidy(StripRight(StripLeft(t)))
  {
    assert IsSpace(' ') && forall c: char :: IsSpace(c) ==> Collapses(c);
    assert t != "" && t[0] == ' ' ==> StripLeft(t[1..]) == t[1..];
    var l := StripLeft(t);
    assert l != "" && l[|l| - 1] == ' ' ==> StripRight(l[..|l| - 1]) == l[..|l| - 1];
  }

  lemma {:induction false} CollapseOfSingle(t: string)
    requires Single(t)
    ensures Collapse(t) == t
  {
    if t != "" {
      SingleTail(t);
      CollapseOfSingle(t[1..]);
      if Collapses(t[0]) { SingleHead(t); }
      CollapseHead(t);
      assert t == [t[0]] + t[1..];
    }
  }

  lemma SingleHead(t: string)
    requires Single(t) && t != "" && Collapses(t[0])
    ensures t[0] == ' ' && (|t| > 1 ==> !Collapses(t[1]))
  {
  }

  /** A space with nothing to drop behind it stays, like any other character. */
  lemma CollapseHead(t: string)
    requires t != "" && (Collapses(t[0]) ==> t[0] == ' ' && (|t| > 1 ==> !Collapses(t[1])))
    ensures Collapse(t) == [t[0]] + Collapse(t[1..])
  {
    if Collapses(t[0]) { NoRunToDrop(t[1..]); }
  }

  lemma NoRunToDrop(t: string)
    requires t != "" ==> !Collapses(t[0])
    ensures DropRun(t) == t
  {
  }

  /** The output of the first two steps is tidy, and tidy text is exactly what they leave alone. */
  lemma TidiedIffTidy(t: string)
    ensures Tidy(Tidied(t))
    ensures Tidied(t) == t <==> Tidy(t)
  {
    CollapseIsSingle(t);
    StripSingle(Collapse(t));
    if Tidy(t) { CollapseOfSingle(t); }
  }

  lemma EscapeIsSolid(c: char)
    requires Collapses(c) ==> c == ' '
    ensures c == ' ' ==> Escape(c) == " "
    ensures c != ' ' ==> forall i | 0 <= i < |Escape(c)| :: !Collapses(Escape(c)[i])
  {
  }

  /** Escaping adds no white space or control character. */
  lemma {:induction false} TranslateKeepsSingle(t: string)
    requires Single(t)
    ensures Single(Translate(t))
    ensures t != "" ==> Translate(t) != "" && (t[0] == ' ' <==> Translate(t)[0] == ' ')
    ensures t != "" ==> (t[|t| - 1] == ' ' <==> Translate(t)[|Translate(t)| - 1] == ' ')
  {
    if t != "" {
      SingleTail(t);
      TranslateKeepsSingle(t[1..]);
      EscapeIsSolid(t[0]);
      SingleJoin(Escape(t[0]), Translate(t[1..]));
    }
  }

  lemma SingleTail(t: string)
    requires Single(t) && t != ""
    ensures Single(t[1..])
  {
    forall i | 0 <= i < |t| - 2 ensures t[1..][i] == ' ' ==> t[1..][i + 1] != ' ' { assert t[i + 2] == t[1..][i + 1]; }
  }

  lemma SingleJoin(a: string, b: string)
    requires a != "" && Single(b)
    requires (a == " " && (b != "" ==> b[0] != ' ')) || forall i | 0 <= i < |a| :: !Collapses(a[i])
    ensures Single(a + b)
  {
    assert Collapses(' ');
  }

  /** The sanitized name is one line, with single inner spaces as its only white space. */
  lemma SanitizeIsTidy(t: string)
    ensures Tidy(Sanitize(t))
    ensures forall c | c in Sanitize(t) :: 0x20 <= c as int < 0x7f || (0x9f < c as int && !IsSpace(c))
  {
    TidiedIffTidy(t);
    TranslateKeepsSingle(Tidied(t));
  }

  lemma {:induction false} TranslateGrows(t: string)
    ensures |Translate(t)| >= |t|
    ensures Translate(t) == t <==> forall i | 0 <= i < |t| :: !IsMeta(t[i])
  {
    if t != "" {
      TranslateGrows(t[1..]);
      assert IsMeta(t[0]) ==> |Escape(t[0])| > 1;
      assert Translate(t) == Escape(t[0]) + Translate(t[1..]);
      if !IsMeta(t[0]) {
        assert Translate(t)[1..] == Translate(t[1..]);
        assert forall i | 0 <= i < |t[1..]| :: t[1..][i] == t[i + 1];
      }
    }
  }

  /** The names that stay byte-for-byte clean: tidy ones without metacharacters, and no others. */
  lemma CleanNames(t: string)
    ensures Sanitize(t) == t <==> Tidy(t) && forall i | 0 <= i < |t| :: !IsMeta(t[i])
  {
    TidiedIffTidy(t);
    SanitizeIsTidy(t);
    TranslateGrows(Tidied(t));
  }

  lemma {:induction false} StripLeftIsSuffix(t: string)
    ensures |StripLeft(t)| <= |t| && StripLeft(t) == t[|t| - |StripLeft(t)|..]
  {
    if t != "" && IsSpace(t[0]) { StripLeftIsSuffix(t[1..]); }
  }

  lemma {:induction false} StripRightIsPrefix(t: string)
    ensures StripRight(t) <= t
  {
    if t != "" && IsSpace(t[|t| - 1]) { StripRightIsPrefix(t[..|t| - 1]); }
  }
}
