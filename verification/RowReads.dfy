/** A row of the summary can be read back: no name and no detail can pass for another field. */
module RowReads {
  import opened Wrappers
  import opened Redaction
  import opened Markdown
  import opened Summary
  import opened RawTokens
  import opened PageShown
  import opened PageLeaks

  // ----- what a text is read as, whatever follows it

  ghost predicate Reads(text: string, tokens: seq<Token>) {
    forall rest: string :: Lex(text + rest) == tokens + Lex(rest)
  }

  function Plains(s: string): (tokens: seq<Token>)
    ensures |tokens| == |s| && forall i | 0 <= i < |s| :: tokens[i] == Plain(s[i])
  {
    seq(|s|, i requires 0 <= i < |s| => Plain(s[i]))
  }

  function TokensOf(s: string): (tokens: seq<Token>)
    ensures |tokens| == |s| && forall i | 0 <= i < |s| :: tokens[i] == TokenOf(s[i])
  {
    seq(|s|, i requires 0 <= i < |s| => TokenOf(s[i]))
  }

  lemma ReadsNothing()
    ensures Reads("", [])
  {
    forall rest: string ensures Lex("" + rest) == [] + Lex(rest) { assert "" + rest == rest; }
  }

  lemma Associate<T>(x: seq<T>, y: seq<T>, z: seq<T>)
    ensures (x + y) + z == x + (y + z)
  {
  }

  lemma ReadsAt(text: string, tokens: seq<Token>, rest: string)
    requires Reads(text, tokens)
    ensures Lex(text + rest) == tokens + Lex(rest)
  {
  }

  lemma ReadsBoth(a: string, x: seq<Token>, b: string, y: seq<Token>)
    requires Reads(a, x) && Reads(b, y)
    ensures Reads(a + b, x + y)
  {
    forall rest: string ensures Lex(a + b + rest) == x + y + Lex(rest) {
      ReadsAt(a, x, b + rest);
      ReadsAt(b, y, rest);
      ReadsOn(a, x, b, y, rest);
    }
  }

  lemma ReadsOn(a: string, x: seq<Token>, b: string, y: seq<Token>, rest: string)
    requires Lex(a + (b + rest)) == x + Lex(b + rest) && Lex(b + rest) == y + Lex(rest)
    ensures Lex(a + b + rest) == x + y + Lex(rest)
  {
    Associate(a, b, rest);
    Associate(x, y, Lex(rest));
  }

  lemma ReadsWhole(t: string, x: seq<Token>)
    requires Reads(t, x)
    ensures Lex(t) == x
  {
    assert t + "" == t && x + Lex("") == x;
  }

  lemma ReadsChar(c: char)
    requires c != '\\' && c != '&'
    ensures Reads([c], [Plain(c)])
  {
    forall rest: string ensures Lex([c] + rest) == [Plain(c)] + Lex(rest) {
      var t := [c] + rest;
      assert t[0] == c && t[1..] == rest;
      NotPrefix("&amp;", t);
      NotPrefix("&lt;", t);
      NotPrefix("&gt;", t);
    }
  }

  lemma NoMarksTail(s: string)
    requires NoMarks(s) && s != ""
    ensures s[0] != '\\' && s[0] != '&' && NoMarks(s[1..])
  {
    assert s[0] in s;
    forall c | c in s[1..] ensures c in s { }
  }

  lemma PlainsTail(s: string)
    requires s != ""
    ensures s == [s[0]] + s[1..] && Plains(s) == [Plain(s[0])] + Plains(s[1..])
  {
  }

  lemma {:induction false} ReadsPlain(s: string)
    requires NoMarks(s)
    ensures Reads(s, Plains(s))
  {
    if s == "" {
      ReadsNothing();
    } else {
      NoMarksTail(s);
      PlainsTail(s);
      ReadsChar(s[0]);
      ReadsPlain(s[1..]);
      ReadsBoth([s[0]], [Plain(s[0])], s[1..], Plains(s[1..]));
    }
  }

  lemma ReadsEscape(c: char)
    ensures Reads(Escape(c), [TokenOf(c)])
  {
    forall rest: string ensures Lex(Escape(c) + rest) == [TokenOf(c)] + Lex(rest) { LexEscape(c, rest); }
  }

  lemma {:induction false} ReadsField(n: string)
    ensures Reads(Translate(n), TokensOf(n))
  {
    if n == "" {
      ReadsNothing();
    } else {
      ReadsEscape(n[0]);
      ReadsField(n[1..]);
      ReadsBoth(Escape(n[0]), [TokenOf(n[0])], Translate(n[1..]), TokensOf(n[1..]));
      assert TokensOf(n) == [TokenOf(n[0])] + TokensOf(n[1..]);
    }
  }

  // ----- fields between bars

  const BAR := Plain('|')

  function Barred(parts: seq<seq<Token>>): seq<Token> {
    if parts == [] then [] else if |parts| == 1 then parts[0] else parts[0] + ([BAR] + Barred(parts[1..]))
  }

  function BarredText(texts: seq<string>): string {
    if texts == [] then "" else if |texts| == 1 then texts[0] else texts[0] + (['|'] + BarredText(texts[1..]))
  }

  predicate BarFree(parts: seq<seq<Token>>) {
    forall i | 0 <= i < |parts| :: BAR !in parts[i]
  }

  lemma {:induction false} ReadsBarred(texts: seq<string>, parts: seq<seq<Token>>)
    requires texts != [] && AllRead(texts, parts)
    ensures Reads(BarredText(texts), Barred(parts))
  {
    if |texts| > 1 {
      forall i | 0 <= i < |texts| - 1 ensures Reads(texts[1..][i], parts[1..][i]) {
        assert Reads(texts[i + 1], parts[i + 1]);
      }
      ReadsBarred(texts[1..], parts[1..]);
      ReadsChar('|');
      ReadsBoth(['|'], [BAR], BarredText(texts[1..]), Barred(parts[1..]));
      ReadsBoth(texts[0], parts[0], ['|'] + BarredText(texts[1..]), [BAR] + Barred(parts[1..]));
    }
  }

  lemma SplitAgrees<T>(sep: T, a: seq<T>, x: seq<T>, b: seq<T>, y: seq<T>)
    requires sep !in a && sep !in b && a + ([sep] + x) == b + ([sep] + y)
    ensures a == b && x == y
  {
    var l, r := a + ([sep] + x), b + ([sep] + y);
    assert l[|a|] == sep && r[|b|] == sep;
    assert forall i | 0 <= i < |a| :: l[i] == a[i];
    assert forall i | 0 <= i < |b| :: r[i] == b[i];
    assert a == l[..|a|] && b == r[..|b|];
    assert x == l[|a| + 1..] && y == r[|b| + 1..];
  }

  lemma BarredHasBar(a: seq<seq<Token>>)
    requires a != [] && BarFree(a)
    ensures BAR in Barred(a) <==> |a| > 1
  {
    if |a| > 1 { assert (a[0] + ([BAR] + Barred(a[1..])))[|a[0]|] == BAR; }
  }

  lemma {:induction false} BarredInjective(a: seq<seq<Token>>, b: seq<seq<Token>>)
    requires a != [] && b != [] && BarFree(a) && BarFree(b) && Barred(a) == Barred(b)
    ensures a == b
  {
    BarredHasBar(a);
    BarredHasBar(b);
    if |a| > 1 {
      SplitAgrees(BAR, a[0], Barred(a[1..]), b[0], Barred(b[1..]));
      BarredInjective(a[1..], b[1..]);
      assert a == [a[0]] + a[1..] && b == [b[0]] + b[1..];
    }
  }

  // ----- the fields of a row

  /** No bar, no colon and nothing escaped. */
  predicate LeanText(s: string) {
    NoMarks(s) && '|' !in s && ':' !in s
  }

  /** The enumerations and numbers of a row, which the program renders itself. */
  predicate Lean(row: Row) {
    && LeanText(row.classification) && LeanText(row.action) && LeanText(row.elapsed)
    && (row.reason.Some? ==> LeanText(row.reason.value))
  }

  function LeadText(row: Row, name: string): string {
    ("- " + Translate(name)) + ([':'] + (" " + row.classification + " "))
  }

  function Lead(row: Row, name: string): seq<Token> {
    (Plains("- ") + TokensOf(name)) + ([Plain(':')] + Plains(" " + row.classification + " "))
  }

  function ActionText(row: Row): string {
    " action: " + row.action + " "
  }

  function ElapsedText(row: Row): string {
    " elapsed=" + row.elapsed + " "
  }

  function ReasonText(reason: string): string {
    " reason: " + reason + " "
  }

  function DetailText(detail: string): string {
    (" " + Translate(detail)) + " "
  }

  function Detail(detail: string): seq<Token> {
    (Plains(" ") + TokensOf(detail)) + Plains(" ")
  }

  function CloseText(row: Row): string {
    if row.pass then " PASS" else " FAIL"
  }

  /** The texts between the bars of a row that shows this name and this detail. */
  function Texts(row: Row, name: string, detail: Option<string>): seq<string> {
    [LeadText(row, name), ActionText(row), ElapsedText(row)]
    + (if row.reason.Some? then [ReasonText(row.reason.value)] else [])
    + (if detail.Some? then [DetailText(detail.value)] else [])
    + [CloseText(row)]
  }

  function Fields(row: Row, name: string, detail: Option<string>): seq<seq<Token>> {
    [Lead(row, name), Plains(ActionText(row)), Plains(ElapsedText(row))]
    + (if row.reason.Some? then [Plains(ReasonText(row.reason.value))] else [])
    + (if detail.Some? then [Detail(detail.value)] else [])
    + [Plains(CloseText(row))]
  }

  lemma ReadsLead(row: Row, name: string)
    requires Lean(row)
    ensures Reads(LeadText(row, name), Lead(row, name))
  {
    var cls := " " + row.classification + " ";
    ReadsPlain("- ");
    ReadsField(name);
    ReadsBoth("- ", Plains("- "), Translate(name), TokensOf(name));
    ReadsChar(':');
    ReadsPlain(cls);
    ReadsBoth([':'], [Plain(':')], cls, Plains(cls));
    ReadsBoth("- " + Translate(name), Plains("- ") + TokensOf(name), [':'] + cls, [Plain(':')] + Plains(cls));
  }

  lemma ReadsDetail(detail: string)
    ensures Reads(DetailText(detail), Detail(detail))
  {
    ReadsPlain(" ");
    ReadsField(detail);
    ReadsBoth(" ", Plains(" "), Translate(detail), TokensOf(detail));
    ReadsBoth(" " + Translate(detail), Plains(" ") + TokensOf(detail), " ", Plains(" "));
  }

  ghost predicate AllRead(texts: seq<string>, parts: seq<seq<Token>>) {
    |texts| == |parts| && forall i | 0 <= i < |texts| :: Reads(texts[i], parts[i])
  }

  lemma AllReadMore(texts: seq<string>, parts: seq<seq<Token>>, t: string, x: seq<Token>)
    requires AllRead(texts, parts) && Reads(t, x)
    ensures AllRead(texts + [t], parts + [x])
  {
  }

  lemma ReadsHead(row: Row, name: string)
    requires Lean(row)
    ensures AllRead([LeadText(row, name), ActionText(row), ElapsedText(row)],
      [Lead(row, name), Plains(ActionText(row)), Plains(ElapsedText(row))])
  {
    ReadsLead(row, name);
    ReadsPlain(ActionText(row));
    ReadsPlain(ElapsedText(row));
  }

  lemma ReadsRow(row: Row, name: string, detail: Option<string>)
    requires Lean(row)
    ensures Reads(BarredText(Texts(row, name, detail)), Barred(Fields(row, name, detail)))
  {
    var texts := [LeadText(row, name), ActionText(row), ElapsedText(row)];
    var parts := [Lead(row, name), Plains(ActionText(row)), Plains(ElapsedText(row))];
    ReadsHead(row, name);
    ReadsTail(row, detail, texts, parts);
    ReadsBarred(Texts(row, name, detail), Fields(row, name, detail));
  }

  lemma ReadsTail(row: Row, detail: Option<string>, texts: seq<string>, parts: seq<seq<Token>>)
    requires Lean(row) && AllRead(texts, parts)
    ensures AllRead(
      texts + (if row.reason.Some? then [ReasonText(row.reason.value)] else [])
        + (if detail.Some? then [DetailText(detail.value)] else []) + [CloseText(row)],
      parts + (if row.reason.Some? then [Plains(ReasonText(row.reason.value))] else [])
        + (if detail.Some? then [Detail(detail.value)] else []) + [Plains(CloseText(row))])
  {
    var t, x := texts, parts;
    assert texts + [] == texts && parts + [] == parts;
    if row.reason.Some? {
      ReadsPlain(ReasonText(row.reason.value));
      AllReadMore(t, x, ReasonText(row.reason.value), Plains(ReasonText(row.reason.value)));
      t, x := t + [ReasonText(row.reason.value)], x + [Plains(ReasonText(row.reason.value))];
    }
    assert t + [] == t && x + [] == x;
    if detail.Some? {
      ReadsDetail(detail.value);
      AllReadMore(t, x, DetailText(detail.value), Detail(detail.value));
      t, x := t + [DetailText(detail.value)], x + [Detail(detail.value)];
    }
    ReadsPlain(CloseText(row));
    AllReadMore(t, x, CloseText(row), Plains(CloseText(row)));
  }

  // ----- the row is these fields between bars

  lemma BarredCons(t: string, rest: seq<string>)
    requires rest != []
    ensures BarredText([t] + rest) == t + (['|'] + BarredText(rest))
  {
    assert ([t] + rest)[1..] == rest;
  }

  lemma GlueCons(t: string, rest: seq<string>)
    ensures Glue([t] + rest) == t + Glue(rest)
  {
    assert ([t] + rest)[1..] == rest;
  }

  /** The texts behind the elapsed time. */
  function LastTexts(row: Row, detail: Option<string>): seq<string> {
    (if row.reason.Some? then [ReasonText(row.reason.value)] else [])
    + (if detail.Some? then [DetailText(detail.value)] else [])
    + [CloseText(row)]
  }

  function Last(row: Row, detail: Option<string>): string {
    (if row.reason.Some? then " | reason: " + row.reason.value else "")
    + (if detail.Some? then " | " + Translate(detail.value) else "")
    + (if row.pass then " | PASS" else " | FAIL")
  }

  lemma LastIsBarred(row: Row, detail: Option<string>)
    ensures Last(row, detail) == [' '] + (['|'] + BarredText(LastTexts(row, detail)))
  {
    var close := CloseText(row);
    var end := if row.pass then " | PASS" else " | FAIL";
    var r := if row.reason.Some? then " | reason: " + row.reason.value else "";
    var shown := if detail.Some? then " | " + Translate(detail.value) else "";
    var d := if detail.Some? then [DetailText(detail.value)] else [];
    assert end == [' '] + (['|'] + close);
    DetailIsBarred(detail, close);
    ReasonInFront(row.reason, shown + end, d + [close]);
    Regroup(r, shown, end);
    assert LastTexts(row, detail)
        == (if row.reason.Some? then [ReasonText(row.reason.value)] else []) + (d + [close]);
  }

  lemma ReasonInFront(reason: Option<string>, x: string, texts: seq<string>)
    requires texts != [] && x == [' '] + (['|'] + BarredText(texts))
    ensures (if reason.Some? then " | reason: " + reason.value else "") + x
         == [' '] + (['|'] + BarredText((if reason.Some? then [ReasonText(reason.value)] else []) + texts))
  {
    if reason.Some? {
      BarredCons(ReasonText(reason.value), texts);
      ReasonIsBarred(reason.value, BarredText(texts));
    } else {
      assert [] + texts == texts && "" + x == x;
    }
  }

  lemma DetailIsBarred(detail: Option<string>, close: string)
    ensures (if detail.Some? then " | " + Translate(detail.value) else "") + ([' '] + (['|'] + close))
         == [' '] + (['|'] + BarredText((if detail.Some? then [DetailText(detail.value)] else []) + [close]))
  {
    if detail.Some? {
      var n := Translate(detail.value);
      BarredCons(DetailText(detail.value), [close]);
      DetailPieces(n, ['|'] + close);
    } else {
      assert [] + [close] == [close];
      assert "" + ([' '] + (['|'] + close)) == [' '] + (['|'] + close);
    }
  }

  lemma DetailPieces(n: string, rest: string)
    ensures " | " + n + ([' '] + rest) == [' '] + (['|'] + (((" " + n) + " ") + rest))
  {
  }

  lemma ReasonIsBarred(reason: string, rest: string)
    ensures " | reason: " + reason + ([' '] + (['|'] + rest))
         == [' '] + (['|'] + (ReasonText(reason) + (['|'] + rest)))
  {
  }

  lemma HeadIsBarred(row: Row, name: string, rest: string)
    ensures Glue(["- ", Translate(name), ": ",
                  row.classification, " | action: ", row.action, " | elapsed=", row.elapsed])
            + ([' '] + rest)
         == LeadText(row, name) + (['|'] + (ActionText(row) + (['|'] + (ElapsedText(row) + rest))))
  {
    GlueEight("- ", Translate(name), ": ", row.classification, " | action: ", row.action, " | elapsed=", row.elapsed);
    HeadPieces(Translate(name), row.classification, row.action, row.elapsed, rest);
  }

  lemma GlueEight(a: string, b: string, c: string, d: string, e: string, f: string, g: string, h: string)
    ensures Glue([a, b, c, d, e, f, g, h]) == a + (b + (c + (d + (e + (f + (g + h))))))
  {
    GlueCons(g, [h]);
    GlueOne(h);
    GlueCons(f, [g, h]);
    GlueCons(e, [f, g, h]);
    GlueCons(d, [e, f, g, h]);
    GlueCons(c, [d, e, f, g, h]);
    GlueCons(b, [c, d, e, f, g, h]);
    GlueCons(a, [b, c, d, e, f, g, h]);
    assert [g] + [h] == [g, h] && [f] + [g, h] == [f, g, h] && [e] + [f, g, h] == [e, f, g, h];
    assert [d] + [e, f, g, h] == [d, e, f, g, h] && [c] + [d, e, f, g, h] == [c, d, e, f, g, h];
    assert [b] + [c, d, e, f, g, h] == [b, c, d, e, f, g, h];
    assert [a] + [b, c, d, e, f, g, h] == [a, b, c, d, e, f, g, h];
  }

  lemma HeadPieces(n: string, c: string, a: string, e: string, rest: string)
    ensures ("- " + (n + (": " + (c + (" | action: " + (a + (" | elapsed=" + e))))))) + ([' '] + rest)
         == (("- " + n) + ([':'] + (" " + c + " ")))
            + (['|'] + ((" action: " + a + " ") + (['|'] + ((" elapsed=" + e + " ") + rest))))
  {
  }

  /** A row with sanitized name and detail is its fields between bars. */
  lemma RowIsBarred(row: Row, name: string, detail: Option<string>)
    ensures RowLine(row, Translate(name), if detail.Some? then Some(Translate(detail.value)) else None)
         == BarredText(Texts(row, name, detail))
  {
    var last := LastTexts(row, detail);
    LastIsBarred(row, detail);
    HeadIsBarred(row, name, ['|'] + BarredText(last));
    GlueThree(if row.reason.Some? then " | reason: " + row.reason.value else "",
      if detail.Some? then " | " + Translate(detail.value) else "", if row.pass then " | PASS" else " | FAIL");
    BarredThree(LeadText(row, name), ActionText(row), ElapsedText(row), last);
    TextsInOrder(row, name, detail);
  }

  lemma TextsInOrder(row: Row, name: string, detail: Option<string>)
    ensures Texts(row, name, detail)
         == [LeadText(row, name)] + ([ActionText(row)] + ([ElapsedText(row)] + LastTexts(row, detail)))
  {
  }

  lemma BarredThree(a: string, b: string, c: string, last: seq<string>)
    requires last != []
    ensures BarredText([a] + ([b] + ([c] + last)))
         == a + (['|'] + (b + (['|'] + (c + (['|'] + BarredText(last))))))
  {
    BarredCons(c, last);
    BarredCons(b, [c] + last);
    BarredCons(a, [b] + ([c] + last));
  }

  // ----- and each field is read back

  lemma NoBars(row: Row, name: string, detail: Option<string>)
    requires Lean(row)
    ensures BarFree(Fields(row, name, detail))
  {
    PlainsLack("- ", '|');
    PlainsLack(" " + row.classification + " ", '|');
    PlainsLack(ActionText(row), '|');
    PlainsLack(ElapsedText(row), '|');
    if row.reason.Some? { PlainsLack(ReasonText(row.reason.value), '|'); }
    PlainsLack(" ", '|');
    PlainsLack(CloseText(row), '|');
    TokensLack(name, '|');
    if detail.Some? { TokensLack(detail.value, '|'); }
  }

  lemma PlainsLack(s: string, c: char)
    requires c !in s
    ensures Plain(c) !in Plains(s)
  {
  }

  lemma TokensLack(s: string, c: char)
    requires IsMeta(c)
    ensures Plain(c) !in TokensOf(s)
  {
  }

  lemma PlainsInjective(a: string, b: string)
    requires Plains(a) == Plains(b)
    ensures a == b
  {
    assert |a| == |Plains(a)| == |b|;
    forall i | 0 <= i < |a| ensures a[i] == b[i] { assert Plains(a)[i] == Plains(b)[i]; }
  }

  lemma TokensInjective(a: string, b: string)
    requires TokensOf(a) == TokensOf(b)
    ensures a == b
  {
    assert |a| == |TokensOf(a)| == |b|;
    forall i | 0 <= i < |a| ensures a[i] == b[i] { assert TokensOf(a)[i] == TokensOf(b)[i]; }
  }

  lemma Unwrap<T>(front: seq<T>, x: seq<T>, y: seq<T>, back: seq<T>)
    requires front + x + back == front + y + back
    ensures x == y
  {
    var l, r := front + x + back, front + y + back;
    assert |x| == |y|;
    assert x == l[|front|..|front| + |x|] && y == r[|front|..|front| + |y|];
  }

  lemma LeadsApart(q: Row, m: string, r: Row, n: string)
    requires Lead(q, m) == Lead(r, n)
    ensures m == n && q.classification == r.classification
  {
    PlainsLack("- ", ':');
    TokensLack(m, ':');
    TokensLack(n, ':');
    var a, b := " " + q.classification + " ", " " + r.classification + " ";
    SplitAgrees(Plain(':'), Plains("- ") + TokensOf(m), Plains(a), Plains("- ") + TokensOf(n), Plains(b));
    PlainsInjective(a, b);
    Unwrap(" ", q.classification, r.classification, " ");
    assert Plains("- ") + TokensOf(m) + [] == Plains("- ") + TokensOf(m);
    assert Plains("- ") + TokensOf(n) + [] == Plains("- ") + TokensOf(n);
    Unwrap(Plains("- "), TokensOf(m), TokensOf(n), []);
    TokensInjective(m, n);
  }

  /** A detail has no bare colon, a reason has one. */
  lemma ReasonIsNotDetail(reason: string, detail: string)
    ensures Plains(ReasonText(reason)) != Detail(detail)
  {
    TokensLack(detail, ':');
    assert ReasonText(reason)[7] == ':' && Plains(ReasonText(reason))[7] == Plain(':');
    PlainsLack(" ", ':');
    assert Plain(':') !in Detail(detail);
  }

  lemma SameReason(a: string, b: string)
    requires Plains(ReasonText(a)) == Plains(ReasonText(b))
    ensures a == b
  {
    PlainsInjective(ReasonText(a), ReasonText(b));
    Unwrap(" reason: ", a, b, " ");
  }

  lemma SameDetail(a: string, b: string)
    requires Detail(a) == Detail(b)
    ensures a == b
  {
    Unwrap(Plains(" "), TokensOf(a), TokensOf(b), Plains(" "));
    TokensInjective(a, b);
  }

  lemma SameClose(q: Row, r: Row)
    requires Plains(CloseText(q)) == Plains(CloseText(r))
    ensures q.pass == r.pass
  {
    PlainsInjective(CloseText(q), CloseText(r));
    assert " PASS"[1] == 'P' && " FAIL"[1] == 'F';
  }

  /** The fields between the elapsed time and the verdict. */
  function Extras(row: Row, detail: Option<string>): seq<seq<Token>> {
    (if row.reason.Some? then [Plains(ReasonText(row.reason.value))] else [])
    + (if detail.Some? then [Detail(detail.value)] else [])
  }

  lemma SplitFields(row: Row, name: string, detail: Option<string>)
    ensures Fields(row, name, detail) ==
      [Lead(row, name), Plains(ActionText(row)), Plains(ElapsedText(row))] + Extras(row, detail)
      + [Plains(CloseText(row))]
  {
  }

  lemma ExtrasApart(q: Row, d: Option<string>, r: Row, e: Option<string>)
    requires Extras(q, d) == Extras(r, e)
    ensures q.reason == r.reason && d == e
  {
    var x, y := Extras(q, d), Extras(r, e);
    if q.reason.Some? && r.reason.Some? {
      assert x[0] == y[0];
      SameReason(q.reason.value, r.reason.value);
      if d.Some? && e.Some? {
        assert x[1] == y[1];
        SameDetail(d.value, e.value);
      }
    } else if q.reason.None? && r.reason.None? {
      if d.Some? && e.Some? {
        assert x[0] == y[0];
        SameDetail(d.value, e.value);
      }
    } else if q.reason.Some? {
      ReasonShows(q, d, r, e);
    } else {
      ReasonShows(r, e, q, d);
    }
  }

  lemma ReasonShows(q: Row, d: Option<string>, r: Row, e: Option<string>)
    requires q.reason.Some? && r.reason.None?
    ensures Extras(q, d) != Extras(r, e)
  {
    assert Extras(q, d)[0] == Plains(ReasonText(q.reason.value));
    if e.Some? {
      ReasonIsNotDetail(q.reason.value, e.value);
      assert Extras(r, e) == [Detail(e.value)];
    } else {
      assert Extras(r, e) == [];
    }
  }

  lemma FieldsApart(q: Row, m: string, d: Option<string>, r: Row, n: string, e: Option<string>)
    requires Fields(q, m, d) == Fields(r, n, e)
    ensures m == n && q.classification == r.classification && q.action == r.action && q.elapsed == r.elapsed
    ensures q.reason == r.reason && d == e && q.pass == r.pass
  {
    var x, y := Fields(q, m, d), Fields(r, n, e);
    SplitFields(q, m, d);
    SplitFields(r, n, e);
    assert x[0] == y[0] && x[1] == y[1] && x[2] == y[2] && x[|x| - 1] == y[|y| - 1];
    LeadsApart(q, m, r, n);
    PlainsInjective(ActionText(q), ActionText(r));
    Unwrap(" action: ", q.action, r.action, " ");
    PlainsInjective(ElapsedText(q), ElapsedText(r));
    Unwrap(" elapsed=", q.elapsed, r.elapsed, " ");
    SameClose(q, r);
    assert Extras(q, d) == x[3..|x| - 1] && Extras(r, e) == y[3..|y| - 1];
    ExtrasApart(q, d, r, e);
  }

  /** What a row shows as its detail. */
  function ShownDetail(secrets: seq<string>, patterns: seq<Pattern>, row: Row): Option<string>
    requires "" !in secrets
  {
    if row.detail.Some? && row.detail.value != "" then
      Some(Tidied(Redacted(secrets, patterns, row.detail.value)))
    else None
  }

  lemma SafeRowReads(secrets: seq<string>, patterns: seq<Pattern>, row: Row)
    requires "" !in secrets && Lean(row)
    ensures Lex(SafeRow(secrets, patterns, row))
         == Barred(Fields(row, Tidied(Redacted(secrets, patterns, row.name)), ShownDetail(secrets, patterns, row)))
  {
    var name, detail := Tidied(Redacted(secrets, patterns, row.name)), ShownDetail(secrets, patterns, row);
    RowIsBarred(row, name, detail);
    ReadsRow(row, name, detail);
    ReadsWhole(BarredText(Texts(row, name, detail)), Barred(Fields(row, name, detail)));
  }

  /**
   * No name and no detail can forge a field: equal rows have equal verdicts, classifications, actions,
   * times and reasons, and the same redacted name and detail up to white space.
   */
  lemma RowsApart(secrets: seq<string>, patterns: seq<Pattern>, q: Row, r: Row)
    requires "" !in secrets && Lean(q) && Lean(r)
    requires SafeRow(secrets, patterns, q) == SafeRow(secrets, patterns, r)
    ensures q.pass == r.pass && q.classification == r.classification && q.action == r.action
    ensures q.elapsed == r.elapsed && q.reason == r.reason
    ensures Tidied(Redacted(secrets, patterns, q.name)) == Tidied(Redacted(secrets, patterns, r.name))
    ensures ShownDetail(secrets, patterns, q) == ShownDetail(secrets, patterns, r)
  {
    var m, n := Tidied(Redacted(secrets, patterns, q.name)), Tidied(Redacted(secrets, patterns, r.name));
    var d, e := ShownDetail(secrets, patterns, q), ShownDetail(secrets, patterns, r);
    SafeRowReads(secrets, patterns, q);
    SafeRowReads(secrets, patterns, r);
    NoBars(q, m, d);
    NoBars(r, n, e);
    BarredInjective(Fields(q, m, d), Fields(r, n, e));
    FieldsApart(q, m, d, r, n, e);
  }

  /** The verdict is the last word of the row. */
  lemma RowTellsVerdict(secrets: seq<string>, patterns: seq<Pattern>, row: Row)
    requires "" !in secrets
    ensures Ends("PASS", SafeRow(secrets, patterns, row)) <==> row.pass
    ensures Ends("FAIL", SafeRow(secrets, patterns, row)) <==> !row.pass
  {
    var detail := if HasDetail(row) then Some(SafeField(secrets, patterns, row.detail.value)) else None;
    var front := RowFront(row, SafeField(secrets, patterns, row.name), detail);
    EndsInWord(SafeRow(secrets, patterns, row), front, if row.pass then "PASS" else "FAIL");
  }

  lemma RowFront(row: Row, name: string, detail: Option<string>) returns (front: string)
    ensures RowLine(row, name, detail) == front + if row.pass then "PASS" else "FAIL"
  {
    var head := Glue(["- ", name, ": ", row.classification, " | action: ", row.action, " | elapsed=", row.elapsed]);
    var r := if row.reason.Some? then " | reason: " + row.reason.value else "";
    var d := if detail.Some? then " | " + detail.value else "";
    var word := if row.pass then "PASS" else "FAIL";
    var v := if row.pass then " | PASS" else " | FAIL";
    GlueThree(r, d, v);
    assert v == " | " + word;
    front := head + (r + d) + " | ";
    FourParts(head, r + d, " | ", word);
  }

  lemma FourParts(a: string, b: string, c: string, d: string)
    ensures a + (b + (c + d)) == (a + b + c) + d
  {
  }

  lemma EndsInWord(t: string, front: string, word: string)
    requires t == front + word && (word == "PASS" || word == "FAIL")
    ensures Ends("PASS", t) <==> word == "PASS"
    ensures Ends("FAIL", t) <==> word == "FAIL"
  {
    assert t[|t| - 4..] == word && "PASS"[0] != "FAIL"[0];
  }
}
