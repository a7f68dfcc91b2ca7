/** The step summary: names are redacted, then made inert, and the whole is redacted again. */
module Summary {
  import opened Text
  import opened Redaction
  import opened RedactionSafety
  import opened Markdown
  import opened Wrappers

  /** No white space or control character anywhere. */
  predicate Solid(s: string) {
    s != "" && forall i | 0 <= i < |s| :: !Collapses(s[i])
  }

  lemma FrontStep(t: string, s: string)
    requires t != "" && s != ""
    ensures At(t, 0, s) <==> t[0] == s[0] && At(t[1..], 0, s[1..])
  {
    if At(t, 0, s) {
      assert t[0..|s|][0] == s[0] && t[0..|s|][1..] == t[1..][0..|s| - 1];
    }
    if t[0] == s[0] && At(t[1..], 0, s[1..]) {
      assert t[0..|s|] == [t[0]] + t[1..][0..|s| - 1] && s == [s[0]] + s[1..];
    }
  }

  lemma {:induction false} CollapsePrefix(t: string, s: string)
    requires (forall i | 0 <= i < |s| :: !Collapses(s[i])) && At(Collapse(t), 0, s)
    ensures At(t, 0, s)
    decreases |s|
  {
    if s != "" {
      FrontStep(Collapse(t), s);
      FrontStep(t, s);
      assert Collapses(' ') && !Collapses(s[0]);
      assert Collapse(t)[1..] == Collapse(t[1..]);
      CollapsePrefix(t[1..], s[1..]);
    }
  }

  /** Collapsing white space cannot join two parts of a text into a word without white space. */
  lemma {:induction false} CollapseCreatesNothing(t: string, s: string, p: nat)
    requires Solid(s) && At(Collapse(t), p, s)
    ensures Occurs(s, t)
    decreases |t|
  {
    assert t != "";
    if p == 0 {
      CollapsePrefix(t, s);
    } else {
      var rest := if Collapses(t[0]) then DropRun(t[1..]) else t[1..];
      AtShift([Collapse(t)[0]], Collapse(rest), p - 1, s);
      assert Collapse(t) == [Collapse(t)[0]] + Collapse(rest);
      CollapseCreatesNothing(rest, s, p - 1);
      var n := |t| - |rest|;
      assert t == t[..n] + rest + "";
      OccursInPart(s, t[..n], rest, "");
    }
  }

  lemma TidiedCreatesNothing(t: string, s: string)
    requires Solid(s)
    ensures Occurs(s, Tidied(t)) ==> Occurs(s, t)
  {
    if Occurs(s, Tidied(t)) {
      var c := Collapse(t);
      StripsCreateNothing(c, s);
      var p: nat :| p <= |c| && At(c, p, s);
      CollapseCreatesNothing(t, s, p);
    }
  }

  lemma StripsCreateNothing(c: string, s: string)
    requires Occurs(s, StripRight(StripLeft(c)))
    ensures Occurs(s, c)
  {
    var l := StripLeft(c);
    var r := StripRight(l);
    StripLeftIsSuffix(c);
    StripRightIsPrefix(l);
    assert c == c[..|c| - |l|] + r + l[|r|..];
    OccursInPart(s, c[..|c| - |l|], r, l[|r|..]);
  }

  /**
   * What a reader sees of a redacted, sanitized field contains no secret. The program redacts the
   * whole summary once more after that; `PageShown` and `PageLeaks` are about what the page shows then.
   */
  lemma RenderedNameIsSafe(secrets: seq<string>, patterns: seq<Pattern>, name: string, s: string)
    requires s in secrets && CoreDisjoint(secrets) && Solid(s) && forall p | p in patterns :: Cuts(p)
    ensures !Occurs(s, Render(Sanitize(Redacted(secrets, patterns, name))))
  {
    var r := Redacted(secrets, patterns, name);
    RoundTrip(r);
    NoSecretSurvives(secrets, patterns, name, s);
    TidiedCreatesNothing(r, s);
  }

  // ----- rendering text that is free of a secret

  /** No character that Markdown can escape or name by an entity. */
  predicate Unpunctuated(s: string) {
    forall i | 0 <= i < |s| :: !IsPunctuation(s[i])
  }

  /** How much of the text the first token takes, and what it shows. */
  lemma FirstToken(t: string) returns (w: nat, c: char)
    requires t != ""
    ensures 1 <= w <= |t| && Shown(Lex(t)) == [c] + Shown(Lex(t[w..]))
    ensures IsPunctuation(c) || (w == 1 && c == t[0])
  {
    if t[0] == '\\' && |t| > 1 && IsPunctuation(t[1]) {
      w, c := 2, t[1];
    } else if "&amp;" <= t {
      w, c := 5, '&';
    } else if "&lt;" <= t {
      w, c := 4, '<';
    } else if "&gt;" <= t {
      w, c := 4, '>';
    } else {
      w, c := 1, t[0];
    }
    assert Lex(t) == [Lex(t)[0]] + Lex(t[w..]) && Lex(t)[0].c == c;
  }

  lemma {:induction false} ShownInFront(t: string, s: string)
    requires Unpunctuated(s) && At(Shown(Lex(t)), 0, s)
    ensures At(t, 0, s)
    decreases |s|
  {
    if s != "" {
      assert t != "";
      var w, c := FirstToken(t);
      var rest := Shown(Lex(t[w..]));
      assert s[0] == ([c] + rest)[0..|s|][0] == c && !IsPunctuation(s[0]);
      assert s == [c] + s[1..];
      AtShift([c], rest, 0, s[1..]);
      assert ([c] + rest)[1..|s|] == ([c] + rest)[0..|s|][1..] == s[1..];
      ShownInFront(t[1..], s[1..]);
      assert t == [t[0]] + t[1..];
    }
  }

  /** What a page shows without punctuation stands in its source just so. */
  lemma {:induction false} ShownStands(t: string, s: string, p: nat)
    requires Unpunctuated(s) && At(Shown(Lex(t)), p, s)
    ensures Occurs(s, t)
    decreases |t|
  {
    if p == 0 {
      ShownInFront(t, s);
      OccursAt(s, t, 0);
    } else {
      assert t != "";
      var w, c := FirstToken(t);
      AtShift([c], Shown(Lex(t[w..])), p - 1, s);
      ShownStands(t[w..], s, p - 1);
      assert t == t[..w] + t[w..] + "";
      OccursInPart(s, t[..w], t[w..], "");
    }
  }

  /** Any redacted text at all shows no secret that has no punctuation. */
  lemma RenderedTextIsSafe(secrets: seq<string>, patterns: seq<Pattern>, text: string, s: string)
    requires s in secrets && CoreDisjoint(secrets) && Unpunctuated(s) && forall p | p in patterns :: Cuts(p)
    ensures !Occurs(s, Render(Redacted(secrets, patterns, text)))
  {
    var raw := Redacted(secrets, patterns, text);
    NoSecretSurvives(secrets, patterns, text, s);
    if Occurs(s, Render(raw)) {
      var p: nat :| p <= |Render(raw)| && At(Render(raw), p, s);
      ShownStands(raw, s, p);
    }
  }

  // ----- the whole summary

  /** One target's outcome, its enumerations and numbers already rendered as text. */
  datatype Row = Row(
    name: string, classification: string, action: string, elapsed: string,
    reason: Option<string>, detail: Option<string>, pass: bool)

  /** The fixed lines: the headline, the host-down notice and the closing verdict. */
  datatype Wording = Wording(headline: string, hostDown: string, result: (nat, nat) -> string)

  function Failed(rows: seq<Row>): nat {
    if rows == [] then 0 else (if rows[0].pass then 0 else 1) + Failed(rows[1..])
  }

  /** The rows that did not pass. */
  lemma {:induction false} FailedCounted(rows: seq<Row>)
    ensures Failed(rows) == |set i: nat | i < |rows| && !rows[i].pass|
  {
    if rows != [] {
      var n := |rows| - 1;
      FailedCounted(rows[..n]);
      FailedLast(rows[..n], rows[n]);
      assert rows == rows[..n] + [rows[n]];
      var before, all := set i: nat | i < n && !rows[..n][i].pass, set i: nat | i < |rows| && !rows[i].pass;
      assert all == if rows[n].pass then before else before + {n};
    }
  }

  lemma {:induction false} FailedLast(rows: seq<Row>, row: Row)
    ensures Failed(rows + [row]) == Failed(rows) + if row.pass then 0 else 1
  {
    if rows == [] {
      assert [] + [row] == [row] && [row][1..] == [];
    } else {
      assert (rows + [row])[1..] == rows[1..] + [row];
      FailedLast(rows[1..], row);
    }
  }

  function SafeField(secrets: seq<string>, patterns: seq<Pattern>, text: string): string
    requires "" !in secrets
  {
    Sanitize(Redacted(secrets, patterns, text))
  }

  function Glue(parts: seq<string>): string {
    if parts == [] then "" else parts[0] + Glue(parts[1..])
  }

  /** A summary row, given its name and detail as they are shown; a detail may be shown as nothing at all. */
  function RowLine(row: Row, name: string, detail: Option<string>): string {
    Glue(["- ", name, ": ", row.classification, " | action: ", row.action, " | elapsed=", row.elapsed])
    + Glue([if row.reason.Some? then " | reason: " + row.reason.value else "",
            if detail.Some? then " | " + detail.value else "",
            if row.pass then " | PASS" else " | FAIL"])
  }

  predicate HasDetail(row: Row) {
    row.detail.Some? && row.detail.value != ""
  }

  function SafeRow(secrets: seq<string>, patterns: seq<Pattern>, row: Row): string
    requires "" !in secrets
  {
    RowLine(row, SafeField(secrets, patterns, row.name),
      if HasDetail(row) then Some(SafeField(secrets, patterns, row.detail.value)) else None)
  }

  function RowLines(secrets: seq<string>, patterns: seq<Pattern>, rows: seq<Row>): (lines: seq<string>)
    requires "" !in secrets
    ensures |lines| == |rows|
    ensures forall i | 0 <= i < |rows| :: lines[i] == SafeRow(secrets, patterns, rows[i])
  {
    seq(|rows|, i requires 0 <= i < |rows| => SafeRow(secrets, patterns, rows[i]))
  }

  function SummaryLines(secrets: seq<string>, patterns: seq<Pattern>, rows: seq<Row>, hostDown: bool,
      words: Wording): seq<string>
    requires "" !in secrets
  {
    [words.headline, ""]
    + (if hostDown then [words.hostDown] else RowLines(secrets, patterns, rows))
    + ["", words.result(Failed(rows), |rows|)]
  }

  function JoinLines(lines: seq<string>): string {
    if lines == [] then "" else if |lines| == 1 then lines[0] else lines[0] + "\n" + JoinLines(lines[1..])
  }

  method RenderRow(redactor: Redactor, row: Row) returns (line: string)
    requires redactor.Valid()
    ensures "" !in redactor.secrets && line == SafeRow(redactor.secrets, redactor.patterns, row)
  {
    var name := redactor.Redact(row.name);
    var detail: Option<string> := None;
    if HasDetail(row) {
      var redacted := redactor.Redact(row.detail.value);
      detail := Some(Sanitize(redacted));
    }
    line := RowLine(row, Sanitize(name), detail);
  }

  method RenderRows(redactor: Redactor, rows: seq<Row>) returns (lines: seq<string>)
    requires redactor.Valid()
    ensures "" !in redactor.secrets && lines == RowLines(redactor.secrets, redactor.patterns, rows)
  {
    assert "" !in redactor.secrets by { assert Blank(""); }
    lines := [];
    for i := 0 to |rows|
      invariant "" !in redactor.secrets && lines == RowLines(redactor.secrets, redactor.patterns, rows)[..i]
    {
      var line := RenderRow(redactor, rows[i]);
      lines := lines + [line];
    }
  }

  method CountFailed(rows: seq<Row>) returns (unrecovered: nat)
    ensures unrecovered == Failed(rows)
  {
    unrecovered := 0;
    for i := 0 to |rows|
      invariant unrecovered + Failed(rows[i..]) == Failed(rows)
    {
      assert rows[i..][1..] == rows[i + 1..];
      unrecovered := unrecovered + (if rows[i].pass then 0 else 1);
    }
  }

  method RenderSummary(redactor: Redactor, rows: seq<Row>, hostDown: bool, words: Wording) returns (text: string)
    requires redactor.Valid()
    ensures "" !in redactor.secrets
    ensures text == Redacted(redactor.secrets, redactor.patterns,
                      JoinLines(SummaryLines(redactor.secrets, redactor.patterns, rows, hostDown, words)))
  {
    assert "" !in redactor.secrets by { assert Blank(""); }
    var body := [words.hostDown];
    if !hostDown {
      body := RenderRows(redactor, rows);
    }
    var unrecovered := CountFailed(rows);
    var lines := [words.headline, ""] + body + ["", words.result(unrecovered, |rows|)];
    text := redactor.Redact(JoinLines(lines));
  }

  // ----- no value can forge a row

  predicate Inline(t: string) {
    '\n' !in t
  }

  predicate AllInline(lines: seq<string>) {
    forall i | 0 <= i < |lines| :: Inline(lines[i])
  }

  lemma AllInlineConcat(a: seq<string>, b: seq<string>, c: seq<string>)
    requires AllInline(a) && AllInline(b) && AllInline(c)
    ensures AllInline(a + b + c)
  {
  }

  function Newlines(t: string): nat {
    if t == "" then 0 else (if t[0] == '\n' then 1 else 0) + Newlines(t[1..])
  }

  lemma {:induction false} NewlinesConcat(a: string, b: string)
    ensures Newlines(a + b) == Newlines(a) + Newlines(b)
  {
    if a == "" { assert a + b == b; } else {
      assert (a + b)[1..] == a[1..] + b;
      NewlinesConcat(a[1..], b);
    }
  }

  lemma {:induction false} NoNewlines(t: string)
    requires Inline(t)
    ensures Newlines(t) == 0
  {
    if t != "" { NoNewlines(t[1..]); }
  }

  lemma MaskIsInline(t: string)
    ensures Newlines(MASK + t) == Newlines(t)
  {
    NoNewlines(MASK);
    NewlinesConcat(MASK, t);
  }

  /** Masking spans removes newlines and never adds one. */
  lemma {:induction false} MaskingAddsNoRow(ps: seq<Piece>)
    ensures Newlines(Output(ps)) <= Newlines(Source(ps))
  {
    if ps != [] {
      MaskingAddsNoRow(ps[1..]);
      match ps[0]
      case Kept(c) =>
        NewlinesConcat([c], Output(ps[1..]));
        NewlinesConcat([c], Source(ps[1..]));
      case Hit(span) =>
        MaskIsInline(Output(ps[1..]));
        NewlinesConcat(span, Source(ps[1..]));
    }
  }

  lemma {:induction false} ReplaceAddsNoRow(t: string, s: string)
    requires s != ""
    ensures Newlines(Replace(t, s)) <= Newlines(t)
  {
    if |t| < |s| {
    } else if At(t, 0, s) {
      var rest := t[|s|..];
      ReplaceAddsNoRow(rest, s);
      MaskIsInline(Replace(rest, s));
      assert t == s + rest;
      NewlinesConcat(s, rest);
    } else {
      var rest := t[1..];
      ReplaceAddsNoRow(rest, s);
      assert t == [t[0]] + rest;
      NewlinesConcat([t[0]], Replace(rest, s));
    }
  }

  lemma {:induction false} SecretsAddNoRow(secrets: seq<string>, t: string)
    requires "" !in secrets
    ensures Newlines(MaskSecrets(secrets, t)) <= Newlines(t)
  {
    if secrets != [] {
      ReplaceAddsNoRow(t, secrets[0]);
      SecretsAddNoRow(secrets[1..], Replace(t, secrets[0]));
    }
  }

  lemma {:induction false} PatternsAddNoRow(patterns: seq<Pattern>, t: string)
    requires forall p | p in patterns :: Cuts(p)
    ensures Newlines(MaskPatterns(patterns, t)) <= Newlines(t)
  {
    if patterns != [] {
      assert Cuts(patterns[0]);
      MaskingAddsNoRow(patterns[0](t));
      PatternsAddNoRow(patterns[1..], Output(patterns[0](t)));
    }
  }

  /** The enumerations and numbers of a row, which the program renders itself. */
  predicate Controlled(row: Row) {
    && Inline(row.classification) && Inline(row.action) && Inline(row.elapsed)
    && (row.reason.Some? ==> Inline(row.reason.value))
  }

  lemma SafeFieldIsInline(secrets: seq<string>, patterns: seq<Pattern>, text: string)
    requires "" !in secrets
    ensures Inline(SafeField(secrets, patterns, text))
  {
    SanitizeIsTidy(Redacted(secrets, patterns, text));
    assert Collapses('\n');
  }

  lemma {:induction false} GlueInline(parts: seq<string>)
    requires forall i | 0 <= i < |parts| :: Inline(parts[i])
    ensures Inline(Glue(parts))
  {
    if parts != [] { GlueInline(parts[1..]); }
  }

  lemma RowIsInline(row: Row, name: string, detail: Option<string>)
    requires Controlled(row) && Inline(name) && (detail.Some? ==> Inline(detail.value))
    ensures Inline(RowLine(row, name, detail))
  {
    GlueInline(["- ", name, ": ", row.classification, " | action: ", row.action, " | elapsed=", row.elapsed]);
    GlueInline([if row.reason.Some? then " | reason: " + row.reason.value else "",
                if detail.Some? then " | " + detail.value else "",
                if row.pass then " | PASS" else " | FAIL"]);
  }

  lemma SafeRowIsInline(secrets: seq<string>, patterns: seq<Pattern>, row: Row)
    requires "" !in secrets && Controlled(row)
    ensures Inline(SafeRow(secrets, patterns, row))
  {
    SafeFieldIsInline(secrets, patterns, row.name);
    if row.detail.Some? { SafeFieldIsInline(secrets, patterns, row.detail.value); }
    RowIsInline(row, SafeField(secrets, patterns, row.name),
      if HasDetail(row) then Some(SafeField(secrets, patterns, row.detail.value)) else None);
  }

  lemma {:induction false} JoinedRows(lines: seq<string>)
    requires AllInline(lines)
    ensures Newlines(JoinLines(lines)) == if lines == [] then 0 else |lines| - 1
  {
    if lines != [] {
      NoNewlines(lines[0]);
      if |lines| > 1 {
        JoinedRows(lines[1..]);
        NewlinesConcat(lines[0] + "\n", JoinLines(lines[1..]));
        NewlinesConcat(lines[0], "\n");
      }
    }
  }

  lemma RowLinesAreInline(secrets: seq<string>, patterns: seq<Pattern>, rows: seq<Row>)
    requires "" !in secrets && forall row | row in rows :: Controlled(row)
    ensures AllInline(RowLines(secrets, patterns, rows))
  {
    var body := RowLines(secrets, patterns, rows);
    forall i | 0 <= i < |rows| ensures Inline(body[i]) {
      SafeRowIsInline(secrets, patterns, rows[i]);
    }
  }

  /** The program's own wording, enumerations and numbers are one-line text. */
  predicate Presentable(rows: seq<Row>, words: Wording) {
    && Inline(words.headline) && Inline(words.hostDown) && Inline(words.result(Failed(rows), |rows|))
    && forall row | row in rows :: Controlled(row)
  }

  lemma RedactionAddsNoRow(secrets: seq<string>, patterns: seq<Pattern>, t: string)
    requires "" !in secrets && forall p | p in patterns :: Cuts(p)
    ensures Newlines(Redacted(secrets, patterns, t)) <= Newlines(t)
  {
    SecretsAddNoRow(secrets, t);
    PatternsAddNoRow(patterns, MaskSecrets(secrets, t));
  }

  lemma SummaryIsInline(secrets: seq<string>, patterns: seq<Pattern>, rows: seq<Row>, hostDown: bool, words: Wording)
    requires "" !in secrets && Presentable(rows, words)
    ensures AllInline(SummaryLines(secrets, patterns, rows, hostDown, words))
    ensures |SummaryLines(secrets, patterns, rows, hostDown, words)| == (if hostDown then 1 else |rows|) + 4
  {
    RowLinesAreInline(secrets, patterns, rows);
    var body := if hostDown then [words.hostDown] else RowLines(secrets, patterns, rows);
    AllInlineConcat([words.headline, ""], body, ["", words.result(Failed(rows), |rows|)]);
  }

  lemma RedactedLines(secrets: seq<string>, patterns: seq<Pattern>, lines: seq<string>)
    requires "" !in secrets && AllInline(lines) && lines != [] && forall p | p in patterns :: Cuts(p)
    ensures Newlines(Redacted(secrets, patterns, JoinLines(lines))) < |lines|
  {
    JoinedRows(lines);
    RedactionAddsNoRow(secrets, patterns, JoinLines(lines));
  }

  /** Whatever the names and details are, the summary has at most four lines more than outcomes. */
  lemma NoForgedRows(secrets: seq<string>, patterns: seq<Pattern>, rows: seq<Row>, hostDown: bool, words: Wording)
    requires "" !in secrets && Presentable(rows, words) && (hostDown ==> rows != [])
    requires forall p | p in patterns :: Cuts(p)
    ensures Newlines(Redacted(secrets, patterns, JoinLines(SummaryLines(secrets, patterns, rows, hostDown, words))))
         <= |rows| + 3
  {
    SummaryIsInline(secrets, patterns, rows, hostDown, words);
    RedactedLines(secrets, patterns, SummaryLines(secrets, patterns, rows, hostDown, words));
  }
}
