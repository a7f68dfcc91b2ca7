/** What collapsing and trimming keep of a text: its words, in order, with one space between them. */
module Words {
  import opened Text
  import opened Markdown

  /** The characters up to the first white space or control character. */
  function FirstWord(t: string): (w: string)
    ensures w <= t && forall i | 0 <= i < |w| :: !Collapses(w[i])
    ensures |w| < |t| ==> Collapses(t[|w|])
  {
    if t == "" || Collapses(t[0]) then "" else [t[0]] + FirstWord(t[1..])
  }

  /** The words of a text: its longest stretches without white space and control characters. */
  function WordsOf(t: string): seq<string>
    decreases |t|
  {
    if t == "" then []
    else if Collapses(t[0]) then WordsOf(t[1..])
    else
      var w := FirstWord(t);
      [w] + WordsOf(t[|w|..])
  }

  function Spaced(words: seq<string>): string {
    if words == [] then "" else if |words| == 1 then words[0] else words[0] + " " + Spaced(words[1..])
  }

  /** No white space or control character in front. */
  predicate StartsWord(t: string) {
    t != "" ==> !Collapses(t[0])
  }

  lemma {:induction false} WordsBehindRun(t: string)
    ensures WordsOf(DropRun(t)) == WordsOf(t)
  {
    if t != "" && Collapses(t[0]) { WordsBehindRun(t[1..]); }
  }

  lemma {:induction false} CollapseBehindWord(t: string, n: nat)
    requires n <= |t| && forall i | 0 <= i < n :: !Collapses(t[i])
    ensures Collapse(t) == t[..n] + Collapse(t[n..])
    decreases n
  {
    if n > 0 {
      var a := t[1..];
      forall i | 0 <= i < n - 1 ensures !Collapses(a[i]) { assert a[i] == t[i + 1]; }
      CollapseBehindWord(a, n - 1);
      assert a[n - 1..] == t[n..] && t[..n] == [t[0]] + a[..n - 1];
      Associate([t[0]], a[..n - 1], Collapse(t[n..]));
    } else {
      assert t[0..] == t && t[..0] == "";
    }
  }

  lemma Associate(x: string, y: string, z: string)
    ensures x + (y + z) == (x + y) + z
  {
  }

  lemma {:induction false} StripRightPart(a: string, x: string)
    requires StripRight(x) != ""
    ensures StripRight(a + x) == a + StripRight(x)
  {
    if IsSpace(x[|x| - 1]) {
      var y := x[..|x| - 1];
      assert (a + x)[..|a + x| - 1] == a + y;
      StripRightPart(a, y);
    }
  }

  lemma NoStripBehindWord(w: string)
    requires w != "" && forall i | 0 <= i < |w| :: !Collapses(w[i])
    ensures StripRight(w) == w && StripRight(w + " ") == w
  {
    assert !Collapses(w[|w| - 1]) && IsSpace(' ');
    assert (w + " ")[..|w| + 1 - 1] == w;
  }

  lemma {:induction false} WordsAreKept(t: string)
    requires StartsWord(t)
    ensures StripRight(Collapse(t)) == Spaced(WordsOf(t)) && (t != "" ==> Spaced(WordsOf(t)) != "")
    decreases |t|
  {
    if t != "" {
      var w := FirstWord(t);
      var rest := t[|w|..];
      CollapseBehindWord(t, |w|);
      assert w == t[..|w|] && w != "";
      if rest == "" {
        assert w + Collapse("") == w;
        NoStripBehindWord(w);
      } else {
        var more := DropRun(rest[1..]);
        WordsAreKept(more);
        WordsBehindRun(rest[1..]);
        BehindWord(w, Collapse(more), WordsOf(more));
      }
    }
  }

  lemma BehindWord(w: string, x: string, words: seq<string>)
    requires w != "" && forall i | 0 <= i < |w| :: !Collapses(w[i])
    requires StripRight(x) == Spaced(words) && (words == [] ==> x == "") && (words != [] ==> Spaced(words) != "")
    ensures StripRight(w + (" " + x)) == Spaced([w] + words)
  {
    Associate(w, " ", x);
    if words == [] {
      NoStripBehindWord(w);
      assert (w + " ") + "" == w + " " && [w] + words == [w];
    } else {
      StripRightPart(w + " ", x);
      assert ([w] + words)[1..] == words;
    }
  }

  /** The tidied text is the words of the text, in order, with single spaces between them. */
  lemma TidiedIsWords(t: string)
    ensures Tidied(t) == Spaced(WordsOf(t))
  {
    var start := if t != "" && Collapses(t[0]) then DropRun(t[1..]) else t;
    WordsAreKept(start);
    if t != "" && Collapses(t[0]) { WordsBehindRun(t[1..]); }
    StripLeftOfCollapse(t, start);
  }

  lemma StripLeftOfCollapse(t: string, start: string)
    requires start == if t != "" && Collapses(t[0]) then DropRun(t[1..]) else t
    ensures StripLeft(Collapse(t)) == Collapse(start)
  {
    assert IsSpace(' ') && forall c: char :: IsSpace(c) ==> Collapses(c);
    assert start != "" ==> Collapse(start)[0] == start[0];
    if start != t { assert (" " + Collapse(start))[1..] == Collapse(start); }
  }
}
