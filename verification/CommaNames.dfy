/** What commas in platform names do to the condition signature. */
module CommaNames {
  import opened StringOrder
  import opened State

  /** The parts of a string between its commas. */
  function Split(s: string): (parts: seq<string>)
    ensures |parts| >= 1 && forall i | 0 <= i < |parts| :: ',' !in parts[i]
  {
    if s == "" then [""]
    else if s[0] == ',' then [""] + Split(s[1..])
    else
      var rest := Split(s[1..]);
      [[s[0]] + rest[0]] + rest[1..]
  }

  /** All parts of all names, in order. */
  function Pieces(names: seq<string>): seq<string> {
    if names == [] then [] else Split(names[0]) + Pieces(names[1..])
  }

  lemma {:induction false} JoinSplit(s: string)
    ensures Join(Split(s)) == s
  {
    if s != "" {
      var rest := Split(s[1..]);
      JoinSplit(s[1..]);
      if s[0] == ',' {
        assert ([""] + rest)[1..] == rest;
        assert s == "" + "," + s[1..];
      } else {
        assert ([[s[0]] + rest[0]] + rest[1..])[1..] == rest[1..];
        assert s == [s[0]] + s[1..];
      }
    }
  }

  lemma {:induction false} SplitPlain(s: string)
    requires ',' !in s
    ensures Split(s) == [s]
  {
    if s != "" {
      SplitPlain(s[1..]);
      assert s == [s[0]] + s[1..];
    }
  }

  lemma {:induction false} JoinConcat(a: seq<string>, b: seq<string>)
    requires a != [] && b != []
    ensures Join(a + b) == Join(a) + "," + Join(b)
  {
    if |a| == 1 {
      assert (a + b)[1..] == b;
    } else {
      assert (a + b)[1..] == a[1..] + b;
      JoinConcat(a[1..], b);
      assert Join(a) == a[0] + "," + Join(a[1..]);
      Regroup(a[0] + ",", Join(a[1..]), ",", Join(b));
    }
  }

  lemma Regroup(x: string, y: string, z: string, w: string)
    ensures x + (y + z + w) == (x + y) + z + w
  {
  }

  lemma {:induction false} JoinPieces(names: seq<string>)
    requires names != []
    ensures Pieces(names) != [] && Join(Pieces(names)) == Join(names) && CommaFree(Pieces(names))
  {
    JoinSplit(names[0]);
    if |names| == 1 {
      assert Split(names[0]) + [] == Split(names[0]);
    } else {
      JoinPieces(names[1..]);
      JoinConcat(Split(names[0]), Pieces(names[1..]));
    }
  }

  /** For any names at all: two conditions are equal exactly when the sorted names have the same parts. */
  lemma ConditionIsPieces(a: seq<string>, b: seq<string>)
    requires a != [] && b != []
    ensures DegradedCondition(a) == DegradedCondition(b) <==> Pieces(Sort(a)) == Pieces(Sort(b))
  {
    SortNonempty(a);
    SortNonempty(b);
    JoinPieces(Sort(a));
    JoinPieces(Sort(b));
    var x, y := Join(Sort(a)), Join(Sort(b));
    assert x == (DEGRADED_PREFIX + x)[|DEGRADED_PREFIX|..] && y == (DEGRADED_PREFIX + y)[|DEGRADED_PREFIX|..];
    if x == y { JoinInjective(Pieces(Sort(a)), Pieces(Sort(b))); }
  }

  lemma SortNonempty(a: seq<string>)
    requires a != []
    ensures Sort(a) != []
  {
    assert |multiset(Sort(a))| == |multiset(a)|;
  }

  // ----- strictly ascending lists

  predicate Ascending(ss: seq<string>) {
    forall i, j | 0 <= i < j < |ss| :: Le(ss[i], ss[j]) && ss[i] != ss[j]
  }

  predicate NoRepeats(ss: seq<string>) {
    forall i, j | 0 <= i < j < |ss| :: ss[i] != ss[j]
  }

  lemma {:induction false} SortedPairs(ss: seq<string>, i: nat, j: nat)
    requires Sorted(ss) && i < j < |ss|
    ensures Le(ss[i], ss[j])
  {
    if i == 0 {
      assert ss[j] == ss[1..][j - 1];
    } else {
      SortedPairs(ss[1..], i - 1, j - 1);
    }
  }

  lemma {:induction false} AscendingIsSorted(ss: seq<string>)
    requires Ascending(ss)
    ensures Sorted(ss)
  {
    if ss != [] {
      forall i, j | 0 <= i < j < |ss[1..]| ensures Le(ss[1..][i], ss[1..][j]) && ss[1..][i] != ss[1..][j] {
        assert ss[1..][i] == ss[i + 1] && ss[1..][j] == ss[j + 1];
      }
      AscendingIsSorted(ss[1..]);
      forall s | s in ss[1..] ensures Le(ss[0], s) {
        var k :| 0 <= k < |ss[1..]| && ss[1..][k] == s;
        assert ss[k + 1] == s;
      }
    }
  }

  lemma {:induction false} CountsAtMostOne(ss: seq<string>, s: string)
    requires NoRepeats(ss)
    ensures multiset(ss)[s] <= 1
  {
    if ss != [] {
      forall i, j | 0 <= i < j < |ss[1..]| ensures ss[1..][i] != ss[1..][j] {
        assert ss[1..][i] == ss[i + 1] && ss[1..][j] == ss[j + 1];
      }
      CountsAtMostOne(ss[1..], s);
      assert ss == [ss[0]] + ss[1..];
      forall k | 0 <= k < |ss[1..]| ensures ss[1..][k] != ss[0] { assert ss[1..][k] == ss[k + 1]; }
      InMultiset(ss[0], ss[1..]);
    }
  }

  lemma RepeatCountsTwice(ss: seq<string>, i: nat, j: nat)
    requires i < j < |ss| && ss[i] == ss[j]
    ensures multiset(ss)[ss[i]] >= 2
  {
    var x, y := ss[..j], ss[j..];
    assert ss == x + y && x[i] == ss[i] && y[0] == ss[j];
    assert ss[i] in multiset(x) && ss[i] in multiset(y);
    assert multiset(ss) == multiset(x) + multiset(y);
  }

  /** Sorting names that are all different gives a strictly ascending list. */
  lemma SortAscends(names: seq<string>)
    requires NoRepeats(names)
    ensures Ascending(Sort(names))
  {
    var ss := Sort(names);
    SortSorted(names);
    forall i, j | 0 <= i < j < |ss| ensures Le(ss[i], ss[j]) && ss[i] != ss[j] {
      SortedPairs(ss, i, j);
      CountsAtMostOne(names, ss[i]);
      if ss[i] == ss[j] { RepeatCountsTwice(ss, i, j); }
    }
  }

  // ----- one name with commas among names without

  /** Different names, of which only `w` may have a comma. */
  predicate Listed(names: seq<string>, w: string) {
    names != [] && NoRepeats(names) && forall i | 0 <= i < |names| :: names[i] == w || ',' !in names[i]
  }

  /** Two different sets of failing names that share a condition. */
  ghost predicate Merges(a: seq<string>, b: seq<string>, w: string) {
    Listed(a, w) && Listed(b, w) && multiset(a) != multiset(b) && DegradedCondition(a) == DegradedCondition(b)
  }

  lemma {:induction false} PiecesPlain(names: seq<string>)
    requires forall i | 0 <= i < |names| :: ',' !in names[i]
    ensures Pieces(names) == names
  {
    if names != [] {
      SplitPlain(names[0]);
      assert forall i | 0 <= i < |names[1..]| :: names[1..][i] == names[i + 1];
      PiecesPlain(names[1..]);
    }
  }

  lemma {:induction false} PiecesConcat(a: seq<string>, b: seq<string>)
    ensures Pieces(a + b) == Pieces(a) + Pieces(b)
  {
    if a == [] {
      assert a + b == b;
    } else {
      assert (a + b)[1..] == a[1..] + b;
      PiecesConcat(a[1..], b);
    }
  }

  lemma SortKeepsListed(names: seq<string>, w: string)
    requires Listed(names, w)
    ensures Listed(Sort(names), w) && Ascending(Sort(names))
  {
    SortNonempty(names);
    SortAscends(names);
    var ss := Sort(names);
    forall i | 0 <= i < |ss| ensures ss[i] == w || ',' !in ss[i] {
      InMultiset(ss[i], ss);
      InMultiset(ss[i], names);
      var k :| 0 <= k < |names| && names[k] == ss[i];
    }
  }

  /** Where `w` stands in a list, and the parts on both sides of it. */
  lemma PiecesAround(ss: seq<string>, w: string, i: nat)
    requires Listed(ss, w) && i < |ss| && ss[i] == w
    ensures Pieces(ss) == ss[..i] + Split(w) + ss[i + 1..]
  {
    assert ss == ss[..i] + [w] + ss[i + 1..];
    PiecesConcat(ss[..i] + [w], ss[i + 1..]);
    PiecesConcat(ss[..i], [w]);
    var front, back := ss[..i], ss[i + 1..];
    forall k | 0 <= k < |front| ensures ',' !in front[k] { assert ss[k] != ss[i]; }
    forall k | 0 <= k < |back| ensures ',' !in back[k] { assert back[k] == ss[i + 1 + k] != ss[i]; }
    PiecesPlain(front);
    PiecesPlain(back);
    assert Pieces([w]) == Split(w) + [];
  }

  ghost predicate HasPeriod(p: seq<string>, d: nat) {
    forall k, m | 0 <= k && m == k + d && m < |p| :: p[k] == p[m]
  }

  lemma {:induction false} Periodic(p: seq<string>, d: nat, i: nat) returns (r: nat)
    requires 0 < d && i < |p| && HasPeriod(p, d)
    ensures r <= i && r < d && p[i] == p[r]
  {
    if i >= d {
      r := Periodic(p, d, i - d);
    } else {
      r := i;
    }
  }

  /** The parts of `w` seen from its place in the list. */
  lemma PieceOfName(ss: seq<string>, w: string, i: nat, k: nat)
    requires Listed(ss, w) && i < |ss| && ss[i] == w && k < |Split(w)|
    ensures i + k < |Pieces(ss)| && Pieces(ss)[i + k] == Split(w)[k]
  {
    PiecesAround(ss, w, i);
  }

  lemma PieceInFront(ss: seq<string>, w: string, i: nat, k: nat)
    requires Listed(ss, w) && i < |ss| && ss[i] == w && k < i
    ensures k < |Pieces(ss)| && Pieces(ss)[k] == ss[k]
  {
    PiecesAround(ss, w, i);
  }

  lemma PieceBehind(ss: seq<string>, w: string, i: nat, k: nat)
    requires Listed(ss, w) && i < k < |ss| && ss[i] == w
    ensures k + |Split(w)| - 1 < |Pieces(ss)| && Pieces(ss)[k + |Split(w)| - 1] == ss[k]
  {
    PiecesAround(ss, w, i);
    assert ss[i + 1..][k - i - 1] == ss[k];
  }

  lemma SameLength(a: seq<string>, b: seq<string>, w: string, i: nat, j: nat)
    requires Listed(a, w) && Listed(b, w) && i < |a| && a[i] == w && j < |b| && b[j] == w && Pieces(a) == Pieces(b)
    ensures |a| == |b|
  {
    PiecesAround(a, w, i);
    PiecesAround(b, w, j);
  }

  /** Two lists that show the same parts, with `w` first in the one and then in the other. */
  ghost predicate Shifted(a: seq<string>, b: seq<string>, w: string, i: nat, j: nat) {
    && Listed(a, w) && Listed(b, w) && Pieces(a) == Pieces(b)
    && i < j < |b| && i < |a| && a[i] == w && b[j] == w
  }

  lemma ShiftIsPeriod(a: seq<string>, b: seq<string>, w: string, i: nat, j: nat)
    requires Shifted(a, b, w, i, j)
    ensures HasPeriod(Split(w), j - i)
  {
    var p := Split(w);
    forall k, m | 0 <= k && m == k + (j - i) && m < |p| ensures p[k] == p[m] {
      PieceOfName(b, w, j, k);
      PieceOfName(a, w, i, m);
    }
  }

  /** The last part of `w` in the one list stands behind `w` in the other. */
  lemma LastIsBehind(a: seq<string>, b: seq<string>, w: string, i: nat, j: nat)
    requires Shifted(a, b, w, i, j)
    ensures j < |a| && a[j] == Split(w)[|Split(w)| - 1]
  {
    SameLength(a, b, w, i, j);
    PieceOfName(b, w, j, |Split(w)| - 1);
    PieceBehind(a, w, i, j);
  }

  /** The first parts of `w` in the one list stand before `w` in the other. */
  lemma FirstIsInFront(a: seq<string>, b: seq<string>, w: string, i: nat, j: nat, r: nat)
    requires Shifted(a, b, w, i, j) && r < j - i && r < |Split(w)|
    ensures b[i + r] == Split(w)[r]
  {
    PieceOfName(a, w, i, r);
    PieceInFront(b, w, j, i + r);
  }

  lemma LastIsGreater(a: seq<string>, b: seq<string>, w: string, i: nat, j: nat)
    requires Shifted(a, b, w, i, j) && Ascending(a)
    ensures Le(w, Split(w)[|Split(w)| - 1]) && w != Split(w)[|Split(w)| - 1]
  {
    LastIsBehind(a, b, w, i, j);
  }

  lemma FirstIsLess(a: seq<string>, b: seq<string>, w: string, i: nat, j: nat, r: nat)
    requires Shifted(a, b, w, i, j) && r < j - i && r < |Split(w)| && Ascending(b)
    ensures Le(Split(w)[r], w)
  {
    FirstIsInFront(a, b, w, i, j, r);
  }

  /**
   * Two ascending lists cannot show the same parts with the parts of `w` at different places: some
   * part would have to stand both before and behind `w` in order.
   */
  lemma SamePlace(a: seq<string>, b: seq<string>, w: string, i: nat, j: nat)
    requires Listed(a, w) && Listed(b, w) && Ascending(a) && Ascending(b)
    requires i < |a| && a[i] == w && j < |b| && b[j] == w && Pieces(a) == Pieces(b)
    ensures i >= j
  {
    if i < j { NoShift(a, b, w, i, j); }
  }

  lemma NoShift(a: seq<string>, b: seq<string>, w: string, i: nat, j: nat)
    requires Ascending(a) && Ascending(b)
    ensures !Shifted(a, b, w, i, j)
  {
    if Shifted(a, b, w, i, j) {
      ShiftIsPeriod(a, b, w, i, j);
      var r := LastRepeats(w, j - i);
      LastIsGreater(a, b, w, i, j);
      FirstIsLess(a, b, w, i, j, r);
      Antisymmetric(w, Split(w)[r]);
    }
  }

  lemma LastRepeats(w: string, d: nat) returns (r: nat)
    requires HasPeriod(Split(w), d) && 0 < d && Split(w) != []
    ensures r < d && r < |Split(w)| && Split(w)[r] == Split(w)[|Split(w)| - 1]
  {
    r := Periodic(Split(w), d, |Split(w)| - 1);
  }

  /** When both lists have `w`, the same parts mean the same list. */
  lemma BothHave(a: seq<string>, b: seq<string>, w: string, i: nat, j: nat)
    requires Listed(a, w) && Listed(b, w) && Ascending(a) && Ascending(b)
    requires i < |a| && a[i] == w && j < |b| && b[j] == w && Pieces(a) == Pieces(b)
    ensures a == b
  {
    SamePlace(a, b, w, i, j);
    SamePlace(b, a, w, j, i);
    SameLength(a, b, w, i, i);
    forall k | 0 <= k < |a| ensures a[k] == b[k] {
      if k < i {
        PieceInFront(a, w, i, k);
        PieceInFront(b, w, i, k);
      } else if i < k {
        PieceBehind(a, w, i, k);
        PieceBehind(b, w, i, k);
      }
    }
  }

  /** Only one list has `w`: its parts are a run of the other, ascending list. */
  lemma OneHas(a: seq<string>, b: seq<string>, w: string, i: nat)
    requires Listed(a, w) && Listed(b, w) && Ascending(b)
    requires i < |a| && a[i] == w && w !in b && Pieces(a) == Pieces(b)
    ensures Ascending(Split(w))
  {
    PiecesPlain(b);
    var p := Split(w);
    forall k, m | 0 <= k < m < |p| ensures Le(p[k], p[m]) && p[k] != p[m] {
      PieceOfName(a, w, i, k);
      PieceOfName(a, w, i, m);
      assert b[i + k] == p[k] && b[i + m] == p[m];
    }
  }

  /** Strictly ascending parts do merge: the name alone, and its parts as names of their own. */
  lemma PartsMerge(w: string)
    requires ',' in w && Ascending(Split(w))
    ensures Merges([w], Split(w), w)
  {
    var p := Split(w);
    PartsAreSorted(w);
    ConditionIsPieces([w], p);
    InMultiset(w, [w]);
    InMultiset(w, p);
  }

  lemma PartsAreSorted(w: string)
    requires Ascending(Split(w))
    ensures Sort(Split(w)) == Split(w) && Sort([w]) == [w] && Pieces([w]) == Pieces(Split(w)) == Split(w)
  {
    var p := Split(w);
    AscendingIsSorted(p);
    SortSorted(p);
    SortedUnique(Sort(p), p);
    assert Sort([w]) == Insert(w, []) == [w];
    PiecesPlain(p);
    assert Pieces([w]) == p + [];
  }

  lemma MergedAscends(a: seq<string>, b: seq<string>, w: string)
    requires Merges(a, b, w)
    ensures Ascending(Split(w))
  {
    ConditionIsPieces(a, b);
    SortKeepsListed(a, w);
    SortKeepsListed(b, w);
    var x, y := Sort(a), Sort(b);
    assert x != y by { assert multiset(x) == multiset(a) && multiset(y) == multiset(b); }
    if w in x && w in y {
      var i :| 0 <= i < |x| && x[i] == w;
      var j :| 0 <= j < |y| && y[j] == w;
      BothHave(x, y, w, i, j);
    } else {
      NotBoth(x, y, w);
    }
  }

  lemma NotBoth(x: seq<string>, y: seq<string>, w: string)
    requires Listed(x, w) && Listed(y, w) && Ascending(x) && Ascending(y) && x != y && Pieces(x) == Pieces(y)
    requires w !in x || w !in y
    ensures Ascending(Split(w))
  {
    if w in x {
      var i :| 0 <= i < |x| && x[i] == w;
      OneHas(x, y, w, i);
    } else if w in y {
      var j :| 0 <= j < |y| && y[j] == w;
      OneHas(y, x, w, j);
    } else {
      PiecesPlain(x);
      PiecesPlain(y);
    }
  }

  /**
   * A name with a comma, added to names without, lets two different sets of failing platforms
   * share a condition exactly when its parts between the commas are strictly ascending.
   */
  lemma CommaMergesIff(w: string)
    requires ',' in w
    ensures (exists a, b :: Merges(a, b, w)) <==> Ascending(Split(w))
  {
    if Ascending(Split(w)) {
      PartsMerge(w);
    } else if a, b :| Merges(a, b, w) {
      MergedAscends(a, b, w);
    }
  }

  /** The smallest example: one failing platform, or two. */
  lemma CommaMerges()
    ensures multiset(["a,b"]) != multiset(["a", "b"]) && DegradedCondition(["a,b"]) == DegradedCondition(["a", "b"])
  {
    var w := "a,b";
    assert w[1..] == ",b" && ",b"[1..] == "b" && "b"[1..] == "";
    SplitPlain("b");
    assert Split(",b") == [""] + ["b"] == ["", "b"];
    assert ["", "b"][1..] == ["b"] && ['a'] + "" == "a";
    assert Split(w) == ["a"] + ["b"] == ["a", "b"];
    assert Le("a", "b");
    PartsMerge(w);
  }
}
