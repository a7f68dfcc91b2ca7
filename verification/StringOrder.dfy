/** Python's order on strings, `sorted`, and joining with a comma. */
module StringOrder {

  predicate Le(a: string, b: string) {
    a == "" || (b != "" && (a[0] < b[0] || (a[0] == b[0] && Le(a[1..], b[1..]))))
  }

  /** Two strings are compared where they first differ; one that ends before that comes first. */
  lemma {:induction false} LeAtDifference(a: string, b: string)
    ensures Le(a, b) <==>
      a <= b || exists i | 0 <= i < |a| && i < |b| :: a[..i] == b[..i] && a[i] < b[i]
  {
    if a != "" && b != "" && a[0] == b[0] {
      var x, y := a[1..], b[1..];
      LeAtDifference(x, y);
      assert a == [a[0]] + x && b == [a[0]] + y;
      if i :| 0 <= i < |x| && i < |y| && x[..i] == y[..i] && x[i] < y[i] {
        assert a[..i + 1] == [a[0]] + x[..i] && b[..i + 1] == [a[0]] + y[..i];
        assert a[i + 1] < b[i + 1];
      }
      if i :| 0 <= i < |a| && i < |b| && a[..i] == b[..i] && a[i] < b[i] {
        assert x[..i - 1] == a[..i][1..] && y[..i - 1] == b[..i][1..];
        assert x[i - 1] < y[i - 1];
      }
    } else if a != "" && b != "" {
      assert a[..0] == b[..0];
      if i :| 0 <= i < |a| && i < |b| && a[..i] == b[..i] && a[i] < b[i] {
        if i > 0 { assert a[..i][0] == b[..i][0]; }
      }
    }
  }

  lemma {:induction false} Total(a: string, b: string)
    ensures Le(a, b) || Le(b, a)
  {
    if a != "" && b != "" { Total(a[1..], b[1..]); }
  }

  lemma {:induction false} Antisymmetric(a: string, b: string)
    requires Le(a, b) && Le(b, a)
    ensures a == b
  {
    if a != "" {
      Antisymmetric(a[1..], b[1..]);
      assert a == [a[0]] + a[1..] && b == [b[0]] + b[1..];
    }
  }

  lemma {:induction false} Transitive(a: string, b: string, c: string)
    requires Le(a, b) && Le(b, c)
    ensures Le(a, c)
  {
    if a != "" && a[0] == b[0] && b[0] == c[0] { Transitive(a[1..], b[1..], c[1..]); }
  }

  /** Every string is at most all those behind it. */
  predicate Sorted(ss: seq<string>) {
    ss == [] || ((forall s | s in ss[1..] :: Le(ss[0], s)) && Sorted(ss[1..]))
  }

  function Insert(s: string, ss: seq<string>): (r: seq<string>)
    ensures multiset(r) == multiset(ss) + multiset{s}
  {
    if ss == [] || Le(s, ss[0]) then
      [s] + ss
    else
      assert ss == [ss[0]] + ss[1..];
      [ss[0]] + Insert(s, ss[1..])
  }

  function Sort(ss: seq<string>): (r: seq<string>)
    ensures multiset(r) == multiset(ss)
  {
    if ss == [] then [] else
      assert ss == [ss[0]] + ss[1..];
      Insert(ss[0], Sort(ss[1..]))
  }

  lemma InMultiset(s: string, ss: seq<string>)
    ensures s in ss <==> s in multiset(ss)
  {
  }

  lemma {:induction false} InsertSorted(s: string, ss: seq<string>)
    requires Sorted(ss)
    ensures Sorted(Insert(s, ss))
  {
    if ss == [] {
    } else if Le(s, ss[0]) {
      assert ([s] + ss)[1..] == ss;
      forall x | x in ss ensures Le(s, x) {
        if x != ss[0] { assert x in ss[1..]; Transitive(s, ss[0], x); }
      }
    } else {
      Total(s, ss[0]);
      InsertSorted(s, ss[1..]);
      var r := Insert(s, ss[1..]);
      assert ([ss[0]] + r)[1..] == r;
      forall x | x in r ensures Le(ss[0], x) {
        InMultiset(x, r);
        if x != s { InMultiset(x, ss[1..]); }
      }
    }
  }

  lemma {:induction false} SortSorted(ss: seq<string>)
    ensures Sorted(Sort(ss))
  {
    if ss != [] {
      SortSorted(ss[1..]);
      InsertSorted(ss[0], Sort(ss[1..]));
    }
  }

  lemma {:induction false} SortedUnique(a: seq<string>, b: seq<string>)
    requires Sorted(a) && Sorted(b) && multiset(a) == multiset(b)
    ensures a == b
  {
    assert |a| == |multiset(a)| == |multiset(b)| == |b|;
    if a != [] {
      assert a[0] in multiset(b);
      assert b[0] in multiset(a);
      if a[0] != b[0] {
        assert a[0] in b[1..] && b[0] in a[1..];
        Antisymmetric(a[0], b[0]);
      }
      assert a == [a[0]] + a[1..] && b == [b[0]] + b[1..];
      assert multiset(a[1..]) == multiset(a) - multiset{a[0]};
      SortedUnique(a[1..], b[1..]);
    }
  }

  /** Sorting forgets the order and nothing else. */
  lemma SortCanonical(a: seq<string>, b: seq<string>)
    ensures Sort(a) == Sort(b) <==> multiset(a) == multiset(b)
  {
    SortSorted(a);
    SortSorted(b);
    if multiset(a) == multiset(b) { SortedUnique(Sort(a), Sort(b)); }
  }

  function Join(ss: seq<string>): string {
    if ss == [] then "" else if |ss| == 1 then ss[0] else ss[0] + "," + Join(ss[1..])
  }

  predicate CommaFree(ss: seq<string>) {
    forall s | s in ss :: ',' !in s
  }

  lemma HeadsAgree(a: string, x: string, b: string, y: string)
    requires ',' !in a && ',' !in b && a + "," + x == b + "," + y
    ensures a == b && x == y
  {
    var l, r := a + "," + x, b + "," + y;
    assert l[|a|] == ',' && r[|b|] == ',';
    assert forall i | 0 <= i < |a| :: l[i] == a[i];
    assert forall i | 0 <= i < |b| :: r[i] == b[i];
    assert a == l[..|a|] && b == r[..|b|];
    assert x == l[|a| + 1..] && y == r[|b| + 1..];
  }

  lemma JoinedHasComma(a: seq<string>)
    requires a != [] && CommaFree(a)
    ensures ',' in Join(a) <==> |a| > 1
  {
    if |a| == 1 {
      assert a[0] in a;
    } else {
      assert (a[0] + "," + Join(a[1..]))[|a[0]|] == ',';
    }
  }

  /** Joining comma-free strings loses nothing. */
  lemma {:induction false} JoinInjective(a: seq<string>, b: seq<string>)
    requires a != [] && b != [] && CommaFree(a) && CommaFree(b) && Join(a) == Join(b)
    ensures a == b
  {
    if |a| == 1 && |b| == 1 {
    } else if |a| == 1 || |b| == 1 {
      JoinedHasComma(a);
      JoinedHasComma(b);
      assert false;
    } else {
      HeadsAgree(a[0], Join(a[1..]), b[0], Join(b[1..]));
      JoinInjective(a[1..], b[1..]);
      assert a == [a[0]] + a[1..] && b == [b[0]] + b[1..];
    }
  }
}
