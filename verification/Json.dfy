/** Decoded JSON values, and Python's truth test on them. */
module Json {
  /** An object keeps its entries in the order received; its keys are distinct. */
  datatype Json =
    | Null
    | Bool(b: bool)
    | Number(n: real)
    | Str(s: string)
    | Arr(items: seq<Json>)
    | Obj(entries: seq<(string, Json)>)

  function Keys(entries: seq<(string, Json)>): (ks: seq<string>)
    ensures |ks| == |entries| && forall i | 0 <= i < |ks| :: ks[i] == entries[i].0
  {
    seq(|entries|, i requires 0 <= i < |entries| => entries[i].0)
  }

  predicate Has(entries: seq<(string, Json)>, key: string) {
    exists i | 0 <= i < |entries| :: entries[i].0 == key
  }

  /** `dict.get(key)`. */
  function Get(entries: seq<(string, Json)>, key: string): Json {
    if entries == [] then Null
    else if entries[0].0 == key then entries[0].1
    else Get(entries[1..], key)
  }

  /** A key that is there has the value of its entry, one that is not has none. */
  lemma {:induction false} GetReads(entries: seq<(string, Json)>, i: nat)
    requires i < |entries| && DistinctKeys(entries)
    ensures Get(entries, entries[i].0) == entries[i].1
  {
    if i > 0 {
      assert entries[0].0 != entries[i].0;
      assert entries[1..][i - 1] == entries[i];
      GetReads(entries[1..], i - 1);
    }
  }

  lemma {:induction false} GetMisses(entries: seq<(string, Json)>, key: string)
    requires !Has(entries, key)
    ensures Get(entries, key) == Null
  {
    if entries != [] {
      assert entries[0].0 != key;
      forall i | 0 <= i < |entries| - 1 ensures entries[1..][i].0 != key { assert entries[1..][i] == entries[i + 1]; }
      GetMisses(entries[1..], key);
    }
  }

  /** `bool(value)`. */
  predicate Truthy(j: Json) {
    match j
    case Null => false
    case Bool(b) => b
    case Number(n) => n != 0.0
    case Str(s) => s != ""
    case Arr(items) => items != []
    case Obj(entries) => entries != []
  }

  /** The values that count as false. */
  lemma FalsyValues(j: Json)
    ensures !Truthy(j) <==> j in {Null, Bool(false), Number(0.0), Str(""), Arr([]), Obj([])}
  {
  }

  predicate DistinctKeys(entries: seq<(string, Json)>) {
    forall i, j | 0 <= i < j < |entries| :: entries[i].0 != entries[j].0
  }

  /** Two listings of the same dictionary. */
  predicate SameObject(a: seq<(string, Json)>, b: seq<(string, Json)>) {
    && DistinctKeys(a) && DistinctKeys(b)
    && (forall i | 0 <= i < |a| :: Has(b, a[i].0) && Get(b, a[i].0) == Get(a, a[i].0))
    && (forall i | 0 <= i < |b| :: Has(a, b[i].0))
  }

  lemma {:induction false} CountDistinct(ks: seq<string>, k: string)
    requires forall i, j | 0 <= i < j < |ks| :: ks[i] != ks[j]
    ensures multiset(ks)[k] == if k in ks then 1 else 0
  {
    if ks != [] {
      CountDistinct(ks[1..], k);
      assert ks == [ks[0]] + ks[1..];
    }
  }

  /** The keys of one dictionary are the same collection however they are listed. */
  lemma KeysMultiset(a: seq<(string, Json)>, b: seq<(string, Json)>)
    requires SameObject(a, b)
    ensures multiset(Keys(a)) == multiset(Keys(b))
  {
    forall k: string ensures multiset(Keys(a))[k] == multiset(Keys(b))[k] {
      CountDistinct(Keys(a), k);
      CountDistinct(Keys(b), k);
    }
  }
}
