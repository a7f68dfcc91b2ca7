/** Replacing secrets one after another, longest first, is one simultaneous replacement. */
module RedactionOrder {
  import opened Redaction
  import opened RedactionSafety
  import opened Wrappers

  /** The longest secret standing at the front of the pieces. */
  function Longest(secrets: seq<string>, ps: seq<Piece>): (r: Option<string>)
    ensures r.Some? ==> r.value in secrets && PieceAt(ps, 0, r.value)
    ensures forall v | v in secrets && PieceAt(ps, 0, v) :: r.Some? && |v| <= |r.value|
  {
    if secrets == [] then None
    else
      var r := Longest(secrets[1..], ps);
      if PieceAt(ps, 0, secrets[0]) && (r.None? || |r.value| <= |secrets[0]|) then Some(secrets[0]) else r
  }

  /** One pass from the left that hides, wherever a secret begins, the longest one there. */
  function Simultaneous(secrets: seq<string>, ps: seq<Piece>): seq<Piece>
    requires "" !in secrets
    decreases |ps|
  {
    if ps == [] then []
    else match Longest(secrets, ps)
      case Some(u) => [Hit(u)] + Simultaneous(secrets, ps[|u|..])
      case None => [ps[0]] + Simultaneous(secrets, ps[1..])
  }

  /** Any two occurrences of secrets are nested or disjoint. */
  ghost predicate Laminar(secrets: seq<string>, ps: seq<Piece>) {
    forall i: nat, j: nat, u, v | u in secrets && v in secrets && PieceAt(ps, i, u) && PieceAt(ps, j, v) ::
      i < j < i + |u| ==> j + |v| <= i + |u|
  }

  function MarkAll(secrets: seq<string>, ps: seq<Piece>): seq<Piece>
    requires "" !in secrets
  {
    if secrets == [] then ps else MarkAll(secrets[1..], Mark(ps, secrets[0]))
  }

  lemma {:induction false} SequentialIsMarkAll(secrets: seq<string>, ps: seq<Piece>)
    requires AllDisjoint(secrets)
    ensures MaskSecrets(secrets, Output(ps)) == Output(MarkAll(secrets, ps))
    ensures Source(MarkAll(secrets, ps)) == Source(ps)
  {
    if secrets != [] {
      ReplaceIsMark(ps, secrets[0]);
      SequentialIsMarkAll(secrets[1..], Mark(ps, secrets[0]));
    }
  }

  lemma LaminarTail(secrets: seq<string>, ps: seq<Piece>, n: nat)
    requires n <= |ps| && Laminar(secrets, ps)
    ensures Laminar(secrets, ps[n..])
  {
    assert ps == ps[..n] + ps[n..];
    forall i: nat, j: nat, u, v
      | u in secrets && v in secrets && PieceAt(ps[n..], i, u) && PieceAt(ps[n..], j, v) && i < j < i + |u|
      ensures j + |v| <= i + |u|
    {
      PieceShift(ps[..n], ps[n..], i, u);
      PieceShift(ps[..n], ps[n..], j, v);
      assert PieceAt(ps, n + i, u) && PieceAt(ps, n + j, v);
    }
  }

  lemma PieceAtSame(u: string, v: string, ps: seq<Piece>)
    requires PieceAt(ps, 0, u) && PieceAt(ps, 0, v) && |u| == |v|
    ensures u == v
  {
    forall k | 0 <= k < |u| ensures u[k] == v[k] {
      assert ps[0 + k] == Kept(u[k]) && ps[0 + k] == Kept(v[k]);
    }
  }

  /** A run of pieces with no occurrence of `s` beginning in it is left alone. */
  lemma {:induction false} MarkSkips(ps: seq<Piece>, s: string, n: nat)
    requires s != "" && n <= |ps| && forall i | 0 <= i < n :: !PieceAt(ps, i, s)
    ensures Mark(ps, s) == ps[..n] + Mark(ps[n..], s)
  {
    if n > 0 {
      assert !PieceAt(ps, 0, s);
      assert ps == ps[..1] + ps[1..];
      forall i | 0 <= i < n - 1 ensures !PieceAt(ps[1..], i, s) {
        PieceShift(ps[..1], ps[1..], i, s);
        assert !PieceAt(ps, 1 + i, s);
      }
      MarkSkips(ps[1..], s, n - 1);
      assert ps[1..][n - 1..] == ps[n..];
      assert ps[..n] == [ps[0]] + ps[1..][..n - 1];
    } else {
      assert ps[0..] == ps;
    }
  }

  /** Where `s` does not begin, the same shorter secrets begin before and after marking it. */
  lemma FrontUnchanged(s: string, u: string, ps: seq<Piece>)
    requires s != "" && u != "" && |u| <= |s| && !PieceAt(ps, 0, s) && Laminar([s, u], ps)
    ensures PieceAt(Mark(ps, s), 0, u) <==> PieceAt(ps, 0, u)
    ensures PieceAt(ps, 0, u) ==> Mark(ps, s) == ps[..|u|] + Mark(ps[|u|..], s)
  {
    if PieceAt(Mark(ps, s), 0, u) {
      MarkedAtFront(ps, s, u);
    }
    if PieceAt(ps, 0, u) {
      forall i | 0 <= i < |u| ensures !PieceAt(ps, i, s) {
        assert u in [s, u] && s in [s, u];
      }
      MarkSkips(ps, s, |u|);
    }
  }

  lemma LaminarPair(s: string, u: string, secrets: seq<string>, ps: seq<Piece>)
    requires s in secrets && u in secrets && Laminar(secrets, ps)
    ensures Laminar([s, u], ps)
  {
    assert forall x | x in [s, u] :: x in secrets;
  }

  /** Marking the longest secret first does not change what one simultaneous pass hides. */
  lemma {:induction false} MarkThenPass(s: string, rest: seq<string>, ps: seq<Piece>)
    requires s != "" && "" !in rest && (forall v | v in rest :: |v| <= |s|) && Laminar([s] + rest, ps)
    ensures "" !in [s] + rest && Simultaneous(rest, Mark(ps, s)) == Simultaneous([s] + rest, ps)
    decreases |ps|
  {
    var all := [s] + rest;
    assert s in all && forall v :: v in all <==> v == s || v in rest;
    if ps == [] {
    } else if PieceAt(ps, 0, s) {
      PieceAtSame(s, Longest(all, ps).value, ps);
      LaminarTail(all, ps, |s|);
      MarkThenPass(s, rest, ps[|s|..]);
      var m := Mark(ps, s);
      assert m[0] == Hit(s) && m[1..] == Mark(ps[|s|..], s);
      forall r | r in rest ensures !PieceAt(m, 0, r) {
        assert m[0 + 0] != Kept(r[0]);
      }
    } else {
      var m := Mark(ps, s);
      forall v | v in rest
        ensures PieceAt(m, 0, v) <==> PieceAt(ps, 0, v)
        ensures PieceAt(ps, 0, v) ==> m == ps[..|v|] + Mark(ps[|v|..], s)
      {
        LaminarPair(s, v, all, ps);
        FrontUnchanged(s, v, ps);
      }
      match Longest(all, ps)
      case None =>
        LaminarTail(all, ps, 1);
        MarkThenPass(s, rest, ps[1..]);
        assert m[0] == ps[0] && m[1..] == Mark(ps[1..], s);
      case Some(u) =>
        assert u != s && u in rest;
        var w := Longest(rest, m).value;
        PieceAtSame(u, w, ps);
        LaminarTail(all, ps, |u|);
        MarkThenPass(s, rest, ps[|u|..]);
        assert m[|u|..] == Mark(ps[|u|..], s);
    }
  }

  /** Kept pieces in a marking come from consecutive kept pieces, in the same relative place. */
  lemma {:induction false} LaminarMark(secrets: seq<string>, ps: seq<Piece>, s: string)
    requires s != "" && "" !in secrets && Laminar(secrets, ps)
    ensures Laminar(secrets, Mark(ps, s))
    decreases |ps|
  {
    if ps != [] {
      var m := Mark(ps, s);
      var n := if PieceAt(ps, 0, s) then |s| else 1;
      LaminarTail(secrets, ps, n);
      LaminarMark(secrets, ps[n..], s);
      assert m == [m[0]] + Mark(ps[n..], s);
      forall i: nat, j: nat, u, v
        | u in secrets && v in secrets && PieceAt(m, i, u) && PieceAt(m, j, v) && i < j < i + |u|
        ensures j + |v| <= i + |u|
      {
        if i > 0 {
          PieceShift([m[0]], Mark(ps[n..], s), i - 1, u);
          PieceShift([m[0]], Mark(ps[n..], s), j - 1, v);
        } else {
          BothInFront(ps, s, j, u, v);
        }
      }
    }
  }

  lemma BothInFront(ps: seq<Piece>, s: string, j: nat, u: string, v: string)
    requires s != "" && PieceAt(Mark(ps, s), 0, u) && PieceAt(Mark(ps, s), j, v) && j < |u|
    ensures PieceAt(ps, 0, u) && PieceAt(ps, j, v)
  {
    MarkedAtFront(ps, s, u);
    var m := Mark(ps, s);
    forall k | 0 <= k < j + |v| ensures m[k].Kept? {
      if k < |u| { assert m[0 + k] == Kept(u[k]); } else { assert m[j + (k - j)] == Kept(v[k - j]); }
    }
    MarkKeepsFront(ps, s, j + |v|);
    forall k | 0 <= k < |v| ensures ps[j + k] == Kept(v[k]) {
      assert ps[..j + |v|][j + k] == m[..j + |v|][j + k] == m[j + k];
    }
  }

  lemma {:induction false} MarkAllIsOnePass(secrets: seq<string>, ps: seq<Piece>)
    requires "" !in secrets && LongestFirst(secrets) && Laminar(secrets, ps)
    ensures MarkAll(secrets, ps) == Simultaneous(secrets, ps)
  {
    if secrets == [] {
      NothingToHide(ps);
    } else {
      var s, rest := secrets[0], secrets[1..];
      assert secrets == [s] + rest;
      LaminarMark(secrets, ps, s);
      assert Laminar(rest, Mark(ps, s)) by { assert forall v | v in rest :: v in secrets; }
      MarkAllIsOnePass(rest, Mark(ps, s));
      forall v | v in rest ensures |v| <= |s| {
        var i :| 0 <= i < |rest| && rest[i] == v;
        assert secrets[i + 1] == v;
      }
      MarkThenPass(s, rest, ps);
    }
  }

  lemma {:induction false} NothingToHide(ps: seq<Piece>)
    ensures Simultaneous([], ps) == ps
  {
    if ps != [] { NothingToHide(ps[1..]); }
  }

  /**
   * The redactor's loop over secrets equals one simultaneous replacement, whenever the
   * occurrences in the text are nested or disjoint.
   */
  lemma SequentialIsSimultaneous(secrets: seq<string>, t: string)
    requires AllDisjoint(secrets) && LongestFirst(secrets) && Laminar(secrets, Letters(t))
    ensures MaskSecrets(secrets, t) == Output(Simultaneous(secrets, Letters(t)))
    ensures Source(Simultaneous(secrets, Letters(t))) == t
  {
    LettersOf(t);
    SequentialIsMarkAll(secrets, Letters(t));
    MarkAllIsOnePass(secrets, Letters(t));
  }

  // ----- what the simultaneous pass hides

  /** The hidden spans with their positions in the source text. */
  function Hits(ps: seq<Piece>, from: nat): set<(nat, string)> {
    if ps == [] then {}
    else match ps[0]
      case Kept(_) => Hits(ps[1..], from + 1)
      case Hit(u) => {(from, u)} + Hits(ps[1..], from + |u|)
  }

  /** An occurrence not contained in a longer one. */
  ghost predicate Maximal(secrets: seq<string>, ps: seq<Piece>, p: nat, u: string) {
    && u in secrets && PieceAt(ps, p, u)
    && forall q: nat, v | v in secrets && PieceAt(ps, q, v) && q <= p && p + |u| <= q + |v| :: |v| <= |u|
  }

  lemma {:induction false} HitsShift(ps: seq<Piece>, from: nat, p: nat, u: string)
    ensures (p, u) in Hits(ps, from) <==> from <= p && (p - from, u) in Hits(ps, 0)
  {
    if ps != [] {
      var n := if ps[0].Hit? then |ps[0].span| else 1;
      HitsShift(ps[1..], from + n, p, u);
      if from <= p { HitsShift(ps[1..], n, p - from, u); }
      assert Hits(ps, 0) == (if ps[0].Hit? then {(0, ps[0].span)} else {}) + Hits(ps[1..], n);
    }
  }

  /** Past the front, being maximal in the rest and in the whole is the same. */
  lemma MaximalInTail(secrets: seq<string>, ps: seq<Piece>, n: nat, p: nat, u: string)
    requires n <= |ps| && n <= p && "" !in secrets
    requires forall q: nat, v | v in secrets && q < n && PieceAt(ps, q, v) :: q + |v| <= n
    ensures Maximal(secrets, ps, p, u) <==> Maximal(secrets, ps[n..], p - n, u)
  {
    assert ps == ps[..n] + ps[n..];
    PieceShift(ps[..n], ps[n..], p - n, u);
    if Maximal(secrets, ps, p, u) {
      forall q: nat, v | v in secrets && PieceAt(ps[n..], q, v) && q <= p - n && p - n + |u| <= q + |v|
        ensures |v| <= |u|
      {
        PieceShift(ps[..n], ps[n..], q, v);
        assert PieceAt(ps, n + q, v);
      }
    }
    if Maximal(secrets, ps[n..], p - n, u) {
      forall q: nat, v | v in secrets && PieceAt(ps, q, v) && q <= p && p + |u| <= q + |v|
        ensures |v| <= |u|
      {
        assert q >= n;
        PieceShift(ps[..n], ps[n..], q - n, v);
        assert PieceAt(ps[n..], q - n, v);
      }
    }
  }

  /** In front of the first piece kept or hidden, the only maximal occurrence is the one hidden. */
  lemma MaximalInFront(secrets: seq<string>, ps: seq<Piece>, n: nat, p: nat, u: string)
    requires "" !in secrets && p < n
    requires n == FrontWidth(secrets, ps)
    requires forall q: nat, v | v in secrets && q < n && PieceAt(ps, q, v) :: q + |v| <= n
    ensures Maximal(secrets, ps, p, u) <==> Longest(secrets, ps) == Some(u) && p == 0
  {
    var r := Longest(secrets, ps);
    if Maximal(secrets, ps, p, u) {
      assert p + |u| <= n;
      if r.Some? { PieceAtSame(u, r.value, ps); }
    }
    if r == Some(u) && p == 0 {
      forall q: nat, v | v in secrets && PieceAt(ps, q, v) && q <= p && p + |u| <= q + |v| ensures |v| <= |u| {
        assert q == 0;
      }
    }
  }

  /** The pass hides the maximal occurrences, all of them and nothing else. */
  lemma {:induction false} HidesMaximal(secrets: seq<string>, ps: seq<Piece>, p: nat, u: string)
    requires "" !in secrets && Laminar(secrets, ps) && Unmasked(ps)
    ensures (p, u) in Hits(Simultaneous(secrets, ps), 0) <==> Maximal(secrets, ps, p, u)
    decreases |ps|
  {
    if ps == [] {
      NothingHidden(secrets, p, u);
    } else {
      var n := FrontWidth(secrets, ps);
      if n <= p {
        LaminarTail(secrets, ps, n);
        assert Unmasked(ps[n..]);
        HidesMaximal(secrets, ps[n..], p - n, u);
        HiddenInTail(secrets, ps, n, p, u);
      } else {
        HiddenInFront(secrets, ps, n, p, u);
      }
    }
  }

  lemma NothingHidden(secrets: seq<string>, p: nat, u: string)
    requires "" !in secrets
    ensures (p, u) !in Hits(Simultaneous(secrets, []), 0) && !Maximal(secrets, [], p, u)
  {
  }

  lemma HiddenInTail(secrets: seq<string>, ps: seq<Piece>, n: nat, p: nat, u: string)
    requires "" !in secrets && Laminar(secrets, ps) && Unmasked(ps) && ps != [] && n == FrontWidth(secrets, ps) <= p
    requires (p - n, u) in Hits(Simultaneous(secrets, ps[n..]), 0) <==> Maximal(secrets, ps[n..], p - n, u)
    ensures (p, u) in Hits(Simultaneous(secrets, ps), 0) <==> Maximal(secrets, ps, p, u)
  {
    FrontStaysInFront(secrets, ps, n);
    HitsOfPass(secrets, ps, n, p, u);
    MaximalInTail(secrets, ps, n, p, u);
  }

  lemma HiddenInFront(secrets: seq<string>, ps: seq<Piece>, n: nat, p: nat, u: string)
    requires "" !in secrets && Laminar(secrets, ps) && Unmasked(ps) && ps != [] && p < n == FrontWidth(secrets, ps)
    ensures (p, u) in Hits(Simultaneous(secrets, ps), 0) <==> Maximal(secrets, ps, p, u)
  {
    FrontStaysInFront(secrets, ps, n);
    HitsOfPass(secrets, ps, n, p, u);
    MaximalInFront(secrets, ps, n, p, u);
  }

  predicate Unmasked(ps: seq<Piece>) {
    forall i | 0 <= i < |ps| :: ps[i].Kept?
  }

  /** How many pieces one step of the pass consumes. */
  function FrontWidth(secrets: seq<string>, ps: seq<Piece>): nat {
    var r := Longest(secrets, ps);
    if r.Some? then |r.value| else 1
  }

  lemma HitsOfPass(secrets: seq<string>, ps: seq<Piece>, n: nat, p: nat, u: string)
    requires "" !in secrets && ps != [] && ps[0].Kept?
    requires n == FrontWidth(secrets, ps)
    ensures (p, u) in Hits(Simultaneous(secrets, ps), 0)
       <==> if n <= p then (p - n, u) in Hits(Simultaneous(secrets, ps[n..]), 0)
            else Longest(secrets, ps) == Some(u) && p == 0
  {
    var rest := Simultaneous(secrets, ps[n..]);
    HitsShift(rest, n, p, u);
    assert Simultaneous(secrets, ps)[1..] == rest;
  }

  lemma FrontStaysInFront(secrets: seq<string>, ps: seq<Piece>, n: nat)
    requires "" !in secrets && Laminar(secrets, ps) && ps != []
    requires n == FrontWidth(secrets, ps)
    ensures forall q: nat, v | v in secrets && q < n && PieceAt(ps, q, v) :: q + |v| <= n
  {
    var r := Longest(secrets, ps);
    forall q: nat, v | v in secrets && q < n && PieceAt(ps, q, v) ensures q + |v| <= n {
      if r.Some? && q > 0 { assert PieceAt(ps, 0, r.value); }
    }
  }

  /** Source positions of what `redact` hides, before patterns: exactly the maximal secret occurrences. */
  lemma RedactionHidesMaximal(secrets: seq<string>, t: string, p: nat, u: string)
    requires AllDisjoint(secrets) && LongestFirst(secrets) && Laminar(secrets, Letters(t))
    ensures MaskSecrets(secrets, t) == Output(MarkAll(secrets, Letters(t)))
    ensures (p, u) in Hits(MarkAll(secrets, Letters(t)), 0) <==> Maximal(secrets, Letters(t), p, u)
  {
    LettersOf(t);
    SequentialIsMarkAll(secrets, Letters(t));
    MarkAllIsOnePass(secrets, Letters(t));
    HidesMaximal(secrets, Letters(t), p, u);
  }
}
