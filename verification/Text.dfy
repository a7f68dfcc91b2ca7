/** Character classes and substring search, as the Python runtime defines them. */
module Text {

  /** Characters `str.isspace`, `str.strip` and the regular expression class `\s` treat as white space. */
  predicate IsSpace(c: char) {
    var n := c as int;
    || 0x09 <= n <= 0x0d || 0x1c <= n <= 0x20 || n == 0x85 || n == 0xa0 || n == 0x1680
    || 0x2000 <= n <= 0x200a || n == 0x2028 || n == 0x2029 || n == 0x202f || n == 0x205f || n == 0x3000
  }

  /** `s` stands at index `i` of `t`. */
  predicate At(t: string, i: nat, s: string) {
    i + |s| <= |t| && t[i..i + |s|] == s
  }

  /** The `in` operator on strings. */
  predicate Occurs(s: string, t: string) {
    exists i | 0 <= i <= |t| :: At(t, i, s)
  }

  lemma OccursAt(s: string, t: string, i: nat)
    requires At(t, i, s)
    ensures Occurs(s, t)
  {
  }

  lemma WholeOccurs(s: string)
    ensures Occurs(s, s)
  {
    assert s[0..|s|] == s;
    OccursAt(s, s, 0);
  }

  lemma AtShift(a: string, b: string, i: nat, s: string)
    ensures At(a + b, |a| + i, s) <==> At(b, i, s)
  {
    if i + |s| <= |b| {
      assert (a + b)[|a| + i..|a| + i + |s|] == b[i..i + |s|];
    }
  }

  /** An occurrence inside one part of a concatenation is an occurrence in the whole. */
  lemma OccursInPart(s: string, a: string, b: string, c: string)
    requires Occurs(s, b)
    ensures Occurs(s, a + b + c)
  {
    var i: nat :| i <= |b| && At(b, i, s);
    AtShift(a, b, i, s);
    assert (a + b + c)[|a| + i..|a| + i + |s|] == (a + b)[|a| + i..|a| + i + |s|];
    OccursAt(s, a + b + c, |a| + i);
  }

  lemma OccursTransitive(s: string, t: string, u: string)
    requires Occurs(s, t) && Occurs(t, u)
    ensures Occurs(s, u)
  {
    var i: nat :| i <= |u| && At(u, i, t);
    assert u == u[..i] + t + u[i + |t|..];
    OccursInPart(s, u[..i], t, u[i + |t|..]);
  }
}
