/** The JavaScript array and set operations the dashboard is built from,
    stated once over Dafny sequences: `Array.prototype.filter`,
    `Array.prototype.map`, the first-appearance listing that
    `[...new Set(xs)]` produces, and the numeric sum of a list. */
module Arrays {

  /** `s.filter(p)`: the elements of `s` that satisfy `p`, in their order. */
  function Select<T(!new)>(s: seq<T>, p: T -> bool): (r: seq<T>)
    ensures |r| <= |s|
    ensures forall x :: x in r <==> x in s && p(x)
    ensures forall x :: multiset(r)[x] == if p(x) then multiset(s)[x] else 0
    decreases |s|
  {
    if s == [] then []
    else
      assert s == [s[0]] + s[1..];
      (if p(s[0]) then [s[0]] else []) + Select(s[1..], p)
  }

  /** `s.map(f)`: one image per element, position by position. */
  function Map<A, B>(s: seq<A>, f: A -> B): (r: seq<B>)
    ensures |r| == |s|
    ensures forall i :: 0 <= i < |s| ==> r[i] == f(s[i])
    decreases |s|
  {
    if s == [] then [] else [f(s[0])] + Map(s[1..], f)
  }

  /** `a` is obtained from `b` by deleting elements, keeping the relative
      order of those that remain. */
  predicate IsSubsequence<T(==)>(a: seq<T>, b: seq<T>)
    decreases |b|
  {
    if a == [] then true
    else if b == [] then false
    else (a[0] == b[0] && IsSubsequence(a[1..], b[1..])) || IsSubsequence(a, b[1..])
  }

  predicate NoDup<T(==)>(s: seq<T>)
  {
    forall i, j :: 0 <= i < j < |s| ==> s[i] != s[j]
  }

  /** The position of the first occurrence of `x` in `s`. */
  function FirstIndex<T(==)>(s: seq<T>, x: T): (i: nat)
    requires x in s
    ensures i < |s| && s[i] == x && x !in s[..i]
    decreases |s|
  {
    if s[0] == x then 0 else 1 + FirstIndex(s[1..], x)
  }

  /** Every element of `r` occurs in `s`, and `r` lists them in the order in
      which each first occurs in `s`. */
  predicate InFirstAppearanceOrder<T(==,!new)>(r: seq<T>, s: seq<T>)
  {
    && (forall x :: x in r ==> x in s)
    && (forall i, j :: 0 <= i < j < |r| ==> FirstIndex(s, r[i]) < FirstIndex(s, r[j]))
  }

  /** `[...new Set(s)]`: a JavaScript `Set` fed the elements of `s` from left
      to right keeps a value the first time it is inserted and ignores later
      insertions, and spreading it lists the values in insertion order. */
  function Dedup<T(==,!new)>(s: seq<T>): (r: seq<T>)
    ensures NoDup(r)
    ensures forall x :: x in r <==> x in s
    ensures |r| <= |s|
    decreases |s|
  {
    if s == [] then []
    else
      var seen := Dedup(s[..|s| - 1]);
      var x := s[|s| - 1];
      assert s == s[..|s| - 1] + [x];
      if x in seen then seen else seen + [x]
  }

  /** The sum of a list of amounts, as the charts' values are added up. */
  function Sum(xs: seq<nat>): nat
    decreases |xs|
  {
    if xs == [] then 0 else xs[0] + Sum(xs[1..])
  }

  // ---------------------------------------------------------------- filter

  /** A non-empty sequence has a member. Lemmas that conclude a sequence is
      empty because nothing is in it call this instead of asserting
      `t[0] in t` in a branch that the facts already rule out: Dafny reports
      every check in such a branch as proved from contradictory assumptions. */
  lemma HeadIsMember<T>(t: seq<T>)
    ensures t == [] || t[0] in t
  {
  }

  /** Filtering keeps the surviving elements in their original relative order. */
  lemma {:induction false} SelectIsSubsequence<T(!new)>(s: seq<T>, p: T -> bool)
    ensures IsSubsequence(Select(s, p), s)
    decreases |s|
  {
    if s != [] {
      SelectIsSubsequence(s[1..], p);
      var r := Select(s, p);
      if p(s[0]) {
        assert r[0] == s[0] && r[1..] == Select(s[1..], p);
      } else {
        assert r == Select(s[1..], p);
      }
    }
  }

  /** Filtering with a predicate that is at least as strict as the one
      already applied is the same as applying only the stricter one. */
  lemma {:induction false} SelectNarrow<T(!new)>(s: seq<T>, p: T -> bool, q: T -> bool)
    requires forall x :: q(x) ==> p(x)
    ensures Select(Select(s, p), q) == Select(s, q)
    decreases |s|
  {
    if s != [] {
      SelectNarrow(s[1..], p, q);
      if p(s[0]) {
        assert Select(s, p) == [s[0]] + Select(s[1..], p);
        assert Select(s, p)[1..] == Select(s[1..], p);
      } else {
        assert Select(s, p) == Select(s[1..], p);
      }
    }
  }

  /** A predicate that no element of `s` satisfies filters everything out. */
  lemma SelectNone<T(!new)>(s: seq<T>, p: T -> bool)
    requires forall x :: x in s ==> !p(x)
    ensures Select(s, p) == []
  {
    HeadIsMember(Select(s, p));
  }

  // ------------------------------------------------------- first index

  /** The first occurrence of a value of `p` in `p + q` lies inside `p`. */
  lemma FirstIndexPrefix<T>(p: seq<T>, q: seq<T>, x: T)
    requires x in p
    ensures FirstIndex(p + q, x) == FirstIndex(p, x)
  {
    var i1, i2 := FirstIndex(p + q, x), FirstIndex(p, x);
    assert (p + q)[i2] == x;
    assert (p + q)[..i1] == p[..i1] || i1 > |p|;
  }

  /** A value absent from `p` and last in `p + [y]` first occurs at the end. */
  lemma FirstIndexLast<T>(p: seq<T>, y: T)
    requires y !in p
    ensures FirstIndex(p + [y], y) == |p|
  {
    var i := FirstIndex(p + [y], y);
  }

  // ------------------------------------------------------------- dedup

  /** The set spread lists each value in the order of its first appearance. */
  lemma {:induction false} DedupOrder<T(!new)>(s: seq<T>)
    ensures InFirstAppearanceOrder(Dedup(s), s)
    decreases |s|
  {
    if s != [] {
      var p, y := s[..|s| - 1], s[|s| - 1];
      assert s == p + [y];
      var seen := Dedup(p);
      DedupOrder(p);
      forall x | x in seen
        ensures FirstIndex(s, x) == FirstIndex(p, x) < |p|
      {
        FirstIndexPrefix(p, [y], x);
      }
      if y !in seen {
        FirstIndexLast(p, y);
        var r := seen + [y];
        forall i, j | 0 <= i < j < |r|
          ensures FirstIndex(s, r[i]) < FirstIndex(s, r[j])
        {
          assert r[i] in seen;
          if j < |seen| {
            assert r[j] in seen;
          }
        }
      }
    }
  }

  /** In a listing of the values of `p + [y]` in first-appearance order, a
      value `y` that does not occur in `p` comes last. */
  lemma NewLastIsLast<T(!new)>(p: seq<T>, y: T, t: seq<T>)
    requires y !in p
    requires y in t
    requires InFirstAppearanceOrder(t, p + [y])
    ensures t[|t| - 1] == y
  {
    var s := p + [y];
    FirstIndexLast(p, y);
    var k :| 0 <= k < |t| && t[k] == y;
    var last := t[|t| - 1];
    assert FirstIndex(s, t[k]) <= FirstIndex(s, last) < |s|;
  }

  /** When the last element `y` of `s` is new, an ordered listing of the
      values of `s` ends with `y`, and what precedes it is an ordered listing
      of the values of the rest of `s`. */
  lemma OrderedListingOfNewLast<T(!new)>(p: seq<T>, y: T, t: seq<T>)
    requires y !in p
    requires NoDup(t)
    requires forall x :: x in t <==> x in p + [y]
    requires InFirstAppearanceOrder(t, p + [y])
    ensures t != [] && t[|t| - 1] == y
    ensures NoDup(t[..|t| - 1])
    ensures forall x :: x in t[..|t| - 1] <==> x in p
    ensures InFirstAppearanceOrder(t[..|t| - 1], p)
  {
    var s := p + [y];
    forall x | x in p
      ensures FirstIndex(s, x) == FirstIndex(p, x) < |p|
    {
      FirstIndexPrefix(p, [y], x);
    }
    FirstIndexLast(p, y);
    assert y in s;
    assert y in t;
    NewLastIsLast(p, y, t);
    var t' := t[..|t| - 1];
    assert t == t' + [y];
    forall x | x in t' ensures x in p {
      assert x in t && x != y;
    }
    forall x | x in p ensures x in t' {
      assert x in s;
      var m :| 0 <= m < |t| && t[m] == x;
      assert m != |t| - 1;
      assert t'[m] == x;
    }
    forall i, j | 0 <= i < j < |t'|
      ensures FirstIndex(p, t'[i]) < FirstIndex(p, t'[j])
    {
      assert t'[i] == t[i] && t'[j] == t[j];
    }
  }

  /** Distinctness, same elements and first-appearance order pin the spread
      of the set down completely: any list with these three properties is
      the Dedup of `s`. */
  lemma {:induction false} DedupUnique<T(!new)>(s: seq<T>, t: seq<T>)
    requires NoDup(t)
    requires forall x :: x in t <==> x in s
    requires InFirstAppearanceOrder(t, s)
    ensures t == Dedup(s)
    decreases |s|
  {
    if s == [] {
      HeadIsMember(t);
    } else {
      var p, y := s[..|s| - 1], s[|s| - 1];
      assert s == p + [y];
      if y in p {
        forall x | x in p
          ensures FirstIndex(s, x) == FirstIndex(p, x)
        {
          FirstIndexPrefix(p, [y], x);
        }
        forall x | x in t ensures x in p {
          assert x in s;
        }
        DedupUnique(p, t);
      } else {
        OrderedListingOfNewLast(p, y, t);
        DedupUnique(p, t[..|t| - 1]);
        assert t == t[..|t| - 1] + [y];
      }
    }
  }
}
