/**
 * Duplicate-freedom and the two list idioms of the source: `list(set(xs))`
 * and a list comprehension with a condition.
 */
module Seqs {

  predicate NoDup<T(==)>(s: seq<T>) {
    forall i, j :: 0 <= i < j < |s| ==> s[i] != s[j]
  }

  function Elems<T>(s: seq<T>): set<T> {
    set x | x in s
  }

  /**
   * The elements of `s` not in `seen`, each once, at its first occurrence.
   * `list(set(xs))` has an unspecified order; this fixes one, and the
   * contracts that use it state only what every order shares.
   */
  function DedupFrom<T(==)>(s: seq<T>, seen: set<T>): (r: seq<T>)
    ensures NoDup(r)
    ensures Elems(r) == Elems(s) - seen
    ensures multiset(r) <= multiset(s)
    decreases |s|
  {
    if s == [] then []
    else
      assert s == [s[0]] + s[1..];
      assert Elems(s) == {s[0]} + Elems(s[1..]);
      if s[0] in seen then DedupFrom(s[1..], seen)
      else
        var r := DedupFrom(s[1..], seen + {s[0]});
        assert Elems([s[0]] + r) == {s[0]} + Elems(r);
        [s[0]] + r
  }

  /** `list(set(s))`: duplicate-free, with the same elements as `s`. */
  function Dedup<T(==)>(s: seq<T>): (r: seq<T>)
    ensures NoDup(r) && Elems(r) == Elems(s) && multiset(r) <= multiset(s)
  {
    DedupFrom(s, {})
  }

  lemma {:induction false} DedupFromOfNoDup<T>(s: seq<T>, seen: set<T>)
    requires NoDup(s) && Elems(s) !! seen
    ensures DedupFrom(s, seen) == s
    decreases |s|
  {
    if s != [] {
      assert s[0] in Elems(s);
      assert NoDup(s[1..]);
      assert forall j :: 0 <= j < |s| - 1 ==> s[1..][j] == s[j + 1] != s[0];
      assert s[0] !in Elems(s[1..]);
      DedupFromOfNoDup(s[1..], seen + {s[0]});
    }
  }

  /** Deduplicating a duplicate-free list changes nothing, so `Dedup` is idempotent. */
  lemma DedupOfNoDup<T>(s: seq<T>)
    requires NoDup(s)
    ensures Dedup(s) == s
  {
    DedupFromOfNoDup(s, {});
  }

  /** `[x for x in s if keep(x)]`. */
  function Filter<T>(keep: T -> bool, s: seq<T>): (r: seq<T>)
    ensures forall i :: 0 <= i < |r| ==> keep(r[i])
    ensures forall x :: x in s && keep(x) ==> x in r
    ensures multiset(r) <= multiset(s)
    decreases |s|
  {
    if s == [] then []
    else
      assert s == [s[0]] + s[1..];
      if keep(s[0]) then [s[0]] + Filter(keep, s[1..]) else Filter(keep, s[1..])
  }

  /** `r` is `s` with some entries left out, the others kept in their order. */
  predicate Subseq<T(==)>(r: seq<T>, s: seq<T>)
    decreases |s|
  {
    r == [] || (s != [] && ((r[0] == s[0] && Subseq(r[1..], s[1..])) || Subseq(r, s[1..])))
  }

  /** The filtered list keeps the order of `s`. */
  lemma {:induction false} FilterSubseq<T>(keep: T -> bool, s: seq<T>)
    ensures Subseq(Filter(keep, s), s)
    decreases |s|
  {
    if s != [] {
      FilterSubseq(keep, s[1..]);
      if keep(s[0]) {
        assert Filter(keep, s)[1..] == Filter(keep, s[1..]);
      }
    }
  }

  /** An entry that passes is kept as often as it occurs, one that fails never. */
  lemma {:induction false} FilterCount<T>(keep: T -> bool, s: seq<T>)
    ensures forall x :: multiset(Filter(keep, s))[x] == if keep(x) then multiset(s)[x] else 0
    decreases |s|
  {
    if s != [] {
      FilterCount(keep, s[1..]);
      assert s == [s[0]] + s[1..];
      assert multiset(s) == multiset{s[0]} + multiset(s[1..]);
    }
  }

  lemma {:induction false} FilterIdempotent<T>(keep: T -> bool, s: seq<T>)
    ensures Filter(keep, Filter(keep, s)) == Filter(keep, s)
    decreases |s|
  {
    if s != [] {
      FilterIdempotent(keep, s[1..]);
    }
  }
}
