/** Facts about sequences and sets that several modules need. */
module Sequences {

  ghost predicate Distinct<T>(s: seq<T>) {
    forall i, j | 0 <= i < j < |s| :: s[i] != s[j]
  }

  /** The sequence holds every member of the set once: one order in which a Go map, or the lister,
      may be iterated. */
  ghost predicate Enumerates<T(!new)>(s: seq<T>, all: set<T>) {
    && Distinct(s)
    && forall x :: x in s <==> x in all
  }

  lemma {:induction false} EnumerationSize<T(!new)>(s: seq<T>, all: set<T>)
    requires Enumerates(s, all)
    ensures |s| == |all|
  {
    if s == [] {
      assert all == {};
    } else {
      assert s == [s[0]] + s[1..];
      assert s[0] in s && s[0] !in s[1..];
      EnumerationSize(s[1..], all - {s[0]});
      assert all == (all - {s[0]}) + {s[0]};
    }
  }

  /** The sequence without the element at index `i`. */
  function Without<T>(s: seq<T>, i: nat): (rest: seq<T>)
    requires i < |s|
    ensures |rest| == |s| - 1
    ensures forall x <- rest :: x in s
  {
    s[..i] + s[i + 1..]
  }

  lemma RemovesOne<T>(s: seq<T>, i: nat)
    requires i < |s|
    ensures multiset(Without(s, i)) == multiset(s) - multiset{s[i]}
  {
    assert s == s[..i] + [s[i]] + s[i + 1..];
  }

  lemma AppendIsAssociative<T>(a: seq<T>, b: seq<T>, c: seq<T>)
    ensures a + (b + c) == (a + b) + c
  {}

  lemma SubsetSize<T>(a: set<T>, b: set<T>)
    requires a <= b
    ensures |a| <= |b|
  {
    assert b == a + (b - a);
  }
}
