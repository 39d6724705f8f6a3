/** Sequence helpers shared by the query layer and the two processes. */
module Seqs {

  /** Keeps the elements that satisfy `p`, in their original order; a SQL `WHERE` over a table. */
  function Filter<T(!new)>(xs: seq<T>, p: T -> bool): (r: seq<T>)
    ensures |r| <= |xs|
    ensures forall x :: x in r <==> x in xs && p(x)
  {
    if xs == [] then []
    else
      var init := xs[..|xs| - 1];
      var last := xs[|xs| - 1];
      assert xs == init + [last];
      Filter(init, p) + (if p(last) then [last] else [])
  }

  /** The first element of a non-empty sequence is one of its elements. */
  lemma HeadIsMember<T>(s: seq<T>)
    requires s != []
    ensures s[0] in s
  {
  }

  /** The first two elements of a sequence of two or more are among its elements. */
  lemma FirstTwoAreMembers<T>(s: seq<T>)
    requires |s| >= 2
    ensures s[0] in s && s[1] in s
  {
  }

  /** No element occurs twice. */
  predicate NoDuplicates<T(==)>(s: seq<T>) {
    forall i, j :: 0 <= i < j < |s| ==> s[i] != s[j]
  }

  /** The set of elements of a sequence. */
  function Elements<T(!new)>(s: seq<T>): (r: set<T>)
    ensures forall x :: x in r <==> x in s
  {
    set x | x in s
  }

  /**
   * One step of walking a set in some order: taking a not-yet-visited element `x` extends the
   * visit order without repeating anything.
   */
  lemma WalkStep<T(!new)>(all: set<T>, remaining: set<T>, order: seq<T>, x: T)
    requires remaining <= all && x in remaining
    requires Elements(order) == all - remaining && NoDuplicates(order)
    ensures Elements(order + [x]) == Elements(order) + {x} == all - (remaining - {x})
    ensures NoDuplicates(order + [x])
  {
    assert Elements(order + [x]) == Elements(order) + {x};
  }

  /** A sequence without duplicates has as many elements as its set of elements. */
  lemma {:induction false} NoDuplicatesCardinality<T(!new)>(s: seq<T>)
    requires NoDuplicates(s)
    ensures |Elements(s)| == |s|
  {
    if s != [] {
      var init := s[..|s| - 1];
      var last := s[|s| - 1];
      assert s == init + [last];
      assert NoDuplicates(init);
      NoDuplicatesCardinality(init);
      assert last !in init;
      assert Elements(s) == Elements(init) + {last};
    }
  }
}
