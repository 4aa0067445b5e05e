/** Order-preserving filtering of sequences, as JavaScript's `Array.prototype.filter` does it. */
module Seqs {

  /** `a` can be obtained from `b` by deleting elements, keeping the order of the rest. */
  ghost predicate IsSubsequence<T>(a: seq<T>, b: seq<T>)
    decreases |b|
  {
    a == [] || (b != [] && ((a[0] == b[0] && IsSubsequence(a[1..], b[1..])) || IsSubsequence(a, b[1..])))
  }

  /** The elements of `s` that satisfy `p`, in their original order. */
  function Keep<T(==)>(s: seq<T>, p: T -> bool): (r: seq<T>)
    ensures |r| <= |s|
    ensures forall x :: x in r ==> x in s && p(x)
    ensures forall x :: x in s && p(x) ==> x in r
    ensures forall x | x in s :: multiset(r)[x] == if p(x) then multiset(s)[x] else 0
    decreases |s|
  {
    if s == [] then []
    else
      var rest := Keep(s[1..], p);
      assert s == [s[0]] + s[1..];
      (if p(s[0]) then [s[0]] else []) + rest
  }

  lemma {:induction false} KeepIsSubsequence<T>(s: seq<T>, p: T -> bool)
    ensures IsSubsequence(Keep(s, p), s)
  {
    if s != [] {
      KeepIsSubsequence(s[1..], p);
      var rest := Keep(s[1..], p);
      if p(s[0]) {
        assert Keep(s, p) == [s[0]] + rest;
        assert (Keep(s, p))[1..] == rest;
      } else {
        assert Keep(s, p) == rest;
      }
    }
  }

  /** Filtering keeps everything exactly when every element passes. */
  lemma {:induction false} KeepAll<T>(s: seq<T>, p: T -> bool)
    requires forall i :: 0 <= i < |s| ==> p(s[i])
    ensures Keep(s, p) == s
  {
    if s != [] {
      KeepAll(s[1..], p);
      assert [s[0]] + s[1..] == s;
    }
  }

  /** Two predicates that agree on the elements of `s` filter it the same way. */
  lemma {:induction false} KeepCongruent<T>(s: seq<T>, p: T -> bool, q: T -> bool)
    requires forall i :: 0 <= i < |s| ==> p(s[i]) == q(s[i])
    ensures Keep(s, p) == Keep(s, q)
  {
    if s != [] {
      KeepCongruent(s[1..], p, q);
    }
  }

  /** Filtering twice is filtering once by the conjunction. */
  lemma {:induction false} KeepKeep<T>(s: seq<T>, p: T -> bool, q: T -> bool)
    ensures Keep(Keep(s, p), q) == Keep(s, x => p(x) && q(x))
  {
    if s != [] {
      KeepKeep(s[1..], p, q);
      var rest := Keep(s[1..], p);
      if p(s[0]) {
        assert Keep(s, p) == [s[0]] + rest;
        assert Keep(s, p)[1..] == rest;
      } else {
        assert Keep(s, p) == rest;
      }
    }
  }

  /**
   * One stage of a staged filter: if `list` is `s` filtered by `acc`, then applying the stage
   * (filtering by `q` when `active`, doing nothing otherwise) gives `s` filtered by `next`,
   * the predicate that holds exactly when `acc` holds and the stage is off or `q` holds.
   */
  lemma Refine<T>(s: seq<T>, acc: T -> bool, active: bool, q: T -> bool, next: T -> bool,
                  list: seq<T>, list': seq<T>)
    requires list == Keep(s, acc)
    requires list' == if active then Keep(list, q) else list
    requires forall i :: 0 <= i < |s| ==> next(s[i]) == (acc(s[i]) && (!active || q(s[i])))
    ensures list' == Keep(s, next)
  {
    if active {
      KeepKeep(s, acc, q);
      KeepCongruent(s, x => acc(x) && q(x), next);
    } else {
      KeepCongruent(s, acc, next);
    }
  }
}
