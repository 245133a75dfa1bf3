/** Generic facts about sequences used by the rest of the model. */
module Seqs {

  /** No element occurs twice. */
  predicate Distinct<T(==)>(s: seq<T>) {
    forall i, j :: 0 <= i < j < |s| ==> s[i] != s[j]
  }

  /** r lists some of the elements of s, in the order in which they occur in s. */
  predicate IsSubsequence<T(==)>(r: seq<T>, s: seq<T>)
    decreases |s|
  {
    if r == [] then true
    else if s == [] then false
    else if r[0] == s[0] then IsSubsequence(r[1..], s[1..])
    else IsSubsequence(r, s[1..])
  }

  /** The elements of s that satisfy keep, in order (a Python list comprehension with an `if`). */
  function Filter<T(==,!new)>(s: seq<T>, keep: T -> bool): (r: seq<T>)
    ensures forall x :: x in r <==> x in s && keep(x)
    ensures IsSubsequence(r, s)
    ensures |r| <= |s|
  {
    if s == [] then []
    else if keep(s[0]) then [s[0]] + Filter(s[1..], keep)
    else Filter(s[1..], keep)
  }

  /** Filtering only looks at the elements of s: two tests that agree on them give the same result. */
  lemma {:induction false} FilterAgrees<T(!new)>(s: seq<T>, p: T -> bool, q: T -> bool)
    requires forall x :: x in s ==> p(x) == q(x)
    ensures Filter(s, p) == Filter(s, q)
  {
    if s != [] {
      FilterAgrees(s[1..], p, q);
    }
  }

  /** The filter keeps nothing exactly when no element passes the test. */
  lemma FilterEmpty<T(!new)>(s: seq<T>, keep: T -> bool)
    ensures Filter(s, keep) == [] <==> forall x :: x in s ==> !keep(x)
  {
    var r := Filter(s, keep);
    if r != [] {
      assert r[0] in r;
    }
  }

  /** A prefix of a sequence without repetitions has none, and does not hold the next element. */
  lemma DistinctPrefix<T>(s: seq<T>, i: nat)
    requires Distinct(s) && i < |s|
    ensures Distinct(s[..i]) && s[i] !in s[..i]
    ensures s[..i + 1][..i] == s[..i] && s[..i + 1][i] == s[i]
  {
  }

  /** A subsequence of a sequence without repetitions has no repetitions and is no longer. */
  lemma {:induction false} SubsequenceOfDistinct<T>(r: seq<T>, s: seq<T>)
    requires IsSubsequence(r, s) && Distinct(s)
    ensures Distinct(r) && |r| <= |s|
    ensures forall x :: x in r ==> x in s
    decreases |s|
  {
    if r == [] {
    } else if r[0] == s[0] {
      SubsequenceOfDistinct(r[1..], s[1..]);
      assert r == [r[0]] + r[1..];
      assert r[0] !in r[1..] by { assert s[0] !in s[1..]; }
      forall i, j | 0 <= i < j < |r| ensures r[i] != r[j] {
        if i > 0 { assert r[i] == r[1..][i - 1] && r[j] == r[1..][j - 1]; }
        else { assert r[j] == r[1..][j - 1]; }
      }
    } else {
      SubsequenceOfDistinct(r, s[1..]);
    }
  }

  /** How a subsequence of a sequence without repetitions starts: with s[0] exactly when it
      contains s[0]. */
  lemma SubsequenceStep<T>(r: seq<T>, s: seq<T>)
    requires IsSubsequence(r, s) && Distinct(s) && s != []
    ensures s[0] in r ==> r != [] && r[0] == s[0] && IsSubsequence(r[1..], s[1..])
    ensures s[0] !in r ==> IsSubsequence(r, s[1..])
  {
    if r != [] && r[0] != s[0] {
      SubsequenceOfDistinct(r, s[1..]);
      assert s[0] !in s[1..];
    }
  }

  /** Without repetitions, the tail holds exactly the elements other than the head. */
  lemma DistinctTail<T>(r: seq<T>)
    requires Distinct(r) && r != []
    ensures forall x :: x in r[1..] <==> x in r && x != r[0]
  {
    forall x | x in r[1..] ensures x != r[0] {
      var k :| 0 <= k < |r[1..]| && r[1..][k] == x;
      assert r[k + 1] == x;
    }
    assert r == [r[0]] + r[1..];
  }

  /** In a sequence without repetitions, a subsequence is determined by its elements: the list
      a filter produces is the only one with those elements in that order. */
  lemma {:induction false} SubsequenceUnique<T>(r1: seq<T>, r2: seq<T>, s: seq<T>)
    requires Distinct(s) && IsSubsequence(r1, s) && IsSubsequence(r2, s)
    requires forall x :: x in r1 <==> x in r2
    ensures r1 == r2
    decreases |s|
  {
    if s == [] {
      assert r1 == [] && r2 == [];
    } else {
      var t := s[1..];
      assert Distinct(t);
      SubsequenceStep(r1, s);
      SubsequenceStep(r2, s);
      if s[0] in r1 {
        SubsequenceOfDistinct(r1, s);
        SubsequenceOfDistinct(r2, s);
        DistinctTail(r1);
        DistinctTail(r2);
        SubsequenceUnique(r1[1..], r2[1..], t);
        assert r1 == [r1[0]] + r1[1..];
        assert r2 == [r2[0]] + r2[1..];
      } else {
        SubsequenceUnique(r1, r2, t);
      }
    }
  }
}
