/** Sequence operations shared by both components: `Keep` is
    `Array.prototype.filter`, visiting the elements in index order. */
module Seqs {

  /** The elements of `s` for which `f` holds, in their original order. */
  function Keep<T>(s: seq<T>, f: T -> bool): (r: seq<T>)
    ensures |r| <= |s|
    ensures forall i :: 0 <= i < |r| ==> r[i] in s && f(r[i])
    ensures forall i :: 0 <= i < |s| && f(s[i]) ==> s[i] in r
    ensures (forall i :: 0 <= i < |s| ==> f(s[i])) ==> r == s
  {
    if s == [] then []
    else
      var rest := Keep(s[1..], f);
      assert forall i :: 0 <= i < |rest| ==> rest[i] in s;
      assert forall i :: 1 <= i < |s| ==> s[i] == s[1..][i - 1];
      if f(s[0]) then [s[0]] + rest else rest
  }

  /** `a` is obtained from `b` by deleting some elements, keeping the order of the rest. */
  ghost predicate IsSubsequence<T>(a: seq<T>, b: seq<T>)
    decreases |b|
  {
    if a == [] then true
    else if b == [] then false
    else (a[0] == b[0] && IsSubsequence(a[1..], b[1..])) || IsSubsequence(a, b[1..])
  }

  /** Filtering never reorders: the result is a subsequence of the input. */
  lemma {:induction false} KeepIsSubsequence<T>(s: seq<T>, f: T -> bool)
    ensures IsSubsequence(Keep(s, f), s)
  {
    if s != [] {
      KeepIsSubsequence(s[1..], f);
      var r := Keep(s, f);
      if f(s[0]) {
        assert r[0] == s[0] && r[1..] == Keep(s[1..], f);
      } else {
        assert r == Keep(s[1..], f);
      }
    }
  }

  /** Filtering keeps every occurrence of a selected element and none of the others. */
  lemma {:induction false} KeepCounts<T>(s: seq<T>, f: T -> bool, x: T)
    ensures multiset(Keep(s, f))[x] == if f(x) then multiset(s)[x] else 0
  {
    if s != [] {
      KeepCounts(s[1..], f, x);
      assert s == [s[0]] + s[1..];
      assert multiset(s) == multiset([s[0]]) + multiset(s[1..]);
      if f(s[0]) {
        assert Keep(s, f) == [s[0]] + Keep(s[1..], f);
        assert multiset(Keep(s, f)) == multiset([s[0]]) + multiset(Keep(s[1..], f));
      }
    }
  }

  /** Filtering a one-element sequence keeps it exactly when the element is selected. */
  lemma KeepSingleton<T>(x: T, f: T -> bool)
    ensures Keep([x], f) == if f(x) then [x] else []
  {
    assert [x][1..] == [];
  }
}
