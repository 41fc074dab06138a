/**
 * The JavaScript array operations the client's list updates are built from:
 * `Array.prototype.map`, `filter` and `find`, plus the order-preserving
 * subsequence relation used to state what `filter` keeps.
 */
module JsArrays {
  import opened Wrappers

  /** `s.map(f)`: same length, each element transformed in place. */
  function Mapped<T, U>(s: seq<T>, f: T -> U): (r: seq<U>)
    ensures |r| == |s|
    ensures forall i :: 0 <= i < |s| ==> r[i] == f(s[i])
  {
    if s == [] then [] else [f(s[0])] + Mapped(s[1..], f)
  }

  /**
   * `a` is obtained from `b` by deleting elements: the elements of `a` occur
   * in `b` in the same order.
   */
  predicate IsSubsequence<T(==)>(a: seq<T>, b: seq<T>)
    decreases |b|
  {
    if a == [] then true
    else if b == [] then false
    else if a[0] == b[0] then IsSubsequence(a[1..], b[1..])
    else IsSubsequence(a, b[1..])
  }

  /**
   * `s.filter(p)`: exactly the elements of `s` satisfying `p`, in their
   * original order.
   */
  function Filtered<T(==)>(s: seq<T>, p: T -> bool): (r: seq<T>)
    ensures |r| <= |s|
    ensures forall i :: 0 <= i < |r| ==> r[i] in s && p(r[i])
    ensures forall i :: 0 <= i < |s| && p(s[i]) ==> s[i] in r
    ensures IsSubsequence(r, s)
  {
    if s == [] then []
    else if p(s[0]) then [s[0]] + Filtered(s[1..], p)
    else Filtered(s[1..], p)
  }

  /** Every element of a subsequence is an element of the whole sequence. */
  lemma {:induction false} SubsequenceMembers<T>(a: seq<T>, b: seq<T>)
    requires IsSubsequence(a, b)
    ensures forall i :: 0 <= i < |a| ==> a[i] in b
    decreases |b|
  {
    if a != [] && b != [] {
      if a[0] == b[0] {
        SubsequenceMembers(a[1..], b[1..]);
        assert forall i :: 1 <= i < |a| ==> a[i] == a[1..][i - 1];
      } else {
        SubsequenceMembers(a, b[1..]);
      }
    }
  }

  /** `filter` keeps every copy of a kept element and drops every copy of the others. */
  lemma {:induction false} FilteredKeepsEveryCopy<T>(s: seq<T>, p: T -> bool, x: T)
    ensures multiset(Filtered(s, p))[x] == if p(x) then multiset(s)[x] else 0
  {
    if s != [] {
      FilteredKeepsEveryCopy(s[1..], p, x);
      assert s == [s[0]] + s[1..];
    }
  }

  /** `s.find(p)`: the first element satisfying `p`, if there is one. */
  function Find<T>(s: seq<T>, p: T -> bool): (r: Option<T>)
    ensures r.None? <==> forall i :: 0 <= i < |s| ==> !p(s[i])
    ensures r.Some? ==> exists i :: 0 <= i < |s| && s[i] == r.value && p(s[i]) &&
                                    forall j :: 0 <= j < i ==> !p(s[j])
  {
    if s == [] then None
    else if p(s[0]) then Some(s[0])
    else
      var r := Find(s[1..], p);
      assert forall i :: 1 <= i < |s| ==> s[i] == s[1..][i - 1];
      r
  }
}
