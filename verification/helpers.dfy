/** Small generic helpers: an optional value, milk.py's clamp, and order-keeping filter and map. */
module Helpers {

  datatype Option<T> = None | Some(value: T)

  /** milk.py's clamp: max(lo, min(v, hi)). */
  function Clamp(v: int, lo: int, hi: int): (r: int)
    ensures lo <= hi ==> lo <= r <= hi
    ensures lo <= v <= hi ==> r == v
    ensures v < lo ==> r == lo
    ensures lo <= hi < v ==> r == hi
  {
    if lo > (if v < hi then v else hi) then lo else if v < hi then v else hi
  }

  /** The elements of s that satisfy keep, in their order in s. */
  function Filter<T(==)>(s: seq<T>, keep: T -> bool): (r: seq<T>)
    ensures |r| <= |s|
    decreases |s|
  {
    if |s| == 0 then []
    else Filter(s[..|s| - 1], keep) + (if keep(s[|s| - 1]) then [s[|s| - 1]] else [])
  }

  /** Filter keeps exactly the elements of s that pass the test. */
  lemma {:induction false} FilterMembers<T>(s: seq<T>, keep: T -> bool)
    ensures forall i :: 0 <= i < |Filter(s, keep)| ==> Filter(s, keep)[i] in s && keep(Filter(s, keep)[i])
    ensures forall i :: 0 <= i < |s| && keep(s[i]) ==> s[i] in Filter(s, keep)
    decreases |s|
  {
    if |s| > 0 {
      var last := |s| - 1;
      FilterMembers(s[..last], keep);
      assert s == s[..last] + [s[last]];
      var r := Filter(s, keep);
      var prev := Filter(s[..last], keep);
      forall i | 0 <= i < |r| ensures r[i] in s && keep(r[i]) {
        if i < |prev| {
          assert r[i] == prev[i];
          assert prev[i] in s[..last];
        }
      }
      forall i | 0 <= i < |s| && keep(s[i]) ensures s[i] in r {
        if i < last {
          assert s[..last][i] == s[i];
          assert s[i] in prev;
        }
      }
    }
  }

  /** Filtering by a test and by its negation splits the sequence: the two lengths add up to its length. */
  lemma {:induction false} FilterPartition<T>(s: seq<T>, keep: T -> bool, drop: T -> bool)
    requires forall x :: drop(x) == !keep(x)
    ensures |Filter(s, keep)| + |Filter(s, drop)| == |s|
    decreases |s|
  {
    if |s| > 0 {
      FilterPartition(s[..|s| - 1], keep, drop);
    }
  }

  /** A filter that keeps everything is the identity. */
  lemma {:induction false} FilterAll<T>(s: seq<T>, keep: T -> bool)
    requires forall i :: 0 <= i < |s| ==> keep(s[i])
    ensures Filter(s, keep) == s
    decreases |s|
  {
    if |s| > 0 {
      assert s == s[..|s| - 1] + [s[|s| - 1]];
      FilterAll(s[..|s| - 1], keep);
    }
  }

  /** A filter is empty exactly when no element passes the test. */
  lemma FilterEmpty<T>(s: seq<T>, keep: T -> bool)
    ensures |Filter(s, keep)| == 0 <==> forall k :: 0 <= k < |s| ==> !keep(s[k])
  {
    FilterMembers(s, keep);
    if |Filter(s, keep)| > 0 {
      assert Filter(s, keep)[0] in s;
    }
  }

  /** f applied to every element of s, in order. */
  function Map<A, B>(s: seq<A>, f: A -> B): (r: seq<B>)
    ensures |r| == |s|
    ensures forall i :: 0 <= i < |s| ==> r[i] == f(s[i])
    decreases |s|
  {
    if |s| == 0 then [] else Map(s[..|s| - 1], f) + [f(s[|s| - 1])]
  }
}
