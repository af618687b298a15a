/**
 * The JavaScript array methods the application relies on (`map`, `filter`,
 * `find`), as functions over sequences with contracts that say what they compute.
 */
module JsArray {
  import opened Wrappers

  /** `Array.prototype.map`: `f` applied to every element, in order. */
  function Map<T, U>(s: seq<T>, f: T -> U): (r: seq<U>)
    ensures |r| == |s|
    ensures forall i :: 0 <= i < |s| ==> r[i] == f(s[i])
  {
    if s == [] then [] else [f(s[0])] + Map(s[1..], f)
  }

  /**
   * `Array.prototype.filter`: the elements satisfying `p`. Defined on the last
   * element so that the result is built in the order the source visits `s`.
   */
  function Filter<T>(s: seq<T>, p: T -> bool): (r: seq<T>)
    ensures |r| <= |s|
    ensures forall k :: 0 <= k < |r| ==> r[k] in s && p(r[k])
    ensures forall i :: 0 <= i < |s| && p(s[i]) ==> s[i] in r
  {
    if s == [] then []
    else
      var n := |s| - 1;
      assert s == s[..n] + [s[n]];
      var init := Filter(s[..n], p);
      if p(s[n]) then init + [s[n]] else init
  }

  /** The positions of `s` whose element satisfies `p`, in increasing order. */
  function KeptIndices<T>(s: seq<T>, p: T -> bool): (ix: seq<nat>)
    ensures forall k :: 0 <= k < |ix| ==> ix[k] < |s|
    ensures forall k, l :: 0 <= k < l < |ix| ==> ix[k] < ix[l]
    ensures forall i :: 0 <= i < |s| ==> (p(s[i]) <==> i in ix)
  {
    if s == [] then []
    else
      var n := |s| - 1;
      var init := KeptIndices(s[..n], p);
      assert forall i :: 0 <= i < n ==> s[..n][i] == s[i];
      if p(s[n]) then init + [n] else init
  }

  /**
   * `filter` keeps order: its result is exactly the subsequence of `s` at the
   * positions KeptIndices lists, so its k-th element is the k-th element of `s`
   * that satisfies `p`.
   */
  lemma {:induction false} FilterKeepsOrder<T>(s: seq<T>, p: T -> bool)
    ensures |KeptIndices(s, p)| == |Filter(s, p)|
    ensures forall k :: 0 <= k < |KeptIndices(s, p)| ==> Filter(s, p)[k] == s[KeptIndices(s, p)[k]]
  {
    if s != [] {
      var n := |s| - 1;
      var t := s[..n];
      FilterKeepsOrder(t, p);
      var ix, r := KeptIndices(t, p), Filter(t, p);
      var ix', r' := KeptIndices(s, p), Filter(s, p);
      if p(s[n]) {
        assert ix' == ix + [n] && r' == r + [s[n]];
        forall k | 0 <= k < |ix'| ensures r'[k] == s[ix'[k]] {
          if k < |ix| { assert t[ix[k]] == s[ix[k]]; }
        }
      } else {
        assert ix' == ix && r' == r;
        forall k | 0 <= k < |ix'| ensures r'[k] == s[ix'[k]] {
          assert t[ix[k]] == s[ix[k]];
        }
      }
    }
  }

  /** Two predicates that agree on every element of `s` filter it alike. */
  lemma {:induction false} FilterAgrees<T>(s: seq<T>, p: T -> bool, q: T -> bool)
    requires forall i :: 0 <= i < |s| ==> p(s[i]) == q(s[i])
    ensures Filter(s, p) == Filter(s, q)
  {
    if s != [] {
      var n := |s| - 1;
      FilterAgrees(s[..n], p, q);
    }
  }

  /** `Array.prototype.findIndex`: the first position whose element satisfies `p`. */
  function FindIndex<T>(s: seq<T>, p: T -> bool): (r: Option<nat>)
    ensures r.Some? ==> r.value < |s| && p(s[r.value])
    ensures r.Some? ==> forall j :: 0 <= j < r.value ==> !p(s[j])
    ensures r.None? ==> forall j :: 0 <= j < |s| ==> !p(s[j])
  {
    if s == [] then None
    else if p(s[0]) then Some(0)
    else match FindIndex(s[1..], p)
      case None => None
      case Some(k) => Some(k + 1)
  }

  /** `Array.prototype.find`: the first element satisfying `p`, if there is one. */
  function Find<T>(s: seq<T>, p: T -> bool): (r: Option<T>)
    ensures r.None? <==> forall j :: 0 <= j < |s| ==> !p(s[j])
    ensures r.Some? ==> exists k :: 0 <= k < |s| && s[k] == r.value && p(s[k]) &&
                                   forall j :: 0 <= j < k ==> !p(s[j])
  {
    match FindIndex(s, p)
    case None => None
    case Some(k) => Some(s[k])
  }

  /** The first index is determined by its two defining properties. */
  lemma FindIndexIs<T>(s: seq<T>, p: T -> bool, k: nat)
    requires k < |s| && p(s[k])
    requires forall j :: 0 <= j < k ==> !p(s[j])
    ensures FindIndex(s, p) == Some(k)
  {
  }

  /** Mapping with a function that never changes `p` leaves the first match where it was. */
  lemma FindIndexMap<T, U>(s: seq<T>, f: T -> U, p: T -> bool, q: U -> bool)
    requires forall i :: 0 <= i < |s| ==> q(f(s[i])) == p(s[i])
    ensures FindIndex(Map(s, f), q) == FindIndex(s, p)
  {
    var r := FindIndex(s, p);
    if r.Some? {
      FindIndexIs(Map(s, f), q, r.value);
    }
  }
}
