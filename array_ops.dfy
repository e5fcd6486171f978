/**
 * The two JavaScript array operations the forecast pipeline is built from:
 * `Array.prototype.map` (one result per element, in order) and
 * `Array.prototype.find` (the first element satisfying a predicate, or
 * `undefined`).
 */
module ArrayOps {
  import opened Wrappers

  /** `s.map(f)`: the i-th result is f applied to the i-th element, and to nothing else. */
  function MapSeq<A, B>(s: seq<A>, f: A -> B): (r: seq<B>)
    ensures |r| == |s|
    ensures forall i :: 0 <= i < |s| ==> r[i] == f(s[i])
  {
    if s == [] then [] else [f(s[0])] + MapSeq(s[1..], f)
  }

  /** Mapping keeps order: mapping a concatenation is concatenating the mapped parts. */
  lemma {:induction false} MapSeqConcat<A, B>(s: seq<A>, t: seq<A>, f: A -> B)
    ensures MapSeq(s + t, f) == MapSeq(s, f) + MapSeq(t, f)
  {
    if s == [] {
      assert s + t == t;
    } else {
      assert (s + t)[1..] == s[1..] + t;
      MapSeqConcat(s[1..], t, f);
    }
  }

  /**
   * `s.find(p)`: `None` exactly when no element satisfies p; otherwise the
   * element at the first index that satisfies p.
   */
  function Find<T>(s: seq<T>, p: T -> bool): (r: Option<T>)
    ensures r.None? <==> forall i :: 0 <= i < |s| ==> !p(s[i])
    ensures forall i :: 0 <= i < |s| && p(s[i]) && (forall j :: 0 <= j < i ==> !p(s[j])) ==>
              r == Some(s[i])
  {
    if s == [] then None
    else if p(s[0]) then Some(s[0])
    else Find(s[1..], p)
  }

  /** Whatever `find` returns is an element that satisfies the predicate. */
  lemma FindSound<T>(s: seq<T>, p: T -> bool)
    ensures Find(s, p).Some? ==> exists i :: 0 <= i < |s| && s[i] == Find(s, p).value && p(s[i])
  {
    if Find(s, p).Some? {
      var k :| 0 <= k < |s| && p(s[k]);
      FirstIndexExists(s, p, k);
    }
  }

  /** If some element satisfies p, there is a first one that does. */
  lemma {:induction false} FirstIndexExists<T>(s: seq<T>, p: T -> bool, k: nat)
    requires k < |s| && p(s[k])
    ensures exists i :: 0 <= i <= k && p(s[i]) && forall j :: 0 <= j < i ==> !p(s[j])
  {
    if exists j :: 0 <= j < k && p(s[j]) {
      var j :| 0 <= j < k && p(s[j]);
      FirstIndexExists(s, p, j);
    }
  }
}
