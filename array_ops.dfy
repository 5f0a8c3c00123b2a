/**
 * The two JavaScript array methods the product data layer is built from,
 * `Array.prototype.find` and `Array.prototype.filter`, over sequences, with
 * the facts about them that the rest of the model relies on.
 */
module ArrayOps {

  import opened Wrappers

  /** `s.find(matches)`: the first element satisfying `matches`, or `undefined`. */
  function Find<T>(s: seq<T>, matches: T -> bool): (r: Option<T>)
    ensures r.None? <==> forall i :: 0 <= i < |s| ==> !matches(s[i])
    ensures r.Some? ==> exists k :: 0 <= k < |s| && s[k] == r.value && IsFirstMatch(s, matches, k)
  {
    if s == [] then None
    else if matches(s[0]) then Some(s[0])
    else
      var r := Find(s[1..], matches);
      assert r.Some? ==> exists k :: 0 <= k < |s[1..]| && s[1..][k] == r.value && IsFirstMatch(s[1..], matches, k);
      assert forall k :: 0 <= k < |s[1..]| && IsFirstMatch(s[1..], matches, k) ==> IsFirstMatch(s, matches, k + 1);
      r
  }

  /** Position `k` holds a match and no earlier position does. */
  ghost predicate IsFirstMatch<T>(s: seq<T>, matches: T -> bool, k: int)
  {
    0 <= k < |s| && matches(s[k]) && forall j :: 0 <= j < k ==> !matches(s[j])
  }

  /** `s.filter(keep)`: the elements satisfying `keep`, in their original order. */
  function Filter<T(!new)>(s: seq<T>, keep: T -> bool): (r: seq<T>)
    ensures |r| <= |s|
    ensures forall x :: multiset(r)[x] == if keep(x) then multiset(s)[x] else 0
    ensures forall i :: 0 <= i < |r| ==> r[i] in s && keep(r[i])
    ensures forall i :: 0 <= i < |s| && keep(s[i]) ==> s[i] in r
  {
    if s == [] then []
    else
      assert s == [s[0]] + s[1..];
      if keep(s[0]) then [s[0]] + Filter(s[1..], keep) else Filter(s[1..], keep)
  }

  /** `a` is `b` with some elements dropped and the rest kept in order. */
  ghost predicate IsSubsequence<T>(a: seq<T>, b: seq<T>)
    decreases |b|
  {
    a == [] ||
    (b != [] &&
     ((a[0] == b[0] && IsSubsequence(a[1..], b[1..])) || IsSubsequence(a, b[1..])))
  }

  lemma {:induction false} FilterIsSubsequence<T(!new)>(s: seq<T>, keep: T -> bool)
    ensures IsSubsequence(Filter(s, keep), s)
  {
    if s != [] {
      FilterIsSubsequence(s[1..], keep);
      if keep(s[0]) {
        assert Filter(s, keep) == [s[0]] + Filter(s[1..], keep);
        assert Filter(s, keep)[1..] == Filter(s[1..], keep);
      }
    }
  }

  lemma {:induction false} FilterKeepsAll<T(!new)>(s: seq<T>, keep: T -> bool)
    requires forall i :: 0 <= i < |s| ==> keep(s[i])
    ensures Filter(s, keep) == s
  {
    if s != [] {
      FilterKeepsAll(s[1..], keep);
      assert [s[0]] + s[1..] == s;
    }
  }

  lemma {:induction false} FilterIdempotent<T(!new)>(s: seq<T>, keep: T -> bool)
    ensures Filter(Filter(s, keep), keep) == Filter(s, keep)
  {
    var r := Filter(s, keep);
    forall i | 0 <= i < |r| ensures keep(r[i]) {
      assert r[i] in r;
    }
    FilterKeepsAll(r, keep);
  }
}
