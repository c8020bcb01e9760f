/** Order and uniqueness facts about sequences, shared by the stores that filter lists. */
module Sequences {

  /** A value that may be missing, as `undefined` in a lookup. */
  datatype Option<T> = None | Some(value: T)

  /** `idx` lists, in increasing order, positions of `s` whose elements spell out `r`. */
  ghost predicate Embeds<T>(idx: seq<int>, r: seq<T>, s: seq<T>)
  {
    && |idx| == |r|
    && (forall k | 0 <= k < |idx| :: 0 <= idx[k] < |s| && r[k] == s[idx[k]])
    && (forall k, l | 0 <= k < l < |idx| :: idx[k] < idx[l])
  }

  /** `r` is `s` with some elements dropped and the rest kept in their order. */
  ghost predicate IsSubsequence<T>(r: seq<T>, s: seq<T>)
  {
    exists idx: seq<int> :: Embeds(idx, r, s)
  }

  /** No element occurs twice. */
  predicate Distinct<T(==)>(s: seq<T>)
  {
    forall i, j | 0 <= i < j < |s| :: s[i] != s[j]
  }

  lemma EmptyIsSubsequence<T>(s: seq<T>)
    ensures IsSubsequence([], s)
  {
    assert Embeds([], [], s);
  }

  /** Appending one element to the whole sequence keeps every subsequence, with or without that element. */
  lemma SubsequenceSnoc<T>(r: seq<T>, s: seq<T>, x: T)
    requires IsSubsequence(r, s)
    ensures IsSubsequence(r, s + [x])
    ensures IsSubsequence(r + [x], s + [x])
  {
    var idx :| Embeds(idx, r, s);
    assert Embeds(idx, r, s + [x]);
    assert Embeds(idx + [|s|], r + [x], s + [x]);
  }

  /** The step of an order-preserving filter: the last element is either kept or dropped. */
  lemma SubsequenceSnocIf<T>(r: seq<T>, s: seq<T>, x: T, keep: bool)
    requires IsSubsequence(r, s)
    ensures IsSubsequence(r + (if keep then [x] else []), s + [x])
  {
    SubsequenceSnoc(r, s, x);
    if !keep {
      assert r + [] == r;
    }
  }

  /** A sequence with no members is empty. */
  lemma NoMemberMeansEmpty<T>(r: seq<T>)
    ensures (forall x :: x !in r) ==> r == []
  {
    assert r == [] || r[0] in r;
  }

  /** Dropping position `k` before or after appending the last element comes to the same. */
  lemma DropBeforeLast<T>(s: seq<T>, k: int)
    requires 0 <= k < |s| - 1
    ensures s[..|s| - 1][..k] + s[..|s| - 1][k + 1..] + [s[|s| - 1]] == s[..k] + s[k + 1..]
  {
    var n := |s| - 1;
    assert s[..n][..k] == s[..k];
    assert s[..n][k + 1..] + [s[n]] == s[k + 1..];
  }
}
