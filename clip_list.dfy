/**
  The in-place edit the session applies to its two parallel lists, `audioList`
  (the clip URLs) and `isPlayingArray` (the per-clip flags): JavaScript's
  `splice(index, 1)` for a non-negative index.
 */
module ClipList {

  /** `s.splice(index, 1)`: removes the element at `index`, or nothing when
      `index` is at or past the end of `s`. */
  function Splice<T>(s: seq<T>, index: nat): (r: seq<T>)
    ensures index < |s| ==> |r| == |s| - 1
    ensures index < |s| ==> r[..index] == s[..index] && r[index..] == s[index + 1..]
    ensures index >= |s| ==> r == s
  {
    if index < |s| then s[..index] + s[index + 1..] else s
  }

  /** Putting the removed element back where it was gives the original list:
      the other elements keep their relative order. */
  lemma SpliceReinsert<T>(s: seq<T>, index: nat)
    requires index < |s|
    ensures Splice(s, index)[..index] + [s[index]] + Splice(s, index)[index..] == s
  {
  }

  /** Exactly one occurrence of the element at `index` is gone, and nothing else. */
  lemma SpliceMultiset<T>(s: seq<T>, index: nat)
    requires index < |s|
    ensures multiset(Splice(s, index)) + multiset{s[index]} == multiset(s)
  {
    assert s == s[..index] + [s[index]] + s[index + 1..];
  }

  /** Splicing out the last element undoes a `push`. */
  lemma SpliceUndoesPush<T>(s: seq<T>, x: T)
    ensures Splice(s + [x], |s|) == s
  {
  }
}
