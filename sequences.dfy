/** Small facts about sequences shared by the option, builder and traversal models. */
module Sequences {
  /** The set of elements of `s`. */
  function Elems<T>(s: seq<T>): set<T> {
    set x | x in s
  }

  /** Extending a prefix by one element. */
  lemma PrefixSnoc<T>(s: seq<T>, i: nat)
    requires i < |s|
    ensures s[..i + 1] == s[..i] + [s[i]]
    ensures s[..i + 1][..i] == s[..i] && s[..i + 1][i] == s[i]
  {
  }

  lemma ElemsSnoc<T>(r: seq<T>, p: T)
    ensures Elems(r + [p]) == Elems(r) + {p}
  {
  }

  lemma ElemsEmpty<T>(r: seq<T>)
    ensures Elems(r) == {} ==> r == []
  {
    if r != [] {
      assert r[0] in Elems(r);
    }
  }
}
