/** Shared vocabulary. */
module Prelude {
  datatype Option<+T> = None | Some(value: T)

  ghost predicate Distinct(s: seq<string>) {
    forall i, j :: 0 <= i < j < |s| ==> s[i] != s[j]
  }

  /** The prefixes of a sequence with one more element. */
  lemma Prefixes<T>(s: seq<T>, x: T)
    ensures (s + [x])[..|s + [x]| - 1] == s && (s + [x])[|s|] == x
    ensures forall i :: 0 <= i <= |s| ==> (s + [x])[..i] == s[..i]
    ensures (s + [x])[..|s| + 1] == s + [x] && s[..|s|] == s
  {
  }
}
