/** Sequences inside longer sequences: what stands where. */
module Chunks {
  /** `chunk` stands in `s` at position `at`. */
  ghost predicate Holds<T>(s: seq<T>, at: nat, chunk: seq<T>) {
    at + |chunk| <= |s| && s[at..at + |chunk|] == chunk
  }

  lemma HoldsBoth<T>(s: seq<T>, at: nat, a: seq<T>, b: seq<T>)
    requires Holds(s, at, a + b)
    ensures Holds(s, at, a) && Holds(s, at + |a|, b)
  {
    var window := s[at..at + |a + b|];
    assert window[..|a|] == a && window[|a|..] == b;
  }

  lemma HoldsAt<T>(s: seq<T>, at: nat, chunk: seq<T>, i: nat)
    requires Holds(s, at, chunk) && i < |chunk|
    ensures s[at + i] == chunk[i]
  {
    assert s[at..at + |chunk|][i] == chunk[i];
  }

  lemma Reassociate<T>(a: seq<T>, b: seq<T>, c: seq<T>)
    ensures a + (b + c) == (a + b) + c
  {
  }

  lemma SliceOfSlice<T>(s: seq<T>, a: nat, b: nat)
    requires a <= b <= |s|
    ensures s[a..][b - a..] == s[b..]
  {
  }
}
