/** Three facts about taking a prefix of a sequence, used by the loops that copy one vector into another. */
module Sequences {

  lemma TakeNext<T>(s: seq<T>, i: nat)
    requires i < |s|
    ensures s[..i + 1] == s[..i] + [s[i]]
  {
  }

  lemma AppendTakeNext<T>(a: seq<T>, s: seq<T>, i: nat)
    requires i < |s|
    ensures a + s[..i + 1] == (a + s[..i]) + [s[i]]
  {
    TakeNext(s, i);
  }

  lemma TakeAll<T>(s: seq<T>)
    ensures s[..|s|] == s
  {
  }
}
