/**
 * Equalities between prefixes of sequences. Proved once, generically, so
 * that the loops and inductions over dates, tables and shards can use them
 * without re-deriving sequence equality among their own strings.
 */
module Seqs {

  /** A prefix of a prefix is the shorter prefix. */
  lemma PrefixOfPrefix<T>(s: seq<T>, i: nat, j: nat)
    requires i <= j <= |s|
    ensures s[..j][..i] == s[..i]
  {
  }

  /** The first part of a concatenation is a prefix of it. */
  lemma PrefixOfAppend<T>(a: seq<T>, b: seq<T>)
    ensures (a + b)[..|a|] == a
  {
  }

  /** The prefix as long as the sequence is the sequence. */
  lemma WholePrefix<T>(s: seq<T>)
    ensures s[..|s|] == s
  {
  }

  /** One more element extends a prefix by that element. */
  lemma PrefixStep<T>(s: seq<T>, i: nat)
    requires i < |s|
    ensures s[..i + 1] == s[..i] + [s[i]]
  {
  }
}
