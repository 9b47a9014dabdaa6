/** Stock facts about sequences, stated once so that proofs need not rediscover them. */
module Seqs {

  lemma Assoc<T>(a: seq<T>, b: seq<T>, c: seq<T>)
    ensures (a + b) + c == a + (b + c)
  {}

  lemma TakeDrop<T>(a: seq<T>, b: seq<T>)
    ensures (a + b)[..|a|] == a
    ensures (a + b)[|a|..] == b
  {}

  lemma Split<T>(s: seq<T>, n: nat)
    requires n <= |s|
    ensures s[..n] + s[n..] == s
  {}

  lemma DropOne<T>(s: seq<T>, n: nat)
    requires n < |s|
    ensures s[n..] == [s[n]] + s[n + 1..]
    ensures s[n..][1..] == s[n + 1..]
  {}

  /** Five pieces, bracketed in each of these ways. */
  lemma FivePieces<T>(a: seq<T>, b: seq<T>, c: seq<T>, d: seq<T>, e: seq<T>)
    ensures a + (b + c + d + e) == a + b + (c + d + e)
    ensures a + (b + c + d + e) == a + b + c + (d + e)
    ensures a + (b + c + d + e) == a + b + c + d + e
  {
    Assoc(a, b, c + d + e);
    Assoc(a + b, c, d + e);
    Assoc(a + b + c, d, e);
    Assoc(b, c, d);
    Assoc(b, c + d, e);
    Assoc(c, d, e);
  }
}
