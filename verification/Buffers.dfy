/** A user buffer of 64-bit words, some of which cannot be written. */
module Buffers {

  ghost predicate Writable(at: nat, upTo: int, faults: set<nat>)
  {
    forall i :: at <= i < upTo ==> i !in faults
  }

  /** `was` with `words` written over it from position `at`. */
  function Splice(was: seq<bv64>, at: nat, words: seq<bv64>): (r: seq<bv64>)
    requires at + |words| <= |was|
    ensures |r| == |was|
  {
    was[..at] + words + was[at + |words|..]
  }

  lemma SpliceTwice(was: seq<bv64>, at: nat, a: seq<bv64>, b: seq<bv64>)
    requires at + |a| + |b| <= |was|
    ensures Splice(Splice(was, at, a), at + |a|, b) == Splice(was, at, a + b)
  {
  }

  lemma SpliceOne(was: seq<bv64>, at: nat, x: bv64)
    requires at < |was|
    ensures Splice(was, at, [x]) == was[at := x]
  {
  }

  /** Memory past the end of the caller's array cannot be written. */
  ghost predicate Bounded(length: nat, at: nat, size: int, faults: set<nat>)
  {
    at <= length && forall i :: length <= i < at + size ==> i in faults
  }

  lemma BoundedStart(length: nat, at: nat, size: int, faults: set<nat>)
    requires Bounded(length, at, size, faults) && size > 1
    ensures Bounded(length, at, 2, faults)
  {
  }

  /** set_user_value and put_user: a store to user memory that may fault. */
  method PutUser(events: array<bv64>, i: nat, faults: set<nat>, word: bv64) returns (ok: bool)
    requires i !in faults ==> i < events.Length
    modifies events
    ensures ok <==> i !in faults
    ensures events[..] == if ok then old(events[..])[i := word] else old(events[..])
  {
    ok := i !in faults;
    if ok { events[i] := word; }
  }
}
