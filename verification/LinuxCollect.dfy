/** The lists and the collection loop of the Linux kernel as it keeps them: a list
    threaded through the workers, and a user buffer. */
module LinuxCollect {
  import opened Buffers
  import opened Events
  import opened Lists
  import opened LinuxProtocol

  // ------------------------------------------------------- the threaded list

  function AllButLast(list: seq<Tid>): seq<Tid> { if list == [] then [] else list[..|list| - 1] }

  predicate Link(next: map<Tid, Tid>, list: seq<Tid>, i: nat)
    requires i + 1 < |list|
  {
    list[i] in next && next[list[i]] == list[i + 1]
  }

  ghost predicate Linked(next: map<Tid, Tid>, list: seq<Tid>)
  {
    forall i: nat :: i + 1 < |list| ==> Link(next, list, i)
  }

  /** `head` and the links `next` represent `list`: each worker but the last links
      to the one behind it, and no other worker has a link. */
  ghost predicate Threads(head: Option<Tid>, next: map<Tid, Tid>, list: seq<Tid>)
  {
    && NoDup(list)
    && head == (if list == [] then None else Some(list[0]))
    && (forall t :: t in next <==> t in AllButLast(list))
    && Linked(next, list)
  }

  lemma LinkedMeansNext(head: Option<Tid>, next: map<Tid, Tid>, list: seq<Tid>, w: Tid)
    requires Threads(head, next, list)
    ensures w in next <==> HasNext(list, w)
  {
    if w in next {
      var i :| 0 <= i < |AllButLast(list)| && AllButLast(list)[i] == w;
      assert list[i] == w;
    }
    if HasNext(list, w) {
      var i :| 0 <= i < |list| - 1 && list[i] == w;
      assert AllButLast(list)[i] == w;
    }
  }

  lemma ThreadHead(head: Option<Tid>, next: map<Tid, Tid>, list: seq<Tid>)
    requires Threads(head, next, list)
    ensures head.None? <==> list == []
  {
  }

  lemma ThreadPush(head: Option<Tid>, next: map<Tid, Tid>, list: seq<Tid>, w: Tid)
    requires Threads(head, next, list) && w !in list
    ensures Threads(Some(w), if head.Some? then next[w := head.value] else next, [w] + list)
  {
    var after := [w] + list;
    if list != [] {
      assert AllButLast(after) == [w] + AllButLast(list);
      var more := next[w := head.value];
      forall i: nat | i + 1 < |after| ensures Link(more, after, i) {
        if i > 0 { assert Link(next, list, i - 1); }
      }
    }
  }

  lemma HeadOnce(list: seq<Tid>)
    requires NoDup(list) && list != []
    ensures NoDup(list[1..]) && list[0] !in AllButLast(list[1..])
    ensures AllButLast(list) == if |list| == 1 then [] else [list[0]] + AllButLast(list[1..])
  {
    var rest := list[1..];
    forall i | 0 <= i < |AllButLast(rest)| ensures AllButLast(rest)[i] != list[0] {
      assert AllButLast(rest)[i] == list[i + 1];
    }
  }

  lemma PopLinked(next: map<Tid, Tid>, list: seq<Tid>)
    requires NoDup(list) && list != [] && Linked(next, list)
    ensures Linked(next - {list[0]}, list[1..])
  {
    var rest, t := list[1..], list[0];
    var others := next - {t};
    forall i: nat | i + 1 < |rest| ensures Link(others, rest, i) {
      assert Link(next, list, i + 1);
    }
  }

  lemma NextOfHead(next: map<Tid, Tid>, list: seq<Tid>)
    requires list != [] && Linked(next, list) && forall t :: t in next <==> t in AllButLast(list)
    ensures if |list| == 1 then list[0] !in next else list[0] in next && next[list[0]] == list[1]
  {
    assert |list| > 1 ==> Link(next, list, 0);
  }

  lemma ThreadPop(head: Option<Tid>, next: map<Tid, Tid>, list: seq<Tid>)
    requires Threads(head, next, list) && list != []
    ensures Threads(if head.value in next then Some(next[head.value]) else None, next - {head.value}, list[1..])
  {
    hide Linked, NoDup, AllButLast;
    HeadOnce(list);
    NextOfHead(next, list);
    PopLinked(next, list);
    PopKeys(next, list);
  }

  lemma PopKeys(next: map<Tid, Tid>, list: seq<Tid>)
    requires NoDup(list) && list != [] && forall t :: t in next <==> t in AllButLast(list)
    ensures forall x :: x in next - {list[0]} <==> x in AllButLast(list[1..])
  {
    HeadOnce(list);
    var all, some := AllButLast(list), AllButLast(list[1..]);
    if |list| == 1 { assert some == []; }
    hide NoDup, AllButLast;
  }

  predicate IsLast(list: seq<Tid>, t: Tid) { list != [] && list[|list| - 1] == t }

  lemma LastHasNoNext(list: seq<Tid>, t: Tid)
    requires NoDup(list)
    ensures t in list ==> (IsLast(list, t) <==> t !in AllButLast(list))
  {
    if t in list && !IsLast(list, t) {
      var i :| 0 <= i < |list| && list[i] == t;
      assert AllButLast(list)[i] == t;
    }
  }

  /** Pushing the last worker again slips through the check and ties the list into
      a ring: the links no longer represent any list. */
  lemma RingIsNoList(head: Option<Tid>, next: map<Tid, Tid>, list: seq<Tid>, t: Tid, l: seq<Tid>)
    requires Threads(head, next, list) && IsLast(list, t)
    ensures t !in next && !Threads(Some(t), next[t := list[0]], l)
  {
    LastHasNoNext(list, t);
    assert list[|list| - 1] in list;
    var ring := next[t := list[0]];
    RingIsClosed(next, list, t);
    if Threads(Some(t), ring, l) {
      EndOfList(ring, l);
    }
  }

  lemma EndOfList(next: map<Tid, Tid>, list: seq<Tid>)
    requires list != [] && Threads(Some(list[0]), next, list)
    ensures var last := list[|list| - 1];
            && last !in next
            && (|list| > 1 ==> list[|list| - 2] in next && next[list[|list| - 2]] == last)
  {
    var last := list[|list| - 1];
    assert last in list && IsLast(list, last);
    LastHasNoNext(list, last);
    if |list| > 1 { assert Link(next, list, |list| - 2); }
  }

  /** Every link of the ring leads to a worker with a link. */
  lemma RingIsClosed(next: map<Tid, Tid>, list: seq<Tid>, t: Tid)
    requires NoDup(list) && Linked(next, list) && IsLast(list, t) && forall x :: x in next <==> x in AllButLast(list)
    ensures var ring := next[t := list[0]]; forall x :: x in ring ==> ring[x] in ring
  {
    var ring := next[t := list[0]];
    assert forall i :: 0 <= i < |list| - 1 ==> AllButLast(list)[i] == list[i];
    assert forall i :: 0 <= i < |list| ==> list[i] in ring;
    forall x | x in ring ensures ring[x] in ring {
      if x != t {
        var i :| 0 <= i < |AllButLast(list)| && AllButLast(list)[i] == x;
        assert Link(next, list, i);
      }
    }
  }

  // -------------------------------------------------------------- reports

  /** The state once server `t` has left its idle loop and taken its mail. */
  function AfterMail(s: State, t: Tid): State
  {
    var s0 := s.(inLoop := s.inLoop - {t});
    if t in s.mail then Learn(s0.(mail := s.mail - {t}), s.mail[t].worker, [s.mail[t].event]) else s0
  }

  lemma CollectIs(s: State, t: Tid, size: int)
    ensures Apply(s, Collect(t, size))
            == if size <= 0 then Live(s.(inLoop := s.inLoop - {t}))
               else CollectIdle(AfterMail(s, t), if t in s.mail then size - 1 else size)
    ensures t !in s.mail ==> AfterMail(s, t) == s.(inLoop := s.inLoop - {t})
    ensures AfterMail(s, t).status == s.status && AfterMail(s, t).idleWorkers == s.idleWorkers
    ensures AfterMail(s, t).mail == if t in s.mail then s.mail - {t} else s.mail
  {
    hide CollectIdle;
  }

  function Reports(w: Tid, es: seq<Event>): (ms: seq<Mail>)
    ensures |ms| == |es|
  {
    seq(|es|, i requires 0 <= i < |es| => Mail(w, es[i]))
  }

  /** What the collection loop writes for the reader, up to the turn that kills. */
  function Collected(s: State, size: int): seq<Mail>
    decreases |s.idleWorkers|
  {
    if size <= 1 || s.idleWorkers == [] || CollectOne(s).Killed? then []
    else Turn(s) + Collected(CollectOne(s).state, size - |Turn(s)|)
  }

  function Turn(s: State): (ms: seq<Mail>)
    requires s.idleWorkers != [] && CollectOne(s).Live?
    ensures 1 <= |ms| <= 2
  {
    Reports(s.idleWorkers[0], Owed(s.status[s.idleWorkers[0]]))
  }

  lemma {:induction false} CollectedFits(s: State, size: int)
    ensures |Collected(s, size)| <= if size < 0 then 0 else size
    decreases |s.idleWorkers|
  {
    if size > 1 && s.idleWorkers != [] && CollectOne(s).Live? {
      CollectedFits(CollectOne(s).state, size - |Turn(s)|);
    }
  }

  function Words(ids: map<Tid, bv64>, ms: seq<Mail>): (ws: seq<bv64>)
    ensures |ws| == |ms|
  {
    EncodeAll(ToReports(ids, ms))
  }

  function ToReports(ids: map<Tid, bv64>, ms: seq<Mail>): (rs: seq<Report>)
    ensures |rs| == |ms|
  {
    seq(|ms|, i requires 0 <= i < |ms| => Report(if ms[i].worker in ids then ids[ms[i].worker] else 0, ms[i].event))
  }

  lemma WordsAppend(ids: map<Tid, bv64>, a: seq<Mail>, b: seq<Mail>)
    ensures Words(ids, a + b) == Words(ids, a) + Words(ids, b)
  {
  }

  // ---------------------------------------------------------------- the loop

  /** The loop that started in `s` with `size` words is at `now` with `sz`, having
      written `written` into the buffer that held `was`. */
  ghost predicate Midway(ids: map<Tid, bv64>, s: State, size: int, was: seq<bv64>, at: nat, faults: set<nat>,
                         now: State, sz: int, written: seq<Mail>, buf: seq<bv64>)
  {
    && |written| == size - sz && at + |written| <= |was| && Bounded(|was|, at + |written|, sz, faults)
    && Writable(at, at + |written|, faults)
    && CollectIdle(s, size) == CollectIdle(now, sz) && Collected(s, size) == written + Collected(now, sz)
    && buf == Splice(was, at, Words(ids, written))
  }

  lemma MidwayStart(ids: map<Tid, bv64>, s: State, size: int, was: seq<bv64>, at: nat, faults: set<nat>)
    requires Bounded(|was|, at, size, faults)
    ensures Midway(ids, s, size, was, at, faults, s, size, [], was)
  {
    assert [] + Collected(s, size) == Collected(s, size);
    assert Words(ids, []) == [];
  }

  lemma MidwayFits(ids: map<Tid, bv64>, s: State, size: int, was: seq<bv64>, at: nat, faults: set<nat>,
                   now: State, sz: int, written: seq<Mail>, buf: seq<bv64>)
    requires Midway(ids, s, size, was, at, faults, now, sz, written, buf)
    ensures |written| <= if size < 0 then 0 else size
  {
    CollectedFits(s, size);
    hide CollectIdle, Collected, Words, Splice;
  }

  lemma MidwayFacts(ids: map<Tid, bv64>, s: State, size: int, was: seq<bv64>, at: nat, faults: set<nat>,
                    now: State, sz: int, written: seq<Mail>, buf: seq<bv64>)
    requires Midway(ids, s, size, was, at, faults, now, sz, written, buf) && sz > 1
    ensures Bounded(|buf|, at + |written|, 2, faults)
  {
    hide CollectIdle, Collected, Words, Splice;
  }

  lemma MidwayOpen(ids: map<Tid, bv64>, s: State, size: int, was: seq<bv64>, at: nat, faults: set<nat>,
                   now: State, sz: int, written: seq<Mail>, buf: seq<bv64>)
    requires Midway(ids, s, size, was, at, faults, now, sz, written, buf)
    ensures |written| == size - sz && at + |written| <= |was| && Bounded(|was|, at + |written|, sz, faults)
    ensures Writable(at, at + |written|, faults) && buf == Splice(was, at, Words(ids, written))
  {
    hide CollectIdle, Collected, Words, Splice;
  }

  lemma Unfold(s: State, size: int)
    requires size > 1 && s.idleWorkers != [] && CollectOne(s).Live?
    ensures CollectIdle(s, size) == CollectIdle(CollectOne(s).state, size - |Turn(s)|)
    ensures Collected(s, size) == Turn(s) + Collected(CollectOne(s).state, size - |Turn(s)|)
  {
  }

  lemma MidwayTurn(ids: map<Tid, bv64>, s: State, size: int, was: seq<bv64>, at: nat, faults: set<nat>,
                   now: State, sz: int, written: seq<Mail>, buf: seq<bv64>)
    requires Midway(ids, s, size, was, at, faults, now, sz, written, buf)
    requires sz > 1 && now.idleWorkers != [] && CollectOne(now).Live?
    requires Writable(at + |written|, at + |written| + |Turn(now)|, faults)
    ensures at + |written| + |Turn(now)| <= |buf|
    ensures Midway(ids, s, size, was, at, faults, CollectOne(now).state, sz - |Turn(now)|, written + Turn(now),
                   Splice(buf, at + |written|, Words(ids, Turn(now))))
  {
    hide CollectIdle, Collected, CollectOne, Turn, Words;
    var k := |Turn(now)|;
    Unfold(now, sz);
    WordsAppend(ids, written, Turn(now));
    assert at + |written| + k - 1 !in faults;
    SpliceTwice(was, at, Words(ids, written), Words(ids, Turn(now)));
    hide Splice;
    var rest := Collected(CollectOne(now).state, sz - k);
    assert written + (Turn(now) + rest) == (written + Turn(now)) + rest;
  }

  /** A word that cannot be written is one that the loop has to write. */
  lemma MidwayFault(ids: map<Tid, bv64>, s: State, size: int, was: seq<bv64>, at: nat, faults: set<nat>,
                    now: State, sz: int, written: seq<Mail>, buf: seq<bv64>)
    requires Midway(ids, s, size, was, at, faults, now, sz, written, buf)
    requires sz > 1 && now.idleWorkers != [] && CollectOne(now).Live?
    requires !Writable(at + |written|, at + |written| + |Turn(now)|, faults)
    ensures !Writable(at, at + |Collected(s, size)|, faults)
  {
    hide CollectIdle, Collected, CollectOne, Turn, Words, Splice;
    Unfold(now, sz);
    var i :| at + |written| <= i < at + |written| + |Turn(now)| && i in faults;
    assert i < at + |Collected(s, size)|;
  }

  lemma MidwayKill(ids: map<Tid, bv64>, s: State, size: int, was: seq<bv64>, at: nat, faults: set<nat>,
                   now: State, sz: int, written: seq<Mail>, buf: seq<bv64>)
    requires Midway(ids, s, size, was, at, faults, now, sz, written, buf)
    requires sz > 1 && now.idleWorkers != [] && CollectOne(now).Killed?
    ensures CollectIdle(s, size).Killed?
  {
    hide Collected, Words, Splice, Bounded, Writable;
  }

  lemma MidwayEnd(ids: map<Tid, bv64>, s: State, size: int, was: seq<bv64>, at: nat, faults: set<nat>,
                  now: State, sz: int, written: seq<Mail>, buf: seq<bv64>)
    requires Midway(ids, s, size, was, at, faults, now, sz, written, buf) && (sz <= 1 || now.idleWorkers == [])
    ensures CollectIdle(s, size) == Live(now) && Collected(s, size) == written
  {
    assert Collected(now, sz) == [];
    hide Words, Splice, Bounded, Writable;
    assert written + [] == written;
  }

  /** The whole collection from word `at`: it kills if the protocol does or if a
      word it has to write faults; otherwise the buffer holds the reports and, if
      there is room, a zero. */
  ghost predicate Gathered(ids: map<Tid, bv64>, s: State, size: int, was: seq<bv64>, at: nat, faults: set<nat>,
                           killed: bool, now: State, buf: seq<bv64>)
  {
    var ms := Collected(s, size);
    var zero := if |ms| < size then [0] else [];
    && (CollectIdle(s, size).Killed? ==> killed)
    && (CollectIdle(s, size).Live? ==> (killed <==> !Writable(at, at + |ms| + |zero|, faults)))
    && (!killed ==> CollectIdle(s, size) == Live(now) && at + |ms| + |zero| <= |was|
                    && buf == Splice(was, at, Words(ids, ms) + zero))
  }

  lemma WritableSnoc(at: nat, upTo: nat, faults: set<nat>)
    requires at <= upTo
    ensures Writable(at, upTo + 1, faults) <==> Writable(at, upTo, faults) && upTo !in faults
  {
  }

  /** The same for the loop alone, which wrote `n` reports. */
  ghost predicate Looped(ids: map<Tid, bv64>, s: State, size: int, was: seq<bv64>, at: nat, faults: set<nat>,
                         killed: bool, now: State, n: nat, buf: seq<bv64>)
  {
    var ms := Collected(s, size);
    && (CollectIdle(s, size).Killed? ==> killed)
    && (CollectIdle(s, size).Live? ==> (killed <==> !Writable(at, at + |ms|, faults)))
    && (!killed ==> CollectIdle(s, size) == Live(now) && n == |ms| && at + n <= |was|
                    && Bounded(|was|, at + n, size - n, faults) && buf == Splice(was, at, Words(ids, ms)))
  }

  lemma LoopedLive(ids: map<Tid, bv64>, s: State, size: int, was: seq<bv64>, at: nat, faults: set<nat>,
                   now: State, n: nat, buf: seq<bv64>)
    requires Looped(ids, s, size, was, at, faults, false, now, n, buf)
    ensures CollectIdle(s, size) == Live(now) && n == |Collected(s, size)|
  {
    hide CollectIdle, Collected, Words, Splice;
  }

  lemma GatherKilled(ids: map<Tid, bv64>, s: State, size: int, was: seq<bv64>, at: nat, faults: set<nat>,
                     now: State, n: nat, buf: seq<bv64>)
    requires Looped(ids, s, size, was, at, faults, true, now, n, buf)
    ensures Gathered(ids, s, size, was, at, faults, true, now, buf)
  {
    hide CollectIdle, Collected, Words, Splice;
    WritableSnoc(at, at + |Collected(s, size)|, faults);
  }

  lemma GatherFull(ids: map<Tid, bv64>, s: State, size: int, was: seq<bv64>, at: nat, faults: set<nat>,
                   now: State, n: nat, buf: seq<bv64>)
    requires Looped(ids, s, size, was, at, faults, false, now, n, buf) && n >= size
    ensures Gathered(ids, s, size, was, at, faults, false, now, buf)
  {
    hide CollectIdle, Collected, Words, Splice;
    var ws := Words(ids, Collected(s, size));
    assert ws + [] == ws;
  }

  lemma GatherZero(ids: map<Tid, bv64>, s: State, size: int, was: seq<bv64>, at: nat, faults: set<nat>,
                   now: State, n: nat, buf: seq<bv64>)
    requires Looped(ids, s, size, was, at, faults, false, now, n, buf) && n < size
    ensures at + n in faults ==> forall b :: Gathered(ids, s, size, was, at, faults, true, now, b)
    ensures at + n !in faults ==>
              at + n < |buf| && Gathered(ids, s, size, was, at, faults, false, now, buf[at + n := 0])
  {
    hide CollectIdle, Collected, Words, Splice;
    WritableSnoc(at, at + n, faults);
    if at + n !in faults {
      SpliceTwice(was, at, Words(ids, Collected(s, size)), [0]);
      SpliceOne(buf, at + n, 0);
    }
  }

  // -------------------------------------------------------------- decoding

  ghost predicate AlignedIds(ids: map<Tid, bv64>) { forall t :: t in ids ==> ValidId(ids[t]) }

  /** What the reader of a collection decodes: what stood in front, the server's
      own mail or nothing, and then the reports in order. */
  lemma ReaderDecodes(ids: map<Tid, bv64>, s: State, front: seq<Report>, was: seq<bv64>, faults: set<nat>,
                      now: State, buf: seq<bv64>)
    requires AlignedIds(ids) && forall i :: 0 <= i < |front| ==> ValidId(front[i].id)
    requires |front| <= |was| && was[..|front|] == EncodeAll(front)
    requires Gathered(ids, s, |was| - |front|, was, |front|, faults, false, now, buf)
    ensures Decode(buf) == front + ToReports(ids, Collected(s, |was| - |front|))
  {
    hide Collected, CollectIdle, Decode, ValidId;
    var ms := Collected(s, |was| - |front|);
    BufferHolds(ids, front, ms, was);
    AlignedReports(ids, front, ms);
    DecodeRoundTrip(front + ToReports(ids, ms), buf);
  }

  lemma AlignedReports(ids: map<Tid, bv64>, front: seq<Report>, ms: seq<Mail>)
    requires AlignedIds(ids) && forall i :: 0 <= i < |front| ==> ValidId(front[i].id)
    ensures var all := front + ToReports(ids, ms); forall i :: 0 <= i < |all| ==> ValidId(all[i].id)
  {
    var rs := ToReports(ids, ms);
    forall i | 0 <= i < |front + rs| ensures ValidId((front + rs)[i].id) {
      if i >= |front| { assert (front + rs)[i] == rs[i - |front|]; }
    }
  }

  lemma BufferHolds(ids: map<Tid, bv64>, front: seq<Report>, ms: seq<Mail>, was: seq<bv64>)
    requires |front| + |ms| <= |was| && was[..|front|] == EncodeAll(front)
    ensures var all := front + ToReports(ids, ms);
            var buf := Splice(was, |front|, Words(ids, ms) + if |front| + |ms| < |was| then [0] else []);
            buf[..|all|] == EncodeAll(all) && (|all| < |was| ==> buf[|all|] == 0)
  {
    var rs := ToReports(ids, ms);
    assert EncodeAll(front + rs) == EncodeAll(front) + EncodeAll(rs);
    var buf := Splice(was, |front|, Words(ids, ms) + if |front| + |ms| < |was| then [0] else []);
    assert buf[..|front| + |ms|] == was[..|front|] + Words(ids, ms);
  }
}
