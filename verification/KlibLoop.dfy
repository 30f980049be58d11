/** The collection loop as a loop: how far it has come, and what the buffer holds. */
module KlibLoop {
  import opened Buffers
  import opened Events
  import opened KlibProtocol
  import opened KlibSafety
  import opened KlibRuns
  import opened KlibBuffer

  const EFAULT := 14

  /** What a collection that wrote `w` starting from list `idle` returns. */
  function CountOf(w: Written, idle: seq<Tid>): int
  {
    if w.stop != Done && w.state.idle == idle then -EFAULT else |w.reports|
  }

  // ------------------------------------------------------------- the buffer

  function Words(ws: Workers, ms: seq<Msg>): (r: seq<bv64>)
    ensures |r| == |ms|
  {
    EncodeAll(ToReports(ws, ms))
  }

  lemma WordsAppend(ws: Workers, a: seq<Msg>, b: seq<Msg>)
    ensures Words(ws, a + b) == Words(ws, a) + Words(ws, b)
  {
  }

  lemma SpliceNone(was: seq<bv64>, at: nat, ws: Workers)
    requires at <= |was|
    ensures Splice(was, at, Words(ws, [])) == was
  {
  }

  /** The buffer after a collection that wrote `ms` with room for `size` words:
      the reports, then a zero if there is room and it can be written. */
  function Buffer(was: seq<bv64>, at: nat, ms: seq<Msg>, ws: Workers, size: int, faults: set<nat>): (r: seq<bv64>)
    requires at + |ms| <= |was| && (|ms| < size && at + |ms| !in faults ==> at + |ms| < |was|)
    ensures |r| == |was|
  {
    Splice(was, at, Words(ws, ms) + if |ms| < size && at + |ms| !in faults then [0] else [])
  }

  // --------------------------------------------------------------- one turn

  predicate HasFirst(s: State) { s.idle != [] && s.idle[0] in s.workers }

  /** The first `n` of the words that worker `w` is owed. */
  function OwedWords(w: Worker, n: nat): (r: seq<bv64>)
    requires n <= |Owed(w)|
    ensures |r| == n
  {
    seq(n, k requires 0 <= k < n => Encode(w.id, Owed(w)[k]))
  }

  /** The reports of the first worker of the list, up to `k`. */
  function FirstReports(s: State, k: nat): (ms: seq<Msg>)
    requires HasFirst(s) && k <= |Turn(s)|
    ensures |ms| == k
  {
    Reports(s.idle[0], Turn(s)[..k])
  }

  ghost predicate SameIds(ids: Workers, ws: Workers)
  {
    forall t :: t in ws ==> t in ids && ws[t].id == ids[t].id
  }

  lemma FirstWords(ids: Workers, s: State, k: nat)
    requires HasFirst(s) && k <= |Turn(s)| && SameIds(ids, s.workers)
    ensures Words(ids, FirstReports(s, k)) == OwedWords(s.workers[s.idle[0]], k)
  {
    assert s.idle[0] in ids;
  }

  /** Of what the first worker is owed, exactly `k` words can be written at `at`. */
  ghost predicate Writes(s: State, at: nat, faults: set<nat>, k: nat)
    requires HasFirst(s)
  {
    k <= |Turn(s)| && (forall j :: at <= j < at + k ==> j !in faults) && (k < |Turn(s)| ==> at + k in faults)
  }

  lemma BoundedNext(s: State, length: nat, at: nat, size: int, faults: set<nat>, k: nat)
    requires HasFirst(s) && Writes(s, at, faults, k) && Bounded(length, at, size, faults) && size > 1
    ensures at + k <= length && Bounded(length, at + k, size - k, faults) && k <= 2
  {
    if k > 0 { assert at + k - 1 !in faults; }
  }

  lemma FullTurn(s: State, size: int, at: nat, faults: set<nat>)
    requires size > 1 && HasFirst(s) && Writes(s, at, faults, |Turn(s)|)
    ensures Extends(CollectInto(s, size, at, faults), Later(s, size, at, faults), FirstReports(s, |Turn(s)|))
  {
    assert Turn(s)[..|Turn(s)|] == Turn(s);
    Continues(s, size, at, faults);
  }

  lemma FaultyTurn(s: State, size: int, at: nat, faults: set<nat>, k: nat)
    requires size > 1 && HasFirst(s) && Writes(s, at, faults, k) && k < |Turn(s)|
    ensures var w := CollectInto(s, size, at, faults);
            w.state == s && w.stop != Done && w.reports == FirstReports(s, k)
  {
    Stops(s, size, at, faults);
  }

  lemma TakeOneFrame(ids: Workers, s: State)
    requires HasFirst(s) && Listed(s) && SameIds(ids, s.workers)
    ensures var r := TakeOne(s);
            Listed(r) && r.slots == s.slots && r.history == s.history && |r.idle| < |s.idle| && SameIds(ids, r.workers)
  {
    assert forall t :: t in TakeOne(s).idle ==> t in s.idle;
  }

  // ------------------------------------------------------------ many turns

  /** The loop that started in `s` with `size` words is now at `now` with `sz`,
      having written the reports `written`. */
  ghost predicate Ahead(s: State, size: int, now: State, sz: int, at: nat, faults: set<nat>, written: seq<Msg>)
  {
    && |written| == size - sz && Framed(s, now)
    && (if written == [] then now.idle == s.idle else |now.idle| < |s.idle|)
    && Extends(CollectInto(s, size, at, faults), CollectInto(now, sz, at + |written|, faults), written)
  }

  ghost predicate Framed(s: State, now: State)
  {
    Listed(now) && now.slots == s.slots && now.history == s.history && SameIds(s.workers, now.workers)
  }

  predicate Extends(all: Written, w: Written, written: seq<Msg>) { all == w.(reports := written + w.reports) }

  lemma ExtendsChain(all: Written, mid: Written, w: Written, a: seq<Msg>, b: seq<Msg>)
    requires Extends(all, mid, a) && Extends(mid, w, b)
    ensures Extends(all, w, a + b)
  {
    assert a + (b + w.reports) == (a + b) + w.reports;
  }

  lemma AheadStart(s: State, size: int, at: nat, faults: set<nat>)
    requires Listed(s)
    ensures Ahead(s, size, s, size, at, faults, [])
  {
    hide CollectInto, Listed;
    var w := CollectInto(s, size, at, faults);
    assert [] + w.reports == w.reports;
  }

  lemma AheadTurn(s: State, size: int, now: State, sz: int, at: nat, faults: set<nat>, written: seq<Msg>)
    requires Ahead(s, size, now, sz, at, faults, written) && sz > 1 && HasFirst(now)
    requires Writes(now, at + |written|, faults, |Turn(now)|)
    ensures Ahead(s, size, TakeOne(now), sz - |Turn(now)|, at, faults, written + FirstReports(now, |Turn(now)|))
  {
    hide CollectInto, FirstReports, Listed, SameIds, Writes, TakeOne, Turn, Extends;
    var i := at + |written|;
    TakeOneFrame(s.workers, now);
    FullTurn(now, sz, i, faults);
    ExtendsChain(CollectInto(s, size, at, faults), CollectInto(now, sz, i, faults), Later(now, sz, i, faults),
                 written, FirstReports(now, |Turn(now)|));
  }

  lemma AheadFault(s: State, size: int, now: State, sz: int, at: nat, faults: set<nat>, written: seq<Msg>, k: nat)
    requires Ahead(s, size, now, sz, at, faults, written) && sz > 1 && HasFirst(now)
    requires Writes(now, at + |written|, faults, k) && k < |Turn(now)|
    ensures var all := CollectInto(s, size, at, faults);
            && all.state == now && all.reports == written + FirstReports(now, k)
            && CountOf(all, s.idle) == if written == [] then -EFAULT else |written| + k
  {
    FaultyTurn(now, sz, at + |written|, faults, k);
    hide CollectInto, FirstReports, Listed, SameIds, Writes, Turn;
  }

  lemma AheadFacts(s: State, size: int, now: State, sz: int, at: nat, faults: set<nat>, written: seq<Msg>)
    requires Ahead(s, size, now, sz, at, faults, written)
    ensures SameIds(s.workers, now.workers) && (now.idle != [] ==> HasFirst(now))
  {
    assert now.idle != [] ==> now.idle[0] in now.idle;
  }

  lemma AheadEnd(s: State, size: int, now: State, sz: int, at: nat, faults: set<nat>, written: seq<Msg>)
    requires Ahead(s, size, now, sz, at, faults, written) && (sz <= 1 || now.idle == [])
    ensures var all := CollectInto(s, size, at, faults);
            all.state == now && all.reports == written && CountOf(all, s.idle) == |written|
  {
    Stops(now, sz, at + |written|, faults);
    hide CollectInto, Listed, SameIds;
    assert written + [] == written;
  }

  // ------------------------------------------------------- with the buffer

  /** Where the loop stands, and what the buffer that held `was` holds now. */
  ghost predicate Midway(s: State, size: int, was: seq<bv64>, at: nat, faults: set<nat>,
                         now: State, sz: int, written: seq<Msg>, buf: seq<bv64>)
  {
    && Ahead(s, size, now, sz, at, faults, written)
    && at + |written| <= |was| && Bounded(|was|, at + |written|, sz, faults)
    && buf == Splice(was, at, Words(s.workers, written))
  }

  /** The buffer after the first worker's `k` words. */
  lemma BufferTurn(s: State, size: int, was: seq<bv64>, at: nat, faults: set<nat>,
                   now: State, sz: int, written: seq<Msg>, buf: seq<bv64>, k: nat)
    requires Midway(s, size, was, at, faults, now, sz, written, buf) && sz > 1 && HasFirst(now)
    requires Writes(now, at + |written|, faults, k)
    ensures var i := at + |written|;
            && i + k <= |was| && Bounded(|was|, i + k, sz - k, faults) && |buf| == |was|
            && Splice(buf, i, OwedWords(now.workers[now.idle[0]], k))
               == Splice(was, at, Words(s.workers, written + FirstReports(now, k)))
  {
    AheadFacts(s, size, now, sz, at, faults, written);
    BoundedNext(now, |was|, at + |written|, sz, faults, k);
    FirstWords(s.workers, now, k);
    WordsAppend(s.workers, written, FirstReports(now, k));
    SpliceTwice(was, at, Words(s.workers, written), Words(s.workers, FirstReports(now, k)));
    hide Ahead, Bounded, Words, FirstReports, Splice, OwedWords;
  }

  lemma MidwayTurn(s: State, size: int, was: seq<bv64>, at: nat, faults: set<nat>,
                   now: State, sz: int, written: seq<Msg>, buf: seq<bv64>)
    requires Midway(s, size, was, at, faults, now, sz, written, buf) && sz > 1 && HasFirst(now)
    requires Writes(now, at + |written|, faults, |Turn(now)|)
    ensures at + |written| + |Turn(now)| <= |buf|
    ensures Midway(s, size, was, at, faults, TakeOne(now), sz - |Turn(now)|, written + FirstReports(now, |Turn(now)|),
                   Splice(buf, at + |written|, OwedWords(now.workers[now.idle[0]], |Turn(now)|)))
  {
    BufferTurn(s, size, was, at, faults, now, sz, written, buf, |Turn(now)|);
    AheadTurn(s, size, now, sz, at, faults, written);
    hide Ahead, Bounded, Words, FirstReports, Splice, OwedWords, TakeOne, Writes;
  }

  lemma MidwayStart(s: State, size: int, was: seq<bv64>, at: nat, faults: set<nat>)
    requires Listed(s) && Bounded(|was|, at, size, faults)
    ensures Midway(s, size, was, at, faults, s, size, [], was)
  {
    SpliceNone(was, at, s.workers);
    AheadStart(s, size, at, faults);
    hide Ahead, Words, Splice;
  }

  lemma MidwayFacts(s: State, size: int, was: seq<bv64>, at: nat, faults: set<nat>,
                    now: State, sz: int, written: seq<Msg>, buf: seq<bv64>)
    requires Midway(s, size, was, at, faults, now, sz, written, buf) && sz > 1
    ensures (now.idle != [] ==> HasFirst(now)) && Bounded(|buf|, at + |written|, 2, faults)
  {
    AheadFacts(s, size, now, sz, at, faults, written);
    BoundedStart(|was|, at + |written|, sz, faults);
    hide Ahead, Words, Splice;
  }

  /** The loop has ended: `n` words written, `sz` left, and `rv` to be returned. */
  ghost predicate Ended(s: State, size: int, was: seq<bv64>, at: nat, faults: set<nat>,
                        now: State, sz: int, n: nat, rv: int, buf: seq<bv64>)
  {
    var all := CollectInto(s, size, at, faults);
    && all.state == now && rv == CountOf(all, s.idle) && n == |all.reports| == size - sz
    && at + n <= |was| && Bounded(|was|, at + n, sz, faults)
    && buf == Splice(was, at, Words(s.workers, all.reports))
  }

  lemma EndedCounts(s: State, size: int, was: seq<bv64>, at: nat, faults: set<nat>,
                    now: State, sz: int, n: nat, rv: int, buf: seq<bv64>)
    requires Ended(s, size, was, at, faults, now, sz, n, rv, buf)
    ensures n == |CollectInto(s, size, at, faults).reports| && rv <= n
  {
    hide CollectInto, Words, Splice, Bounded;
  }

  lemma MidwayEnd(s: State, size: int, was: seq<bv64>, at: nat, faults: set<nat>,
                  now: State, sz: int, written: seq<Msg>, buf: seq<bv64>)
    requires Midway(s, size, was, at, faults, now, sz, written, buf) && (sz <= 1 || now.idle == [])
    ensures Ended(s, size, was, at, faults, now, sz, |written|, |written|, buf)
  {
    AheadEnd(s, size, now, sz, at, faults, written);
    hide CollectInto, Words, Splice, Bounded;
  }

  lemma MidwayFault(s: State, size: int, was: seq<bv64>, at: nat, faults: set<nat>,
                    now: State, sz: int, written: seq<Msg>, buf: seq<bv64>, k: nat)
    requires Midway(s, size, was, at, faults, now, sz, written, buf) && sz > 1 && HasFirst(now)
    requires Writes(now, at + |written|, faults, k) && k < |Turn(now)|
    ensures at + |written| + k <= |buf|
    ensures Ended(s, size, was, at, faults, now, sz - k, |written| + k,
                  if written == [] then -EFAULT else |written| + k,
                  Splice(buf, at + |written|, OwedWords(now.workers[now.idle[0]], k)))
  {
    BufferTurn(s, size, was, at, faults, now, sz, written, buf, k);
    AheadFault(s, size, now, sz, at, faults, written, k);
    hide CollectInto, Words, Splice, Bounded, Ahead, FirstReports, OwedWords, CountOf, Writes, Turn;
  }

  /** What a whole collection does to the state and to the buffer. */
  ghost predicate Collected(s: State, size: int, was: seq<bv64>, at: nat, faults: set<nat>, now: State, buf: seq<bv64>)
  {
    var w := CollectInto(s, size, at, faults);
    && now == w.state && at + |w.reports| <= |was|
    && (|w.reports| < size && at + |w.reports| !in faults ==> at + |w.reports| < |was|)
    && buf == Buffer(was, at, w.reports, s.workers, size, faults)
  }

  ghost predicate AlignedIds(ws: Workers) { forall t :: t in ws ==> ValidId(ws[t].id) }

  /** A buffer that can be written decodes to what stood in front, the event of a
      returning switch or nothing, and then exactly what the protocol collects:
      kernel encoding and user decoding are inverse. */
  lemma CollectedIsDecoded(s: State, front: seq<Report>, was: seq<bv64>, faults: set<nat>, now: State, buf: seq<bv64>)
    requires AlignedIds(s.workers) && forall i :: 0 <= i < |front| ==> ValidId(front[i].id)
    requires |front| <= |was| && was[..|front|] == EncodeAll(front) && Writable(|front|, |was|, faults)
    requires Collected(s, |was| - |front|, was, |front|, faults, now, buf)
    ensures var (r, ms) := Collect(s, |was| - |front|);
            now == r && Decode(buf) == front + ToReports(s.workers, ms)
  {
    hide Collect, CollectInto, Buffer, Decode, ValidId, AlignedIds, Writable, EncodeAll, ToReports;
    WritableCollects(s, |was| - |front|, |front|, faults);
    var ms := Collect(s, |was| - |front|).1;
    BufferHolds(was, front, ms, s.workers, faults);
    AlignedReports(s.workers, front, ms);
    DecodeRoundTrip(front + ToReports(s.workers, ms), buf);
  }

  lemma AlignedReports(ws: Workers, front: seq<Report>, ms: seq<Msg>)
    requires AlignedIds(ws) && forall i :: 0 <= i < |front| ==> ValidId(front[i].id)
    ensures var all := front + ToReports(ws, ms); forall i :: 0 <= i < |all| ==> ValidId(all[i].id)
  {
    var rs := ToReports(ws, ms);
    forall i | 0 <= i < |front + rs| ensures ValidId((front + rs)[i].id) {
      if i >= |front| { assert (front + rs)[i] == rs[i - |front|]; }
    }
  }

  lemma BufferHolds(was: seq<bv64>, front: seq<Report>, ms: seq<Msg>, ws: Workers, faults: set<nat>)
    requires |front| + |ms| <= |was| && was[..|front|] == EncodeAll(front) && Writable(|front|, |was|, faults)
    ensures var all := front + ToReports(ws, ms);
            var buf := Buffer(was, |front|, ms, ws, |was| - |front|, faults);
            buf[..|all|] == EncodeAll(all) && (|all| < |was| ==> buf[|all|] == 0)
  {
    var rs := ToReports(ws, ms);
    assert EncodeAll(front + rs) == EncodeAll(front) + EncodeAll(rs);
    var buf := Buffer(was, |front|, ms, ws, |was| - |front|, faults);
    assert buf[..|front| + |ms|] == was[..|front|] + Words(ws, ms);
  }

  /** A collection with room for a report returns 0 only if nobody is listed. */
  lemma ZeroMeansEmpty(s: State, size: int, at: nat, faults: set<nat>)
    requires size >= 2 && Listed(s)
    ensures CountOf(CollectInto(s, size, at, faults), s.idle) == 0 <==> s.idle == []
  {
    if s.idle == [] {
      Stops(s, size, at, faults);
    } else {
      assert s.idle[0] in s.idle;
      if GoesOn(s, size, at, faults) { Continues(s, size, at, faults); } else { Stops(s, size, at, faults); }
      hide CollectInto, Listed;
    }
  }

  /** A negative return value means that nothing was taken off the list, even if
      the write tore; any other is the number of words written. */
  lemma {:induction false} NegativeTakesNothing(s: State, size: int, at: nat, faults: set<nat>)
    ensures var w := CollectInto(s, size, at, faults);
            && (CountOf(w, s.idle) < 0 ==> w.state == s)
            && (CountOf(w, s.idle) >= 0 ==> CountOf(w, s.idle) == |w.reports|)
            && |w.state.idle| <= |s.idle|
    decreases |s.idle|
  {
    hide CollectInto, Owed, Reports;
    if GoesOn(s, size, at, faults) {
      Continues(s, size, at, faults);
      NegativeTakesNothing(TakeOne(s), size - |Turn(s)|, at + |Turn(s)|, faults);
    } else {
      Stops(s, size, at, faults);
    }
  }

  /** A swap whose timer has fired: two words are owed for it. */
  predicate TimedOutSwap(w: Worker) { w.event.Wait? && !w.status.Idle? }

  /** There is room and somebody listed, and the words of the first worker cannot all
      be written. */
  predicate FaultsFirst(s: State, size: int, at: nat, faults: set<nat>)
  {
    && size > 1 && s.idle != [] && s.idle[0] in s.workers
    && (at in faults || (at + 1 in faults && TimedOutSwap(s.workers[s.idle[0]])))
  }

  /** Exactly then a collection fails. */
  lemma FailsIffFaultsFirst(s: State, size: int, at: nat, faults: set<nat>)
    ensures CountOf(CollectInto(s, size, at, faults), s.idle)
            == if FaultsFirst(s, size, at, faults) then -EFAULT else |CollectInto(s, size, at, faults).reports|
  {
    hide CollectInto, Reports;
    if GoesOn(s, size, at, faults) {
      Continues(s, size, at, faults);
      NegativeTakesNothing(TakeOne(s), size - |Turn(s)|, at + |Turn(s)|, faults);
    } else {
      Stops(s, size, at, faults);
    }
  }

  lemma NoRoom(s: State, buf: seq<bv64>, faults: set<nat>)
    requires |buf| >= 1
    ensures Collected(s, 0, buf, 1, faults, s, buf)
  {
    assert Words(s.workers, []) + [] == [];
  }
}
