/** Collection into a user buffer some of whose words cannot be written: what is
    taken off the list, what is reported, and when the two disagree. */
module KlibBuffer {
  import opened Buffers
  import opened Events
  import opened Lists
  import opened KlibProtocol
  import opened KlibSafety
  import opened KlibRuns
  import opened KlibDelivery

  /** How the loop ends: no more room or workers, a fault on the first word of a
      worker, or a fault on the TIMEOUT word after its WAIT word was written. */
  datatype Stop = Done | Fault | Torn

  datatype Written = Written(state: State, reports: seq<Msg>, stop: Stop)

  /** The loop of umcg_server_get_events over the buffer from word `at`. */
  function CollectInto(s: State, size: int, at: nat, faults: set<nat>): Written
    decreases |s.idle|
  {
    if size <= 1 || s.idle == [] || s.idle[0] !in s.workers then Written(s, [], Done)
    else
      var t := s.idle[0];
      var es := Owed(s.workers[t]);
      if at in faults then Written(s, [], Fault)
      else if |es| == 2 && at + 1 in faults then Written(s, [Msg(t, Wait)], Torn)
      else
        var w := CollectInto(TakeOne(s), size - |es|, at + |es|, faults);
        w.(reports := Reports(t, es) + w.reports)
  }

  /** The reports owed for a stretch of the list. */
  function OwedBy(ws: Workers, list: seq<Tid>): seq<Msg>
  {
    if list == [] || list[0] !in ws then [] else Reports(list[0], Owed(ws[list[0]])) + OwedBy(ws, list[1..])
  }

  /** The n-th worker of the list is a swap whose timer has fired, there is room
      for both its words, and the first word that cannot be written is the second
      of them. */
  ghost predicate TearsAt(s: State, size: int, at: nat, faults: set<nat>, n: nat)
  {
    var k := |OwedBy(s.workers, s.idle[..if n <= |s.idle| then n else 0])|;
    && n < |s.idle| && s.idle[n] in s.workers && |Owed(s.workers[s.idle[n]])| == 2
    && k + 1 < size && at + k + 1 in faults && Writable(at, at + k + 1, faults)
  }

  // ------------------------------------------------------------ no fault

  /** A buffer that can be written throughout behaves as the protocol says. */
  lemma {:induction false} WritableCollects(s: State, size: int, at: nat, faults: set<nat>)
    requires Writable(at, at + size, faults)
    ensures CollectInto(s, size, at, faults) == Written(Collect(s, size).0, Collect(s, size).1, Done)
    decreases |s.idle|
  {
    if size > 1 && s.idle != [] && s.idle[0] in s.workers {
      var es := Owed(s.workers[s.idle[0]]);
      WritableCollects(TakeOne(s), size - |es|, at + |es|, faults);
    }
  }

  // --------------------------------------------------------------- faults

  lemma {:induction false} OwedByFrame(ws: Workers, list: seq<Tid>, t: Tid, w: Worker)
    requires t in ws && t !in list
    ensures OwedBy(ws[t := w], list) == OwedBy(ws, list)
  {
    if list != [] && list[0] in ws {
      assert list[0] in list;
      OwedByFrame(ws, list[1..], t, w);
    }
  }

  lemma TearsLater(s: State, size: int, at: nat, faults: set<nat>, n: nat)
    requires NoDup(s.idle) && s.idle != [] && s.idle[0] in s.workers
    requires var es := Owed(s.workers[s.idle[0]]); Writable(at, at + |es|, faults)
    ensures var es := Owed(s.workers[s.idle[0]]);
            TearsAt(s, size, at, faults, n + 1) <==> TearsAt(TakeOne(s), size - |es|, at + |es|, faults, n)
  {
    var t, es, r := s.idle[0], Owed(s.workers[s.idle[0]]), TakeOne(s);
    if n < |r.idle| {
      assert s.idle[..n + 1] == [t] + r.idle[..n];
      assert t !in r.idle[..n] && r.idle[n] != t;
      OwedByFrame(s.workers, r.idle[..n], t, r.workers[t]);
      assert r.idle[n] == s.idle[n + 1];
      assert [t] + r.idle[..n] == s.idle[..n + 1] && s.idle[..n + 1][1..] == r.idle[..n];
      assert |OwedBy(s.workers, s.idle[..n + 1])| == |es| + |OwedBy(r.workers, r.idle[..n])|;
      hide Owed, OwedBy;
    }
  }

  /** One turn that is not stopped. */
  predicate GoesOn(s: State, size: int, at: nat, faults: set<nat>)
  {
    && size > 1 && s.idle != [] && s.idle[0] in s.workers && at !in faults
    && (|Owed(s.workers[s.idle[0]])| == 2 ==> at + 1 !in faults)
  }

  function Turn(s: State): (r: seq<Event>)
    requires s.idle != [] && s.idle[0] in s.workers
    ensures 1 <= |r| <= 2
  {
    Owed(s.workers[s.idle[0]])
  }

  function Later(s: State, size: int, at: nat, faults: set<nat>): Written
    requires s.idle != [] && s.idle[0] in s.workers
  {
    CollectInto(TakeOne(s), size - |Turn(s)|, at + |Turn(s)|, faults)
  }

  lemma Continues(s: State, size: int, at: nat, faults: set<nat>)
    requires GoesOn(s, size, at, faults)
    ensures var w := Later(s, size, at, faults);
            CollectInto(s, size, at, faults) == w.(reports := Reports(s.idle[0], Turn(s)) + w.reports)
  {
  }

  /** A torn turn: the TIMEOUT word of the first worker faults. */
  predicate TearsNow(s: State, size: int, at: nat, faults: set<nat>)
  {
    && size > 1 && s.idle != [] && s.idle[0] in s.workers && at !in faults
    && |Turn(s)| == 2 && at + 1 in faults
  }

  lemma Stops(s: State, size: int, at: nat, faults: set<nat>)
    requires !GoesOn(s, size, at, faults)
    ensures var w := CollectInto(s, size, at, faults);
            && w.state == s
            && (w.stop.Done? <==> size <= 1 || s.idle == [] || s.idle[0] !in s.workers)
            && (w.stop.Torn? <==> TearsNow(s, size, at, faults))
            && w.reports == if w.stop.Torn? then [Msg(s.idle[0], Wait)] else []
  {
  }

  lemma OwedByFirst(s: State, n: nat)
    requires NoDup(s.idle) && n < |s.idle| && s.idle[0] in s.workers
    ensures OwedBy(s.workers, s.idle[..n + 1])
            == Reports(s.idle[0], Owed(s.workers[s.idle[0]])) + OwedBy(TakeOne(s).workers, TakeOne(s).idle[..n])
  {
    var t, r := s.idle[0], TakeOne(s);
    assert s.idle[..n + 1] == [t] + r.idle[..n];
    assert s.idle[..n + 1][1..] == r.idle[..n];
    OwedByFrame(s.workers, r.idle[..n], t, r.workers[t]);
  }

  /** What was taken is a stretch of the list, what was written is what it owes,
      plus the first word of what the next worker owes if the write tears. */
  lemma {:induction false} CollectIntoPrefix(s: State, size: int, at: nat, faults: set<nat>)
    requires NoDup(s.idle) && Listed(s)
    ensures var w := CollectInto(s, size, at, faults);
            var n := |s.idle| - |w.state.idle|;
            && n >= 0 && w.state.idle == s.idle[n..] && (w.stop.Torn? ==> n < |s.idle|)
            && w.reports == OwedBy(s.workers, s.idle[..n]) + if w.stop.Torn? then [Msg(s.idle[n], Wait)] else []
    decreases |s.idle|
  {
    hide CollectInto, Owed, OwedBy, Reports;
    if GoesOn(s, size, at, faults) {
      var r, w := TakeOne(s), Later(s, size, at, faults);
      Continues(s, size, at, faults);
      CollectIntoPrefix(r, size - |Turn(s)|, at + |Turn(s)|, faults);
      var n := |r.idle| - |w.state.idle|;
      OwedByFirst(s, n);
      hide NoDup, Listed, GoesOn;
      assert s.idle[n + 1..] == r.idle[n..];
    } else {
      Stops(s, size, at, faults);
      NothingOwed(s);
      hide NoDup, Listed;
    }
  }

  lemma NothingOwed(s: State)
    ensures OwedBy(s.workers, s.idle[..0]) == []
  {
    assert s.idle[..0] == [];
  }

  lemma {:induction false} TornThere(s: State, size: int, at: nat, faults: set<nat>)
    requires NoDup(s.idle) && Listed(s) && CollectInto(s, size, at, faults).stop.Torn?
    ensures var n := |s.idle| - |CollectInto(s, size, at, faults).state.idle|;
            n >= 0 && TearsAt(s, size, at, faults, n)
    decreases |s.idle|
  {
    hide CollectInto, Owed, TearsAt;
    if GoesOn(s, size, at, faults) {
      var r, w := TakeOne(s), Later(s, size, at, faults);
      Continues(s, size, at, faults);
      assert NoDup(r.idle) && Listed(r);
      TornThere(r, size - |Turn(s)|, at + |Turn(s)|, faults);
      TearsLater(s, size, at, faults, |r.idle| - |w.state.idle|);
      hide NoDup, Listed, GoesOn;
    } else {
      Stops(s, size, at, faults);
      TornFirst(s, size, at, faults);
    }
  }

  lemma TornFirst(s: State, size: int, at: nat, faults: set<nat>)
    requires TearsNow(s, size, at, faults)
    ensures TearsAt(s, size, at, faults, 0)
  {
    NothingOwed(s);
  }

  lemma {:induction false} TearsOnlyThere(s: State, size: int, at: nat, faults: set<nat>, n: nat)
    requires NoDup(s.idle) && Listed(s) && TearsAt(s, size, at, faults, n)
    ensures CollectInto(s, size, at, faults).stop.Torn?
    decreases |s.idle|
  {
    hide CollectInto, TearsAt;
    TearsFirst(s, size, at, faults, n);
    if n == 0 {
      Stops(s, size, at, faults);
    } else {
      var es := Turn(s);
      TearsLater(s, size, at, faults, n - 1);
      assert NoDup(TakeOne(s).idle) && Listed(TakeOne(s));
      TearsOnlyThere(TakeOne(s), size - |es|, at + |es|, faults, n - 1);
      Continues(s, size, at, faults);
    }
  }

  /** Before the fault the loop goes on; at the fault it tears. */
  lemma TearsFirst(s: State, size: int, at: nat, faults: set<nat>, n: nat)
    requires Listed(s) && TearsAt(s, size, at, faults, n)
    ensures s.idle != [] && s.idle[0] in s.workers
    ensures if n == 0 then TearsNow(s, size, at, faults)
            else GoesOn(s, size, at, faults) && Writable(at, at + |Turn(s)|, faults)
  {
    assert s.idle[0] in s.idle;
    if n == 0 { NothingOwed(s); } else { FirstOwed(s, n); }
    hide OwedBy, Owed;
    assert at !in faults;
  }

  lemma FirstOwed(s: State, n: nat)
    requires 0 < n <= |s.idle| && s.idle[0] in s.workers
    ensures |OwedBy(s.workers, s.idle[..n])| >= |Owed(s.workers[s.idle[0]])|
  {
    assert s.idle[..n][0] == s.idle[0];
  }

  /** A write tears exactly when some worker of the list stands at the fault. */
  lemma TornIff(s: State, size: int, at: nat, faults: set<nat>)
    requires NoDup(s.idle) && Listed(s)
    ensures CollectInto(s, size, at, faults).stop.Torn? <==> exists n :: TearsAt(s, size, at, faults, n)
  {
    hide TearsAt, CollectInto;
    if CollectInto(s, size, at, faults).stop.Torn? {
      TornThere(s, size, at, faults);
    }
    forall n | TearsAt(s, size, at, faults, n) ensures CollectInto(s, size, at, faults).stop.Torn? {
      TearsOnlyThere(s, size, at, faults, n);
    }
  }

  /** The loop never writes more than it was given room for. */
  lemma {:induction false} CollectIntoFits(s: State, size: int, at: nat, faults: set<nat>)
    ensures |CollectInto(s, size, at, faults).reports| <= if size < 0 then 0 else size
    decreases |s.idle|
  {
    hide CollectInto, Owed, Reports;
    if GoesOn(s, size, at, faults) {
      Continues(s, size, at, faults);
      CollectIntoFits(TakeOne(s), size - |Turn(s)|, at + |Turn(s)|, faults);
    } else {
      Stops(s, size, at, faults);
    }
  }

  /** The report that a torn write leaves on the list as well. */
  function Extra(w: Written, m: Msg): nat
  {
    One(w.stop.Torn? && w.state.idle != [] && m == Msg(w.state.idle[0], Wait))
  }

  function Owes(s: State, m: Msg): nat { OwedCount(s.workers, s.idle, m) }

  /** Faults lose nothing; a torn write reports one WAIT that stays owed. */
  lemma {:induction false} CollectIntoConserves(s: State, size: int, at: nat, faults: set<nat>, m: Msg)
    requires NoDup(s.idle)
    ensures var w := CollectInto(s, size, at, faults);
            multiset(w.reports)[m] + Owes(w.state, m) == Owes(s, m) + Extra(w, m)
    decreases |s.idle|
  {
    hide CollectInto, OwedCount, Owed, Reports, NoDup;
    if GoesOn(s, size, at, faults) {
      Continues(s, size, at, faults);
      TakeOneCount(s, m);
      ReportsCount(s.idle[0], s.workers[s.idle[0]], m);
      CollectIntoConserves(TakeOne(s), size - |Turn(s)|, at + |Turn(s)|, faults, m);
      hide GoesOn;
    } else {
      Stops(s, size, at, faults);
    }
  }

  /** So collection hands out every report exactly once if and only if no worker
      of the list stands at the first fault with its second word. */
  lemma OnceUnlessTorn(s: State, size: int, at: nat, faults: set<nat>)
    requires NoDup(s.idle) && Listed(s)
    ensures var w := CollectInto(s, size, at, faults);
            (forall m :: multiset(w.reports)[m] + Owes(w.state, m) == Owes(s, m))
            <==> !exists n :: TearsAt(s, size, at, faults, n)
  {
    var w := CollectInto(s, size, at, faults);
    TornIff(s, size, at, faults);
    CollectIntoPrefix(s, size, at, faults);
    forall m ensures multiset(w.reports)[m] + Owes(w.state, m) == Owes(s, m) + Extra(w, m) {
      CollectIntoConserves(s, size, at, faults, m);
    }
    hide TearsAt, CollectInto, Owes, NoDup, Listed, OwedBy;
    if w.stop.Torn? {
      assert Extra(w, Msg(w.state.idle[0], Wait)) == 1;
    }
  }

  // -------------------------------------------------------- what is decoded

  function ToReports(ws: Workers, ms: seq<Msg>): (rs: seq<Report>)
    ensures |rs| == |ms|
  {
    seq(|ms|, i requires 0 <= i < |ms| => Report(if ms[i].worker in ws then ws[ms[i].worker].id else 0, ms[i].event))
  }
}
