/** Exactly-once delivery: every event a worker reports is written into the buffer
    of some server once, or is still on its way. */
module KlibDelivery {
  import opened Events
  import opened Lists
  import opened KlibProtocol
  import opened KlibSafety
  import opened KlibRuns

  /** How often the worker has reported the event. */
  function Emitted(h: History, m: Msg): nat { Count(Logged(h, m.worker), Out(m.event)) }

  function SlotsWith(slots: map<Sid, Slot>, m: Msg): set<Sid> { set v | v in slots && slots[v] == Full(m) }

  function OwedCount(ws: Workers, idle: seq<Tid>, m: Msg): nat
  {
    if m.worker in idle && m.worker in ws && m.event in Owed(ws[m.worker]) then 1 else 0
  }

  /** The copies of `m` on their way: in the slots of servers that have yet to
      return from their switch, and on the idle list. */
  function Outstanding(s: State, m: Msg): nat
  {
    |SlotsWith(s.slots, m)| + OwedCount(s.workers, s.idle, m)
  }

  /** How often `m` is written into a buffer during a run. */
  function Deliveries(s: State, steps: seq<Step>, m: Msg): nat
    decreases |steps|
  {
    if steps == [] then 0
    else multiset(Delivered(s, steps[0]))[m]
         + match Apply(s, steps[0])
           case Wild => 0
           case Live(s1) => Deliveries(s1, steps[1..], m)
  }

  // ------------------------------------------------------- the three stores

  lemma EmitOne(h: History, t: Tid, a: Act, m: Msg)
    ensures Emitted(h[t := Logged(h, t) + [a]], m) == Emitted(h, m) + One(t == m.worker && a == Out(m.event))
  {
    var l := Logged(h, t);
    assert (l + [a])[..|l|] == l;
  }

  lemma FillSlot(slots: map<Sid, Slot>, v: Sid, m0: Msg, m: Msg)
    requires v in slots && slots[v].Empty?
    ensures |SlotsWith(slots[v := Full(m0)], m)| == |SlotsWith(slots, m)| + One(m0 == m)
  {
    assert SlotsWith(slots[v := Full(m0)], m) == SlotsWith(slots, m) + if m0 == m then {v} else {};
  }

  lemma FreeSlot(slots: map<Sid, Slot>, v: Sid, m: Msg)
    requires v in slots && slots[v].Full?
    ensures |SlotsWith(slots - {v}, m)| == |SlotsWith(slots, m)| - One(slots[v].msg == m)
  {
    assert SlotsWith(slots - {v}, m) == SlotsWith(slots, m) - if slots[v].msg == m then {v} else {};
  }

  lemma OpenSlot(slots: map<Sid, Slot>, v: Sid, t: Tid, m: Msg)
    requires v !in slots || slots[v].Empty?
    ensures SlotsWith(slots[v := Empty(t)], m) == SlotsWith(slots, m)
  {
  }

  lemma ReportsCount(t: Tid, w: Worker, m: Msg)
    ensures multiset(Reports(t, Owed(w)))[m] == One(t == m.worker && m.event in Owed(w))
  {
    var es := Owed(w);
    if |es| == 1 { assert Reports(t, es) == [Msg(t, es[0])]; }
    else { assert Reports(t, es) == [Msg(t, es[0]), Msg(t, es[1])]; }
  }

  lemma TakeOneCount(s: State, m: Msg)
    requires NoDup(s.idle) && s.idle != [] && s.idle[0] in s.workers
    ensures var (t, r) := (s.idle[0], TakeOne(s));
            && NoDup(r.idle)
            && One(t == m.worker && m.event in Owed(s.workers[t])) + OwedCount(r.workers, r.idle, m)
               == OwedCount(s.workers, s.idle, m)
  {
    var t, r := s.idle[0], TakeOne(s);
    assert forall x :: x in s.idle <==> x == t || x in r.idle;
    assert t !in r.idle;
    hide Owed;
  }

  /** Collection moves reports from the list to the buffer. */
  lemma {:induction false} CollectConserves(s: State, size: int, m: Msg)
    requires NoDup(s.idle)
    ensures var (r, ms) := Collect(s, size);
            && multiset(ms)[m] + OwedCount(r.workers, r.idle, m) == OwedCount(s.workers, s.idle, m)
            && r.slots == s.slots && r.history == s.history
    decreases |s.idle|
  {
    hide NoDup, OwedCount, Owed;
    if size > 1 && s.idle != [] && s.idle[0] in s.workers {
      TakeOneCount(s, m);
      ReportsCount(s.idle[0], s.workers[s.idle[0]], m);
      CollectConserves(TakeOne(s), size - |Owed(s.workers[s.idle[0]])|, m);
    }
  }

  // ------------------------------------------------------------------ steps

  /** What is emitted is delivered or outstanding, across one change of state. */
  ghost predicate Conserves(s: State, r: State, delivered: nat, m: Msg)
  {
    Emitted(r.history, m) + Outstanding(s, m) == Emitted(s.history, m) + delivered + Outstanding(r, m)
  }

  lemma ToServerConserves(s: State, s1: State, t: Tid, v: Sid, e: Event, m: Msg)
    requires !OnList(s.workers, t) && IdleOk(s.workers, s.idle)
    requires s1.idle == s.idle && s1.slots == s.slots && s1.history == s.history && Only(s.workers, t, s1.workers)
    requires EventToServer(s1, v, t, e).Live?
    ensures Conserves(s, EventToServer(s1, v, t, e).state, 0, m)
  {
    EmitOne(s.history, t, Out(e), m);
    FillSlot(s.slots, v, Msg(t, e), m);
    hide Emitted, SlotsWith;
    assert t !in s.idle;
  }

  lemma ToIdleConserves(s: State, s1: State, t: Tid, e: Event, m: Msg)
    requires !OnList(s.workers, t) && IdleOk(s.workers, s.idle)
    requires s1.idle == s.idle && s1.slots == s.slots && s1.history == s.history && Only(s.workers, t, s1.workers)
    requires t in s1.workers && s1.workers[t].status.Idle?
    ensures Conserves(s, EventIdle(s1, t, e), 0, m)
  {
    EmitOne(s.history, t, Out(e), m);
    hide Emitted, SlotsWith;
    assert t !in s.idle;
    assert forall x :: x in s.idle + [t] <==> x in s.idle || x == t;
  }

  lemma SwitchInConserves(s: State, next: Tid, v: Sid, m: Msg)
    requires next in s.workers && next !in s.idle && (v !in s.slots || s.slots[v].Empty?)
    ensures Conserves(s, SwitchIn(s, next, v), 0, m)
  {
    EmitOne(s.history, next, In, m);
    OpenSlot(s.slots, v, next, m);
    hide Emitted, SlotsWith;
  }

  /** Nothing but a worker off the list changes. */
  lemma QuietConserves(s: State, t: Tid, w: Worker, m: Msg)
    requires t !in s.idle
    ensures Conserves(s, s.Put(t, w), 0, m)
  {
    hide Emitted, SlotsWith;
  }

  lemma TimerConserves(s: State, t: Tid, m: Msg)
    requires Inv(s) && CanAct(s, TimerFires(t))
    ensures Conserves(s, Apply(s, TimerFires(t)).state, 0, m)
  {
    hide HistoryOk, SlotsOk, Emitted, SlotsWith;
    assert WorkerOk(s.workers[t]);
    assert t in s.idle <==> OnList(s.workers, t);
    var w := s.workers[t].(timer := false);
    if w.status.Waiting? {
      ToIdleConserves(s, s.Put(t, w.(status := Idle, timedOut := true)), t, Timeout, m);
    } else if w.status.Idle? {
      EmitOne(s.history, t, Out(Timeout), m);
    }
  }

  lemma SwitchFromWorkerConserves(s: State, t: Tid, next: Tid, timed: bool, m: Msg)
    requires Inv(s) && s.Executes(t) && s.Is(next, Runnable)
    ensures Conserves(s, Apply(s, SwitchFromWorker(t, next, timed)).state, 0, m)
  {
    hide HistoryOk, WorkersOk, Emitted, SlotsWith;
    assert t in s.idle <==> OnList(s.workers, t);
    assert next in s.idle <==> OnList(s.workers, next);
    assert Attached(s.workers, t);
    var w := s.workers[t].(status := Idle, timer := timed, timedOut := false);
    ToIdleConserves(s, s.Put(t, w), t, Wait, m);
    SwitchInConserves(EventIdle(s.Put(t, w), t, Wait), next, w.server, m);
  }

  lemma SwitchReturnConserves(s: State, v: Sid, size: int, m: Msg)
    requires NoDup(s.idle) && v in s.slots && s.slots[v].Full?
    ensures Conserves(s, Apply(s, SwitchReturn(v, size)).state, multiset(Delivered(s, SwitchReturn(v, size)))[m], m)
  {
    hide Emitted, SlotsWith, OwedCount, Collect, NoDup;
    FreeSlot(s.slots, v, m);
    CollectConserves(s.(slots := s.slots - {v}), size - 1, m);
  }

  lemma OffList(s: State, t: Tid)
    requires Inv(s)
    ensures NoDup(s.idle) && (t in s.idle <==> OnList(s.workers, t))
  {
  }

  lemma UnregisterConserves(s: State, t: Tid, m: Msg)
    requires Inv(s) && s.Executes(t) && Apply(s, Unregister(t)).Live?
    ensures Conserves(s, Apply(s, Unregister(t)).state, 0, m)
  {
    OffList(s, t);
    hide IdleOk, HistoryOk, SlotsOk, WorkersOk, Conserves, EventToServer;
    ToServerConserves(s, s.(workers := s.workers - {t}), t, s.workers[t].server, Exit, m);
  }

  lemma WaitConserves(s: State, t: Tid, timed: bool, m: Msg)
    requires Inv(s) && s.Executes(t) && Apply(s, WaitStep(t, timed)).Live?
    ensures Conserves(s, Apply(s, WaitStep(t, timed)).state, 0, m)
  {
    OffList(s, t);
    hide IdleOk, HistoryOk, SlotsOk, WorkersOk, Conserves, EventToServer;
    var w := s.workers[t].(status := Waiting, timer := timed, timedOut := false);
    ToServerConserves(s, s.Put(t, w), t, w.server, Wait, m);
  }

  lemma SyscallPauseConserves(s: State, t: Tid, m: Msg)
    requires Inv(s) && s.Is(t, Paused) && Apply(s, SyscallPause(t)).Live?
    ensures Conserves(s, Apply(s, SyscallPause(t)).state, 0, m)
  {
    OffList(s, t);
    hide IdleOk, HistoryOk, SlotsOk, WorkersOk, Conserves, EventToServer;
    var w := s.workers[t].(status := Blocked);
    assert Apply(s, SyscallPause(t)) == EventToServer(s.Put(t, w), w.server, t, Block);
    hide Apply;
    ToServerConserves(s, s.Put(t, w), t, w.server, Block, m);
  }

  lemma SameConserves(s: State, m: Msg)
    ensures Conserves(s, s, 0, m)
  {
    hide Emitted, Outstanding;
  }

  lemma ScheduleReturnConserves(s: State, t: Tid, late: bool, m: Msg)
    requires Inv(s) && CanAct(s, ScheduleReturn(t, late)) && Apply(s, ScheduleReturn(t, late)).Live?
    ensures Conserves(s, Apply(s, ScheduleReturn(t, late)).state, 0, m)
  {
    OffList(s, t);
    hide IdleOk, HistoryOk, SlotsOk, WorkersOk, Conserves, EventToServer, EventIdle;
    var w := s.workers[t];
    if s.Is(t, Blocked) {
      ToIdleConserves(s, s.Put(t, w.(status := Idle)), t, Wake, m);
    } else if late {
      ToServerConserves(s, s.Put(t, w.(status := Runnable)), t, w.server, Preempt, m);
    } else {
      QuietConserves(s, t, w.(status := Running), m);
    }
  }

  lemma RegisterConserves(s: State, t: Tid, id: bv64, m: Msg)
    requires Inv(s)
    ensures Conserves(s, Apply(s, Register(t, id)).state, 0, m)
  {
    OffList(s, t);
    hide IdleOk, HistoryOk, SlotsOk, WorkersOk, Conserves, EventIdle;
    if ValidId(id) && t !in s.workers {
      ToIdleConserves(s, s.Put(t, Worker(id, Idle, Wake, 0, false, false)), t, Wake, m);
    } else {
      SameConserves(s, m);
    }
  }

  lemma StepConserves(s: State, step: Step, m: Msg)
    requires Inv(s) && CanAct(s, step) && Apply(s, step).Live?
    ensures Conserves(s, Apply(s, step).state, multiset(Delivered(s, step))[m], m)
  {
    OffList(s, if step.SwitchFromServer? then step.next else if step.Pause? then step.t else 0);
    SameConserves(s, m);
    match step {
      case Register(t, id) => RegisterConserves(s, t, id, m);
      case Pause(t) => QuietConserves(s, t, s.workers[t].(status := Paused), m);
      case ScheduleReturn(t, late) => ScheduleReturnConserves(s, t, late, m);
      case TimerFires(t) => TimerConserves(s, t, m);
      case SwitchFromWorker(t, next, timed) =>
        if s.Is(next, Runnable) { SwitchFromWorkerConserves(s, t, next, timed, m); }
      case SwitchReturn(v, size) =>
        if v in s.slots && s.slots[v].Full? { SwitchReturnConserves(s, v, size, m); }
      case CollectStep(size) => CollectConserves(s, size, m);
      case SwitchFromServer(v, next, size) =>
        if size > 0 && (s.Is(next, Runnable) || s.Is(next, Waiting)) { SwitchInConserves(s, next, v, m); }
      case Unregister(t) => if t in s.workers { UnregisterConserves(s, t, m); }
      case WaitStep(t, timed) => WaitConserves(s, t, timed, m);
      case SyscallPause(t) => if s.Is(t, Paused) { SyscallPauseConserves(s, t, m); }
    }
    hide Inv, Emitted, SlotsWith, OwedCount;
  }

  lemma {:induction false} RunConserves(s: State, steps: seq<Step>, m: Msg)
    requires Inv(s) && Legal(s, steps)
    ensures Exec(s, steps).Live?
    ensures Conserves(s, Exec(s, steps).state, Deliveries(s, steps, m), m)
    decreases |steps|
  {
    hide Inv, Apply, CanAct, Delivered, Outstanding, Emitted;
    if steps != [] {
      StepKeeps(s, steps[0]);
      StepConserves(s, steps[0], m);
      RunConserves(Apply(s, steps[0]).state, steps[1..], m);
    }
  }

  /** In every run, every event of every worker: as often as the worker reported
      it, it has been written into a server's buffer or is on its way there. None
      is lost and none is delivered twice. */
  lemma ExactlyOnce(steps: seq<Step>, m: Msg)
    requires Legal(INITIAL, steps)
    ensures Exec(INITIAL, steps).Live?
    ensures var s := Exec(INITIAL, steps).state;
            Emitted(s.history, m) == Deliveries(INITIAL, steps, m) + Outstanding(s, m)
  {
    RunConserves(INITIAL, steps, m);
    assert SlotsWith(map[], m) == {};
  }

  /** With servers that have all returned from their switches and an empty list,
      user space has seen everything. */
  lemma AllDeliveredWhenQuiet(steps: seq<Step>, m: Msg)
    requires Legal(INITIAL, steps) && Exec(INITIAL, steps).Live?
    requires var s := Exec(INITIAL, steps).state; s.slots == map[] && s.idle == []
    ensures Deliveries(INITIAL, steps, m) == Emitted(Exec(INITIAL, steps).state.history, m)
  {
    ExactlyOnce(steps, m);
    assert SlotsWith(map[], m) == {};
  }

  // ------------------------------------------------------------------- order

  lemma {:induction false} CollectedAreListed(s: State, size: int, i: nat)
    requires i < |Collect(s, size).1|
    ensures Collect(s, size).1[i].worker in s.idle
    decreases |s.idle|
  {
    var n := |Owed(s.workers[s.idle[0]])|;
    if i >= n { CollectedAreListed(TakeOne(s), size - n, i - n); }
  }

  lemma OwedOrder(w: Worker)
    requires |Owed(w)| == 2
    ensures Owed(w)[0] == Wait && Owed(w)[1] == Timeout
  {
  }

  lemma CollectedSplits(s: State, size: int)
    requires Collect(s, size).1 != []
    ensures size > 1 && s.idle != [] && s.idle[0] in s.workers
    ensures var es := Owed(s.workers[s.idle[0]]);
            Collect(s, size).1 == Reports(s.idle[0], es) + Collect(TakeOne(s), size - |es|).1
  {
  }

  /** The reports of a collection follow the list; two about one worker are its
      WAIT and its TIMEOUT, in this order. */
  lemma {:induction false} CollectedOrder(s: State, size: int, i: nat, j: nat)
    requires i < j < |Collect(s, size).1|
    ensures var (a, b) := (Collect(s, size).1[i], Collect(s, size).1[j]);
            Before(s.idle, a.worker, b.worker) || (a.worker == b.worker && a.event == Wait && b.event == Timeout)
    decreases |s.idle|
  {
    hide Collect, Owed, Before, TakeOne;
    CollectedSplits(s, size);
    var n, rest := |Owed(s.workers[s.idle[0]])|, TakeOne(s);
    assert s.idle == [s.idle[0]] + rest.idle;
    if j < n {
      OwedOrder(s.workers[s.idle[0]]);
    } else {
      CollectedAreListed(rest, size - n, j - n);
      BeforeCons(s.idle[0], rest.idle, Collect(s, size).1[i].worker, Collect(s, size).1[j].worker);
      if i >= n { CollectedOrder(rest, size - n, i - n, j - n); }
    }
  }

  lemma CollectedWaitFirst(s: State, size: int, t: Tid, i: nat, j: nat)
    requires NoDup(s.idle) && i < |Collect(s, size).1| && j < |Collect(s, size).1|
    requires Collect(s, size).1[i] == Msg(t, Wait) && Collect(s, size).1[j] == Msg(t, Timeout)
    ensures i < j
  {
    hide Collect, NoDup, Before;
    NotBeforeItself(s.idle, t);
    if j < i { CollectedOrder(s, size, j, i); }
  }

  lemma SlotIsNoTimeout(s: State, v: Sid)
    requires Inv(s) && v in s.slots && s.slots[v].Full?
    ensures s.slots[v].msg.event != Timeout
  {
    hide IdleOk, WorkersOk, HistoryOk;
  }

  /** Whatever a server is told at once about a worker that waited and timed out, it
      reads the WAIT before the TIMEOUT. */
  lemma WaitBeforeTimeout(s: State, step: Step, t: Tid, i: nat, j: nat)
    requires Reachable(s)
    requires var ms := Delivered(s, step);
             i < |ms| && j < |ms| && ms[i] == Msg(t, Wait) && ms[j] == Msg(t, Timeout)
    ensures i < j
  {
    hide Inv, Collect, NoDup, Reachable;
    ReachableInv(s);
    OffList(s, t);
    if step.CollectStep? {
      CollectedWaitFirst(s, step.size, t, i, j);
    } else {
      SlotIsNoTimeout(s, step.server);
      if i > 0 { CollectedWaitFirst(s.(slots := s.slots - {step.server}), step.size - 1, t, i - 1, j - 1); }
    }
  }

  lemma {:induction false} CollectTakesAll(s: State, size: int)
    requires Listed(s)
    ensures Collect(s, size).0.idle == [] || |Collect(s, size).1| >= size - 1
    decreases |s.idle|
  {
    if size > 1 && s.idle != [] {
      assert s.idle[0] in s.idle;
      assert forall t :: t in TakeOne(s).idle ==> t in s.idle;
      CollectTakesAll(TakeOne(s), size - |Owed(s.workers[s.idle[0]])|);
    }
  }

  lemma AllListed(s: State)
    requires Inv(s)
    ensures Listed(s) && NoDup(s.idle)
  {
    hide SlotsOk, WorkersOk, HistoryOk;
  }

  /** A server is told all there is: the event of its switch in front, and everybody
      listed unless less than two words are left. */
  lemma ToldAllThereIs(s: State, step: Step)
    requires Reachable(s) && CanAct(s, step)
    requires step.CollectStep? || (step.SwitchReturn? && step.server in s.slots && s.slots[step.server].Full?)
    ensures var (ms, o) := (Delivered(s, step), Apply(s, step));
            && o.Live? && (o.state.idle == [] || |ms| >= step.size - 1)
            && (step.SwitchReturn? ==> step.server !in o.state.slots && ms != [] && ms[0] == s.slots[step.server].msg)
  {
    hide Inv, Collect;
    ReachableInv(s);
    AllListed(s);
    if step.CollectStep? {
      CollectTakesAll(s, step.size);
    } else {
      var r := s.(slots := s.slots - {step.server});
      CollectTakesAll(r, step.size - 1);
      CollectConserves(r, step.size - 1, s.slots[step.server].msg);
    }
  }
}
