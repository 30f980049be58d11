/** What every worker goes through over whole runs of the klib protocol, and what that
    means for its return value and for whether it can block. */
module KlibHistory {
  import opened Events
  import opened KlibProtocol
  import opened KlibSafety
  import opened KlibRuns

  // ----------------------------------------------- histories and return values

  /** What a step puts worker `t` through, as the caller sees it. */
  function Acts(s: State, step: Step, t: Tid): seq<Act>
  {
    match step
    case Register(x, id) => if x == t && ValidId(id) && x !in s.workers then [Out(Wake)] else []
    case Unregister(x) => if x == t && x in s.workers then [Out(Exit)] else []
    case WaitStep(x, _) => if x == t && x in s.workers then [Out(Wait)] else []
    case SwitchFromServer(_, next, size) =>
      if next == t && size > 0 && (s.Is(next, Runnable) || s.Is(next, Waiting)) then [In] else []
    case SwitchFromWorker(x, next, _) =>
      if x in s.workers && s.Is(next, Runnable)
      then (if x == t then [Out(Wait)] else []) + if next == t then [In] else []
      else []
    case SyscallPause(x) => if x == t && s.Is(x, Paused) then [Out(Block)] else []
    case ScheduleReturn(x, late) =>
      if x != t || x !in s.workers then []
      else if s.Is(x, Blocked) then [Out(Wake)]
      else if late then [Out(Preempt)] else []
    case TimerFires(x) => if x == t && (s.Is(x, Waiting) || s.Is(x, Idle)) then [Out(Timeout)] else []
    case _ => []
  }

  function AllActs(s: State, steps: seq<Step>, t: Tid): seq<Act>
    decreases |steps|
  {
    if steps == [] then []
    else Acts(s, steps[0], t)
         + match Apply(s, steps[0])
           case Wild => []
           case Live(s1) => AllActs(s1, steps[1..], t)
  }

  lemma {:induction false} CollectFrame(s: State, size: int, t: Tid)
    ensures var r := Collect(s, size).0;
            && r.history == s.history && (t in r.workers <==> t in s.workers)
            && (t in s.workers ==> r.workers[t].timedOut == s.workers[t].timedOut)
    decreases |s.idle|
  {
    if size > 1 && s.idle != [] && s.idle[0] in s.workers {
      CollectFrame(TakeOne(s), size - |Owed(s.workers[s.idle[0]])|, t);
    }
  }

  lemma LogOne(s: State, x: Tid, a: Act, t: Tid)
    ensures Logged(s.Log(x, a).history, t) == Logged(s.history, t) + if x == t then [a] else []
  {
  }

  lemma IdleLogs(s: State, x: Tid, e: Event, t: Tid)
    requires x in s.workers
    ensures Logged(EventIdle(s, x, e).history, t) == Logged(s.history, t) + if x == t then [Out(e)] else []
    ensures EventIdle(s, x, e).workers == s.workers[x := s.workers[x].(event := e)]
  {
    LogOne(s, x, Out(e), t);
  }

  lemma ServerLogs(s: State, v: Sid, x: Tid, e: Event, t: Tid)
    requires EventToServer(s, v, x, e).Live?
    ensures Logged(EventToServer(s, v, x, e).state.history, t)
            == Logged(s.history, t) + if x == t then [Out(e)] else []
    ensures EventToServer(s, v, x, e).state.workers == s.workers
  {
    LogOne(s, x, Out(e), t);
  }

  lemma SwitchLogs(s: State, next: Tid, v: Sid, t: Tid)
    requires next in s.workers
    ensures Logged(SwitchIn(s, next, v).history, t) == Logged(s.history, t) + if next == t then [In] else []
    ensures SwitchIn(s, next, v).workers
            == s.workers[next := s.workers[next].(status := Running, server := v, timer := false)]
  {
    LogOne(s, next, In, t);
  }

  lemma SwapLogs(s: State, x: Tid, next: Tid, timed: bool, t: Tid)
    requires x in s.workers && s.Is(next, Runnable)
    ensures Logged(Apply(s, SwitchFromWorker(x, next, timed)).state.history, t)
            == Logged(s.history, t) + Acts(s, SwitchFromWorker(x, next, timed), t)
  {
    var w := s.workers[x].(status := Idle, timer := timed, timedOut := false);
    IdleLogs(s.Put(x, w), x, Wait, t);
    SwitchLogs(EventIdle(s.Put(x, w), x, Wait), next, w.server, t);
    hide EventIdle, SwitchIn, Logged;
    var h, a, b := Logged(s.history, t), if x == t then [Out(Wait)] else [], if next == t then [In] else [];
    assert h + (a + b) == (h + a) + b;
  }

  lemma ReturnLogs(s: State, x: Tid, late: bool, t: Tid)
    requires Apply(s, ScheduleReturn(x, late)).Live?
    ensures Logged(Apply(s, ScheduleReturn(x, late)).state.history, t)
            == Logged(s.history, t) + Acts(s, ScheduleReturn(x, late), t)
  {
    hide EventIdle, EventToServer, Logged;
    if x in s.workers {
      if s.Is(x, Blocked) {
        IdleLogs(s.Put(x, s.workers[x].(status := Idle)), x, Wake, t);
      } else if late {
        ServerLogs(s.Put(x, s.workers[x].(status := Runnable)), s.workers[x].server, x, Preempt, t);
      }
    }
  }

  lemma TimerLogs(s: State, x: Tid, t: Tid)
    ensures Logged(Apply(s, TimerFires(x)).state.history, t) == Logged(s.history, t) + Acts(s, TimerFires(x), t)
  {
    hide EventIdle, Logged;
    if x in s.workers {
      var w := s.workers[x].(timer := false);
      if w.status.Waiting? {
        IdleLogs(s.Put(x, w.(status := Idle, timedOut := true)), x, Timeout, t);
      } else if w.status.Idle? {
        LogOne(s.Put(x, w.(status := IdleTimeout, timedOut := true)), x, Out(Timeout), t);
      }
    }
  }

  lemma ActsAreLogged(s: State, step: Step, t: Tid)
    requires Apply(s, step).Live?
    ensures Logged(Apply(s, step).state.history, t) == Logged(s.history, t) + Acts(s, step, t)
  {
    hide Collect, Owed, EventIdle, EventToServer, SwitchIn, Logged;
    match step {
      case Register(x, id) =>
        if ValidId(id) && x !in s.workers {
          IdleLogs(s.Put(x, Worker(id, Idle, Wake, 0, false, false)), x, Wake, t);
        }
      case Unregister(x) =>
        if x in s.workers { ServerLogs(s.(workers := s.workers - {x}), s.workers[x].server, x, Exit, t); }
      case WaitStep(x, timed) =>
        if x in s.workers {
          var w := s.workers[x].(status := Waiting, timer := timed, timedOut := false);
          ServerLogs(s.Put(x, w), w.server, x, Wait, t);
        }
      case SwitchFromServer(v, next, _) => if next in s.workers { SwitchLogs(s, next, v, t); }
      case SwitchFromWorker(x, next, timed) =>
        if x in s.workers && s.Is(next, Runnable) { SwapLogs(s, x, next, timed, t); }
      case Pause(_) =>
      case SyscallPause(x) =>
        if s.Is(x, Paused) {
          ServerLogs(s.Put(x, s.workers[x].(status := Blocked)), s.workers[x].server, x, Block, t);
        }
      case ScheduleReturn(x, late) => ReturnLogs(s, x, late, t);
      case TimerFires(x) => TimerLogs(s, x, t);
      case CollectStep(size) => CollectFrame(s, size, t);
      case SwitchReturn(v, size) => CollectFrame(s.(slots := s.slots - {v}), size - 1, t);
    }
  }

  lemma {:induction false} RunIsLogged(s: State, steps: seq<Step>, t: Tid)
    requires Exec(s, steps).Live?
    ensures Logged(Exec(s, steps).state.history, t) == Logged(s.history, t) + AllActs(s, steps, t)
    decreases |steps|
  {
    hide Apply, Acts;
    if steps == [] {
    } else {
      ActsAreLogged(s, steps[0], t);
      RunIsLogged(Apply(s, steps[0]).state, steps[1..], t);
    }
  }

  /** The history of every worker in every run is what it went through: which call or
      hook reported what, in this order. */
  lemma HistoryIsWhatHappened(steps: seq<Step>, t: Tid)
    requires Legal(INITIAL, steps)
    ensures Exec(INITIAL, steps).Live?
    ensures Logged(Exec(INITIAL, steps).state.history, t) == AllActs(INITIAL, steps, t)
  {
    NoWildWrite(steps);
    RunIsLogged(INITIAL, steps, t);
  }

  /** The last WAIT, TIMEOUT or EXIT is a TIMEOUT. */
  predicate TimedOutLast(h: seq<Act>)
  {
    h != [] &&
    match h[|h| - 1]
    case Out(Timeout) => true
    case Out(Wait) => false
    case Out(Exit) => false
    case _ => TimedOutLast(h[..|h| - 1])
  }

  lemma TimedOutSnoc(h: seq<Act>, a: Act)
    ensures TimedOutLast(h + [a]) ==
            (a == Out(Timeout) || (a != Out(Wait) && a != Out(Exit) && TimedOutLast(h)))
  {
    assert (h + [a])[..|h|] == h;
  }

  /** What `acts` make of a return value. */
  function Settle(timedOut: bool, acts: seq<Act>): bool
    decreases acts
  {
    if acts == [] then timedOut
    else Settle(acts[0] == Out(Timeout) || (acts[0] != Out(Wait) && acts[0] != Out(Exit) && timedOut), acts[1..])
  }

  lemma {:induction false} TimedOutAppend(h: seq<Act>, acts: seq<Act>)
    ensures TimedOutLast(h + acts) == Settle(TimedOutLast(h), acts)
    decreases |acts|
  {
    if acts == [] {
      assert h + acts == h;
    } else {
      assert h + acts == (h + [acts[0]]) + acts[1..];
      TimedOutSnoc(h, acts[0]);
      hide TimedOutLast;
      TimedOutAppend(h + [acts[0]], acts[1..]);
    }
  }

  /** -ETIMEDOUT is what the worker will resume with. */
  predicate Value(s: State, t: Tid) { t in s.workers && s.workers[t].timedOut }

  predicate ValueOk(s: State, t: Tid) { Value(s, t) <==> TimedOutLast(Logged(s.history, t)) }

  lemma SwapSettles(s: State, x: Tid, next: Tid, timed: bool, t: Tid)
    requires x in s.workers && x != next && s.Is(next, Runnable)
    ensures Value(Apply(s, SwitchFromWorker(x, next, timed)).state, t) <==> x != t && Value(s, t)
  {
    var w := s.workers[x].(status := Idle, timer := timed, timedOut := false);
    IdleLogs(s.Put(x, w), x, Wait, t);
    SwitchLogs(EventIdle(s.Put(x, w), x, Wait), next, w.server, t);
    hide EventIdle, SwitchIn, Logged;
  }

  predicate OwnStep(step: Step)
  {
    match step
    case Register(_, _) => true
    case Unregister(_) => true
    case WaitStep(_, _) => true
    case Pause(_) => true
    case SyscallPause(_) => true
    case ScheduleReturn(_, _) => true
    case TimerFires(_) => true
    case _ => false
  }

  /** Such a step leaves all other workers alone. */
  lemma OwnStepTouches(s: State, step: Step, t: Tid)
    requires OwnStep(step) && step.t != t && Apply(s, step).Live?
    ensures var r := Apply(s, step).state;
            (t in r.workers <==> t in s.workers) && (t in s.workers ==> r.workers[t] == s.workers[t])
  {
  }

  lemma OwnStepSettles(s: State, step: Step)
    requires OwnStep(step) && CanAct(s, step) && Apply(s, step).Live?
    ensures Value(Apply(s, step).state, step.t) == Settle(Value(s, step.t), Acts(s, step, step.t))
  {
    var acts := Acts(s, step, step.t);
    assert |acts| == 1 ==> acts[1..] == [];
    hide Logged;
  }

  lemma ValueSettles(s: State, step: Step, t: Tid)
    requires CanAct(s, step) && Apply(s, step).Live?
    ensures Value(Apply(s, step).state, t) == Settle(Value(s, t), Acts(s, step, t))
  {
    hide Collect, Owed, SwitchIn, EventIdle, EventToServer, Logged;
    if OwnStep(step) {
      if step.t == t { OwnStepSettles(s, step); } else { OwnStepTouches(s, step, t); }
    } else {
      var acts := Acts(s, step, t);
      assert |acts| == 1 ==> acts[1..] == [];
      match step {
        case SwitchFromServer(v, next, _) => if next in s.workers { SwitchLogs(s, next, v, t); }
        case SwitchFromWorker(x, next, timed) => if s.Is(next, Runnable) { SwapSettles(s, x, next, timed, t); }
        case CollectStep(size) => CollectFrame(s, size, t);
        case SwitchReturn(v, size) => CollectFrame(s.(slots := s.slots - {v}), size - 1, t);
      }
    }
  }

  lemma ValueStep(s: State, step: Step, t: Tid)
    requires CanAct(s, step) && Apply(s, step).Live? && ValueOk(s, t)
    ensures ValueOk(Apply(s, step).state, t)
  {
    hide TimedOutLast, Logged, Apply, CanAct, Acts, Value;
    ActsAreLogged(s, step, t);
    TimedOutAppend(Logged(s.history, t), Acts(s, step, t));
    ValueSettles(s, step, t);
  }

  lemma {:induction false} ValueRun(s: State, steps: seq<Step>, t: Tid)
    requires Legal(s, steps) && Exec(s, steps).Live? && ValueOk(s, t)
    ensures ValueOk(Exec(s, steps).state, t)
    decreases |steps|
  {
    hide Apply, CanAct, ValueOk;
    if steps == [] {
    } else {
      ValueStep(s, steps[0], t);
      ValueRun(Apply(s, steps[0]).state, steps[1..], t);
    }
  }

  /** In every reachable state the value a registered worker will resume with is
      -ETIMEDOUT if and only if, of the WAITs, TIMEOUTs and EXITs in its history, the
      last is a TIMEOUT. */
  lemma ReturnsTimedOutIff(s: State, t: Tid)
    requires Reachable(s) && t in s.workers
    ensures s.workers[t].timedOut <==> TimedOutLast(Logged(s.history, t))
  {
    var steps :| Legal(INITIAL, steps) && Exec(INITIAL, steps) == Live(s);
    ValueRun(INITIAL, steps, t);
  }

  /** A wait or swap lets a timer fire if and only if it was given a timeout. */
  lemma CanFireIffTimed(s: State, step: Step)
    requires Reachable(s) && CanAct(s, step) && Apply(s, step).Live?
    requires step.WaitStep? || (step.SwitchFromWorker? && s.Is(step.next, Runnable))
    ensures CanAct(Apply(s, step).state, TimerFires(step.t)) <==> step.timed
  {
  }

  // ------------------------------------------------------------- paused or not

  /** What the steps of a run make of whether an executing worker is paused inside a
      system call: its pause hook says yes, being resumed or switched to says no. */
  function PausedAfter(paused: bool, s: State, steps: seq<Step>, t: Tid): bool
    decreases |steps|
  {
    if steps == [] then paused
    else match Apply(s, steps[0])
         case Wild => paused
         case Live(s1) => PausedAfter(PausedBy(paused, s, steps[0], t), s1, steps[1..], t)
  }

  function PausedBy(paused: bool, s: State, step: Step, t: Tid): bool
  {
    if In in Acts(s, step, t) then false
    else
      match step
      case Pause(x) => x == t || paused
      case ScheduleReturn(x, _) => x != t && paused
      case _ => paused
  }

  predicate PauseOk(s: State, t: Tid, paused: bool) { s.Executes(t) ==> (s.Is(t, Paused) <==> paused) }

  lemma {:induction false} CollectNeverExecutes(s: State, size: int, t: Tid)
    requires Collect(s, size).0.Executes(t)
    ensures t in s.workers && s.Is(t, Collect(s, size).0.workers[t].status)
    decreases |s.idle|
  {
    if size > 1 && s.idle != [] && s.idle[0] in s.workers {
      CollectNeverExecutes(TakeOne(s), size - |Owed(s.workers[s.idle[0]])|, t);
    }
  }

  lemma SwapPauses(s: State, x: Tid, next: Tid, timed: bool, t: Tid)
    requires x in s.workers && x != next && s.Is(next, Runnable)
    ensures var r := Apply(s, SwitchFromWorker(x, next, timed)).state;
            if t == next then r.Is(t, Running) else if t == x then r.Is(t, Idle)
            else (t in r.workers <==> t in s.workers) && (t in s.workers ==> r.Is(t, s.workers[t].status))
  {
    var w := s.workers[x].(status := Idle, timer := timed, timedOut := false);
    IdleLogs(s.Put(x, w), x, Wait, t);
    SwitchLogs(EventIdle(s.Put(x, w), x, Wait), next, w.server, t);
    hide EventIdle, SwitchIn, Logged;
  }

  lemma OwnStepPauses(s: State, step: Step, paused: bool)
    requires OwnStep(step) && CanAct(s, step) && Apply(s, step).Live? && PauseOk(s, step.t, paused)
    ensures PauseOk(Apply(s, step).state, step.t, PausedBy(paused, s, step, step.t))
  {
    hide Logged;
  }

  lemma PauseStep(s: State, step: Step, t: Tid, paused: bool)
    requires CanAct(s, step) && Apply(s, step).Live? && PauseOk(s, t, paused)
    ensures PauseOk(Apply(s, step).state, t, PausedBy(paused, s, step, t))
  {
    hide Collect, Owed, SwitchIn, Logged, EventIdle, EventToServer;
    var r := Apply(s, step).state;
    if OwnStep(step) {
      if step.t == t { OwnStepPauses(s, step, paused); } else { OwnStepTouches(s, step, t); }
    } else {
      match step {
        case SwitchFromServer(v, next, _) => if next in s.workers { SwitchLogs(s, next, v, t); }
        case SwitchFromWorker(x, next, timed) => if s.Is(next, Runnable) { SwapPauses(s, x, next, timed, t); }
        case CollectStep(size) => if r.Executes(t) { CollectNeverExecutes(s, size, t); }
        case SwitchReturn(v, size) =>
          if r.Executes(t) && v in s.slots && s.slots[v].Full? {
            CollectNeverExecutes(s.(slots := s.slots - {v}), size - 1, t);
          }
      }
    }
  }

  lemma {:induction false} PauseRun(s: State, steps: seq<Step>, t: Tid, paused: bool)
    requires Legal(s, steps) && Exec(s, steps).Live? && PauseOk(s, t, paused)
    ensures PauseOk(Exec(s, steps).state, t, PausedAfter(paused, s, steps, t))
    decreases |steps|
  {
    hide Apply, CanAct, PauseOk, PausedBy;
    if steps == [] {
    } else {
      PauseStep(s, steps[0], t, paused);
      PauseRun(Apply(s, steps[0]).state, steps[1..], t, PausedBy(paused, s, steps[0], t));
    }
  }

  /** In every run a worker that executes can block if and only if its pause hook has
      run since it was last switched to or resumed. */
  lemma CanBlockIffPaused(steps: seq<Step>, t: Tid)
    requires Legal(INITIAL, steps) && Exec(INITIAL, steps).Live? && Exec(INITIAL, steps).state.Executes(t)
    ensures var s := Exec(INITIAL, steps).state;
            Acts(s, SyscallPause(t), t) == [Out(Block)] <==> PausedAfter(false, INITIAL, steps, t)
  {
    hide Legal, Exec, PausedAfter;
    PauseRun(INITIAL, steps, t, false);
  }
}
