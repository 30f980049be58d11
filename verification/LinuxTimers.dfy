/** Timers of waiting workers over whole runs of the Linux protocol. */
module LinuxTimers {
  import opened Events
  import opened Lists
  import opened LinuxProtocol
  import opened LinuxSafety
  import opened LinuxRuns

  predicate CanFire(s: State, w: Tid) { CanAct(s, WorkerTimeout(w)) }

  /** The worker starts a wait, swaps, or goes back into its loop: with a timeout? */
  predicate Sets(s: State, step: Step, w: Tid, timed: bool)
  {
    match step
    case WorkerWait(t, b) => t == w && b == timed
    case SwitchFromWorker(t, next, b) => t == w && next in s.status && b == timed
    case Reenter(t, limit) => t == w && !limit.NoLimit? == timed
    case _ => false
  }

  lemma IdleIsServer(s: State)
    requires Inv(s)
    ensures s.idleServers != [] ==> s.Is(s.idleServers[0], SIdle)
  {
    hide Bijection, Mailboxes, WorkerList, Tokens, Timers;
    if s.idleServers != [] { assert s.idleServers[0] in s.idleServers; }
  }

  /** What makes a worker able to time out, and unable to. */
  lemma CanFireIffTimed(s: State, step: Step, w: Tid, timed: bool)
    requires Inv(s) && CanAct(s, step) && UserRule(s, step) && Apply(s, step).Live? && Sets(s, step, w, timed)
    requires w in s.status && !IsServer(s.status[w])
    ensures CanFire(Apply(s, step).state, w) <==> timed
  {
    hide Inv;
    if !step.Reenter? {
      RunningFacts(s, w);
      NotFiring(s, w);
    }
    if step.SwitchFromWorker? {
      SafeTargetIsRunnable(s, step.next);
      IdleIsServer(s);
    }
  }

  lemma NotFiring(s: State, w: Tid)
    requires Inv(s) && w in s.status && (s.Is(w, WRunning) || s.Is(w, WBlocked) || s.Is(w, WWaking))
    ensures w !in s.armed
  {
    hide Bijection, Mailboxes, ServerList, WorkerList, Tokens;
  }

  // ----------------------------------------------------- who can be interrupted

  /** The worker starts to wait or swaps itself out. */
  predicate Enters(s: State, step: Step, w: Tid)
  {
    match step
    case WorkerWait(t, _) => t == w
    case SwitchFromWorker(t, next, _) => t == w && next in s.status
    case _ => false
  }

  /** Its wait is over for a signal: it has timed out or is switched to. */
  predicate Quits(s: State, step: Step, w: Tid)
  {
    match step
    case WorkerTimeout(t) => t == w
    case SwitchFromServer(_, next) => next == w && w in s.status
    case SwitchFromWorker(_, next, _) => next == w && w in s.status
    case _ => false
  }

  lemma WaitingIs(s: State, step: Step, w: Tid)
    requires CanAct(s, step) && UserRule(s, step) && Apply(s, step).Live?
    ensures w in Apply(s, step).state.waiting <==>
            (Enters(s, step, w) || w in s.waiting) && !Quits(s, step, w)
  {
    hide HasNext, CollectIdle;
    if step.Collect? { CollectWaiting(s, step.t, step.size); }
  }

  lemma {:induction false} CollectIdleWaiting(s: State, size: int)
    requires CollectIdle(s, size).Live?
    ensures CollectIdle(s, size).state.waiting == s.waiting
    decreases |s.idleWorkers|
  {
    if size > 1 && s.idleWorkers != [] {
      CollectIdleWaiting(CollectOne(s).state, size - |Owed(s.status[s.idleWorkers[0]])|);
    }
  }

  lemma CollectWaiting(s: State, t: Tid, size: int)
    requires Apply(s, Collect(t, size)).Live?
    ensures Apply(s, Collect(t, size)).state.waiting == s.waiting
  {
    hide CollectIdle;
    var s0 := s.(inLoop := s.inLoop - {t});
    if size > 0 {
      if t in s.mail {
        CollectIdleWaiting(Learn(s0.(mail := s.mail - {t}), s.mail[t].worker, [s.mail[t].event]), size - 1);
      } else {
        CollectIdleWaiting(s0, size);
      }
    }
  }

  function TimesSet(s: State, steps: seq<Step>, w: Tid): nat
    decreases |steps|
  {
    if steps == [] then 0
    else One(Sets(s, steps[0], w, true))
         + match Apply(s, steps[0])
           case Killed => 0
           case Live(s1) => TimesSet(s1, steps[1..], w)
  }

  function TimesFired(steps: seq<Step>, w: Tid): nat
  {
    if steps == [] then 0 else One(steps[0] == WorkerTimeout(w)) + TimesFired(steps[1..], w)
  }

  lemma {:induction false} CollectIdleTimers(s: State, size: int, w: Tid)
    requires Timers(s.status, s.armed) && CollectIdle(s, size).Live? && CanFire(CollectIdle(s, size).state, w)
    ensures CanFire(s, w)
    decreases |s.idleWorkers|
  {
    if size > 1 && s.idleWorkers != [] {
      CollectOneTimers(s, w);
      CollectIdleTimers(CollectOne(s).state, size - |Owed(s.status[s.idleWorkers[0]])|, w);
    }
  }

  lemma CollectOneTimers(s: State, w: Tid)
    requires Timers(s.status, s.armed) && s.idleWorkers != [] && CollectOne(s).Live?
    ensures Timers(CollectOne(s).state.status, CollectOne(s).state.armed)
    ensures CanFire(CollectOne(s).state, w) ==> CanFire(s, w)
  {
    var x := s.idleWorkers[0];
    assert Listed(s.status, x);
    CollectTimers(s.status, x, CollectOne(s).state.status, s, CollectOne(s).state.armed);
  }

  lemma CollectFires(s: State, t: Tid, size: int, w: Tid)
    requires Inv(s) && Apply(s, Collect(t, size)).Live? && CanFire(Apply(s, Collect(t, size)).state, w)
    requires t in s.mail ==> s.mail[t].event != Timeout
    ensures CanFire(s, w)
  {
    hide Bijection, Mailboxes, ServerList, WorkerList, Tokens;
    var s0 := s.(inLoop := s.inLoop - {t});
    if size > 0 {
      if t in s.mail {
        CollectIdleTimers(Learn(s0.(mail := s.mail - {t}), s.mail[t].worker, [s.mail[t].event]), size - 1, w);
      } else {
        CollectIdleTimers(s0, size, w);
      }
    }
  }

  lemma MailIsNoTimeout(s: State, t: Tid)
    requires Inv(s) && t in s.mail
    ensures s.mail[t].event != Timeout
  {
    hide Bijection, ServerList, WorkerList, Tokens, Timers;
  }

  lemma FiredIsSpent(s: State, w: Tid)
    requires Inv(s) && CanFire(s, w) && Apply(s, WorkerTimeout(w)).Live?
    ensures !CanFire(Apply(s, WorkerTimeout(w)).state, w)
  {
    hide Inv;
    IdleIsServer(s);
  }

  /** A worker leaves its server: nobody else changes. */
  lemma LeaveTouches(s: State, step: Step, w: Tid)
    requires Inv(s) && Apply(s, step).Live?
    requires step.WorkerWait? || step.WorkerPreempt? || step.WorkerBlock? || step.Unregister?
    requires s.Is(step.t, WRunning)
    requires w in s.status && w != step.t && !s.Is(w, SAttached)
    ensures Apply(s, step).state.Is(w, s.status[w])
  {
    hide Inv;
    RunningFacts(s, step.t);
  }

  lemma SwapTouches(s: State, step: Step, w: Tid)
    requires Inv(s) && CanAct(s, step) && UserRule(s, step) && Apply(s, step).Live? && step.SwitchFromWorker?
    requires w in s.status && w != step.t && w != step.next && !s.Is(w, SIdle)
    ensures Apply(s, step).state.Is(w, s.status[w])
  {
    hide Inv;
    IdleIsServer(s);
    if step.next in s.status { SafeTargetIsRunnable(s, step.next); }
  }

  /** A worker that is off its CPU is moved only by its own timer, a switch to it, its
      own waking up or a collection. */
  lemma OthersDoNotTouch(s: State, step: Step, w: Tid)
    requires Inv(s) && CanAct(s, step) && UserRule(s, step) && Apply(s, step).Live? && !step.Collect?
    requires w in s.status && !IsServer(s.status[w]) && !s.Is(w, WRunning) && !s.Is(w, WBlocked)
    requires step != WorkerTimeout(w) && !Quits(s, step, w)
    ensures Apply(s, step).state.Is(w, s.status[w])
  {
    hide Inv, WakeServer;
    IdleIsServer(s);
    match step {
      case SwitchFromWorker(_, _, _) => SwapTouches(s, step, w);
      case SwitchFromServer(t, next) => if next in s.status { SafeTargetIsRunnable(s, next); }
      case WorkerWait(_, _) => LeaveTouches(s, step, w);
      case WorkerPreempt(_) => LeaveTouches(s, step, w);
      case WorkerBlock(_) => LeaveTouches(s, step, w);
      case Unregister(t) => if s.Is(t, WRunning) { LeaveTouches(s, step, w); }
      case _ =>
    }
  }

  /** A worker whose timer has fired stays so until it is collected. */
  lemma TimedOutStays(s: State, step: Step, w: Tid)
    requires Inv(s) && CanAct(s, step) && UserRule(s, step) && Apply(s, step).Live? && !step.Collect?
    requires s.Is(w, WRunnableTimeout) || s.Is(w, WSwappingTimeout)
    ensures Apply(s, step).state.Is(w, s.status[w])
  {
    hide Inv, Apply;
    match step {
      case SwitchFromWorker(_, next, _) => if next in s.status { SafeTargetIsRunnable(s, next); }
      case SwitchFromServer(_, next) => if next in s.status { SafeTargetIsRunnable(s, next); }
      case _ =>
    }
    OthersDoNotTouch(s, step, w);
  }

  lemma NewlyArmed(s: State, step: Step, w: Tid)
    requires CanAct(s, step) && UserRule(s, step) && Apply(s, step).Live? && !step.Collect?
    requires w in Apply(s, step).state.armed && w !in s.armed
    ensures Sets(s, step, w, true)
  {
    hide HasNext;
  }

  lemma ArmedIs(s: State, w: Tid)
    requires Inv(s) && w in s.armed && !CanFire(s, w)
    ensures s.Is(w, WRunnableTimeout) || s.Is(w, WSwappingTimeout)
  {
    hide Bijection, Mailboxes, ServerList, WorkerList, Tokens;
  }

  /** Nothing but the worker's own call, with a timeout, makes its timer run. */
  lemma OnlyCallsSet(s: State, step: Step, w: Tid)
    requires Inv(s) && CanAct(s, step) && UserRule(s, step) && Apply(s, step).Live?
    requires CanFire(Apply(s, step).state, w) && !CanFire(s, w)
    ensures Sets(s, step, w, true)
  {
    if step.Collect? {
      hide Inv;
      if step.t in s.mail { MailIsNoTimeout(s, step.t); }
      CollectFires(s, step.t, step.size, w);
    } else {
      hide Inv, Apply, UserRule;
      if w in s.armed {
        ArmedIs(s, w);
        TimedOutStays(s, step, w);
      } else {
        NewlyArmed(s, step, w);
      }
    }
  }

  lemma CanActIs(s: State, w: Tid)
    ensures CanFire(s, w) <==> CanAct(s, WorkerTimeout(w))
  {
  }

  lemma {:induction false} FiredFrom(s: State, steps: seq<Step>, w: Tid)
    requires Inv(s) && Legal(s, steps)
    ensures Exec(s, steps).Live?
    ensures TimesFired(steps, w) + One(CanFire(Exec(s, steps).state, w)) <= TimesSet(s, steps, w) + One(CanFire(s, w))
    decreases |steps|
  {
    hide Inv, Apply, UserRule, Sets, CanFire;
    if steps == [] {
    } else {
      StepKeeps(s, steps[0]);
      var r := Apply(s, steps[0]).state;
      if CanFire(r, w) && !CanFire(s, w) { OnlyCallsSet(s, steps[0], w); }
      FiredFrom(r, steps[1..], w);
      if steps[0] == WorkerTimeout(w) {
        CanActIs(s, w);
        FiredIsSpent(s, w);
      }
    }
  }

  /** In every legal run a worker has timed out no more often than it has waited,
      swapped or gone back into its loop with a timeout: a TIMEOUT that has been
      reported spends the timer. */
  lemma FiresOncePerTimeout(steps: seq<Step>, w: Tid)
    requires Legal(INITIAL, steps)
    ensures TimesFired(steps, w) <= TimesSet(INITIAL, steps, w)
  {
    InitialInv();
    FiredFrom(INITIAL, steps, w);
  }

  /** A worker that a signal can take out of its wait is parked or swapping. */
  predicate WaitsRightly(s: State, w: Tid) { w in s.waiting ==> s.Is(w, WRunnable) || s.Is(w, WSwapping) }

  lemma {:induction false} CollectIdleParks(s: State, size: int, w: Tid)
    requires CollectIdle(s, size).Live? && (s.Is(w, WRunnable) || s.Is(w, WSwapping))
    ensures var r := CollectIdle(s, size).state; r.Is(w, WRunnable) || r.Is(w, WSwapping)
    decreases |s.idleWorkers|
  {
    if size > 1 && s.idleWorkers != [] {
      CollectIdleParks(CollectOne(s).state, size - |Owed(s.status[s.idleWorkers[0]])|, w);
    }
  }

  lemma CollectParks(s: State, t: Tid, size: int, w: Tid)
    requires Apply(s, Collect(t, size)).Live? && (s.Is(w, WRunnable) || s.Is(w, WSwapping))
    ensures var r := Apply(s, Collect(t, size)).state; r.Is(w, WRunnable) || r.Is(w, WSwapping)
  {
    hide CollectIdle;
    var s0 := s.(inLoop := s.inLoop - {t});
    if size > 0 {
      if t in s.mail {
        CollectIdleParks(Learn(s0.(mail := s.mail - {t}), s.mail[t].worker, [s.mail[t].event]), size - 1, w);
      } else {
        CollectIdleParks(s0, size, w);
      }
    }
  }

  lemma EntersParked(s: State, step: Step, w: Tid)
    requires Inv(s) && CanAct(s, step) && UserRule(s, step) && Apply(s, step).Live? && Enters(s, step, w)
    ensures var r := Apply(s, step).state; r.Is(w, WRunnable) || r.Is(w, WSwapping)
  {
    hide Inv;
    RunningFacts(s, w);
    IdleIsServer(s);
    if step.SwitchFromWorker? { SafeTargetIsRunnable(s, step.next); }
  }

  lemma WaitsRightlyStep(s: State, step: Step, w: Tid)
    requires Inv(s) && CanAct(s, step) && UserRule(s, step) && Apply(s, step).Live? && WaitsRightly(s, w)
    ensures WaitsRightly(Apply(s, step).state, w)
  {
    hide Inv, Apply, CanAct, UserRule;
    WaitingIs(s, step, w);
    if w in Apply(s, step).state.waiting {
      if Enters(s, step, w) {
        EntersParked(s, step, w);
      } else if step.Collect? {
        CollectParks(s, step.t, step.size, w);
      } else {
        OthersDoNotTouch(s, step, w);
      }
    }
  }

  /** Whether the worker is in an interruptible wait after a run: the last that
      happened of it entering one and quitting one was entering. */
  function Interruptible(waits: bool, s: State, steps: seq<Step>, w: Tid): bool
    decreases |steps|
  {
    if steps == [] then waits
    else match Apply(s, steps[0])
         case Killed => waits
         case Live(s1) =>
           Interruptible((Enters(s, steps[0], w) || waits) && !Quits(s, steps[0], w), s1, steps[1..], w)
  }

  lemma {:induction false} InterruptibleFrom(s: State, steps: seq<Step>, w: Tid)
    requires Inv(s) && Legal(s, steps) && WaitsRightly(s, w)
    ensures Exec(s, steps).Live?
    ensures var f := Exec(s, steps).state;
            WaitsRightly(f, w) && (w in f.waiting <==> Interruptible(w in s.waiting, s, steps, w))
    decreases |steps|
  {
    hide Inv, Apply, CanAct, UserRule, Enters, Quits, WaitsRightly;
    if steps == [] {
    } else {
      StepKeeps(s, steps[0]);
      WaitingIs(s, steps[0], w);
      WaitsRightlyStep(s, steps[0], w);
      InterruptibleFrom(Apply(s, steps[0]).state, steps[1..], w);
    }
  }

  /** A signal can take a worker out of its wait, and back in with any timeout, exactly
      from when it starts to wait or swaps until it times out or is switched to. */
  lemma CanReenterIff(steps: seq<Step>, w: Tid, limit: Limit)
    requires Legal(INITIAL, steps) && Exec(INITIAL, steps).Live?
    requires var f := Exec(INITIAL, steps).state; w in f.status && !IsServer(f.status[w])
    ensures CanAct(Exec(INITIAL, steps).state, Reenter(w, limit)) <==> Interruptible(false, INITIAL, steps, w)
  {
    InitialInv();
    hide Legal, Exec, Interruptible;
    InterruptibleFrom(INITIAL, steps, w);
  }
}
