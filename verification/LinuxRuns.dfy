/** The main results about whole runs of the Linux protocol. */
module LinuxRuns {
  import opened Events
  import opened Lists
  import opened LinuxProtocol
  import opened LinuxSafety

  /** Every step of the run is one some thread can take and user space may ask
      for in the state it is taken in. */
  predicate Legal(s: State, steps: seq<Step>)
    decreases |steps|
  {
    steps == [] ||
    (CanAct(s, steps[0]) && UserRule(s, steps[0]) &&
     (Apply(s, steps[0]).Live? ==> Legal(Apply(s, steps[0]).state, steps[1..])))
  }

  function Exec(s: State, steps: seq<Step>): Outcome
    decreases |steps|
  {
    if steps == [] then Live(s)
    else match Apply(s, steps[0])
         case Killed => Killed
         case Live(s1) => Exec(s1, steps[1..])
  }

  ghost predicate Reachable(s: State)
  {
    exists steps :: Legal(INITIAL, steps) && Exec(INITIAL, steps) == Live(s)
  }

  lemma {:induction false} ExecKeeps(s: State, steps: seq<Step>)
    requires Inv(s) && Legal(s, steps)
    ensures Good(Exec(s, steps))
    decreases |steps|
  {
    hide Inv, Apply, CanAct, UserRule;
    if steps != [] {
      StepKeeps(s, steps[0]);
      ExecKeeps(Apply(s, steps[0]).state, steps[1..]);
    }
  }

  /** No legal run of any length over any tasks is killed: no `kill` label, no
      "bad status", no "bad event" and no overwritten mailbox. */
  lemma NoRunIsKilled(steps: seq<Step>)
    requires Legal(INITIAL, steps)
    ensures Exec(INITIAL, steps).Live?
  {
    InitialInv();
    ExecKeeps(INITIAL, steps);
  }

  lemma ReachableInv(s: State)
    requires Reachable(s)
    ensures Inv(s)
  {
    hide Inv;
    var steps :| Legal(INITIAL, steps) && Exec(INITIAL, steps) == Live(s);
    InitialInv();
    ExecKeeps(INITIAL, steps);
  }

  function Those(s: State, st: Status): set<Tid>
  {
    set t | t in s.status && s.status[t] == st
  }

  function RegisteredServers(s: State): set<Tid>
  {
    set t | t in s.status && IsServer(s.status[t])
  }

  /** User space never has more running tasks than it has servers. */
  lemma NoMoreRunningThanServers(s: State)
    requires Reachable(s)
    ensures |Those(s, WRunning)| + |Those(s, SRunning)| <= |RegisteredServers(s)|
  {
    ReachableInv(s);
    InjectiveSize(s.server);
    assert Those(s, WRunning) == s.server.Keys by {
      assert forall w :: w in s.server <==> Has(s.status, w, WRunning);
    }
    assert Those(s, SAttached) == s.server.Values by {
      assert forall t :: t in s.server.Values <==> Has(s.status, t, SAttached);
    }
    RunningServers(s);
  }

  lemma RunningServers(s: State)
    ensures |Those(s, SAttached)| + |Those(s, SRunning)| <= |RegisteredServers(s)|
  {
    var both := Those(s, SAttached) + Those(s, SRunning);
    assert Those(s, SAttached) !! Those(s, SRunning);
    SubsetSize(both, RegisteredServers(s));
  }

  datatype Place = Executing | Sleeping | OnList | InMail | Known | Gone

  ghost predicate At(s: State, w: Tid, p: Place)
  {
    match p
    case Executing => w in s.server
    case Sleeping => s.Is(w, WBlocked)
    case OnList => w in s.idleWorkers && w in s.status && Owed(s.status[w]) != [Timeout]
    case InMail => Announced(s.mail, w)
    case Known => w in s.credit
    case Gone => w in s.lost
  }

  lemma OnePlace(s: State, w: Tid)
    requires Inv(s) && w in s.status && !IsServer(s.status[w])
    ensures exists p :: At(s, w, p)
    ensures forall p, q :: At(s, w, p) && At(s, w, q) ==> p == q
  {
    hide Mailboxes, ServerList, Timers;
    assert w in s.server <==> Has(s.status, w, WRunning);
    hide Bijection;
    assert w in s.idleWorkers <==> Listed(s.status, w);
    hide WorkerList;
    assert Parked(s.status, w) <==> w in Told(s) || Announced(s.mail, w);
    assert !(w in Told(s) && Announced(s.mail, w));
    hide Tokens, Announced;
    var p := match s.status[w]
      case WRunning => Executing
      case WBlocked => Sleeping
      case WRunnable | WRunnableTimeout => if w in s.credit then Known else if w in s.lost then Gone else InMail
      case _ => OnList;
    assert At(s, w, p);
  }

  /** No registered worker is ever lost or available twice: it executes with a
      server, sleeps in the kernel, or exactly one WAKE, WAIT or PREEMPT report
      for it is on the idle list, in one mailbox, with user space, or swallowed by a
      fault. */
  lemma EveryWorkerIsInOnePlace(s: State, w: Tid)
    requires Reachable(s) && w in s.status && !IsServer(s.status[w])
    ensures exists p :: At(s, w, p)
    ensures forall p, q :: At(s, w, p) && At(s, w, q) ==> p == q
    ensures forall t, u :: Announces(s.mail, t, w) && Announces(s.mail, u, w) ==> t == u
  {
    ReachableInv(s);
    OnePlace(s, w);
    hide At, Bijection, Mailboxes, ServerList, WorkerList, Timers;
  }

  lemma GoneIsNowhere(s: State, w: Tid)
    requires Inv(s) && w in s.lost
    ensures Parked(s.status, w) && forall p :: At(s, w, p) <==> p == Gone
  {
    hide Bijection, Mailboxes, ServerList, WorkerList, Timers;
    assert w in Told(s);
    OnePlace(s, w);
    assert At(s, w, Gone);
  }

  lemma {:induction false} CollectIdleLost(s: State, size: int)
    requires CollectIdle(s, size).Live?
    ensures CollectIdle(s, size).state.lost == s.lost
    decreases |s.idleWorkers|
  {
    if size > 1 && s.idleWorkers != [] {
      CollectIdleLost(CollectOne(s).state, size - |Owed(s.status[s.idleWorkers[0]])|);
    }
  }

  lemma LostStays(s: State, step: Step, w: Tid)
    requires w in s.lost && Apply(s, step).Live?
    ensures w in Apply(s, step).state.lost
  {
    hide Without;
    if step.Collect? && step.size > 0 {
      var s0 := s.(inLoop := s.inLoop - {step.t});
      if step.t in s.mail {
        CollectIdleLost(Learn(s0.(mail := s.mail - {step.t}), s.mail[step.t].worker, [s.mail[step.t].event]),
          step.size - 1);
      } else {
        CollectIdleLost(s0, step.size);
      }
    }
  }

  /** A worker whose WAIT or PREEMPT was swallowed is out of the game: in every
      continuation it stays registered, and is never again executing, listed,
      announced or known. */
  lemma {:induction false} GoneForEver(s: State, w: Tid, steps: seq<Step>)
    requires Inv(s) && w in s.lost && Legal(s, steps)
    ensures Exec(s, steps).Live? && Parked(Exec(s, steps).state.status, w)
    ensures forall p :: At(Exec(s, steps).state, w, p) <==> p == Gone
    decreases |steps|
  {
    if steps == [] {
      GoneIsNowhere(s, w);
    } else {
      hide Inv, Apply, CanAct, UserRule, At, Parked;
      StepKeeps(s, steps[0]);
      LostStays(s, steps[0], w);
      GoneForEver(Apply(s, steps[0]).state, w, steps[1..]);
    }
  }

  lemma CreditIsParked(s: State, w: Tid)
    requires Inv(s) && w in s.credit
    ensures s.Is(w, WRunnable) || s.Is(w, WRunnableTimeout)
    ensures w !in s.idleServers
  {
    assert Parked(s.status, w);
  }

  lemma TimedOutSwitch(s: State, t: Tid, w: Tid)
    requires s.Is(w, WRunnable) && w !in s.idleServers
    ensures var o := Apply(s, WorkerTimeout(w));
            o.Live? ==> Apply(o.state, SwitchFromServer(t, w)).Killed?
  {
    var o := Apply(s, WorkerTimeout(w));
    if o.Live? {
      assert o.state.Is(w, WRunnableTimeout) by {
        if s.idleServers != [] { assert s.idleServers[0] in s.idleServers; }
      }
    }
  }

  /** Switching to a worker that user space holds a report for is safe, whatever
      that worker's timer does first, exactly when no timeout is outstanding. */
  lemma SwitchIsSafeIffDisarmed(s: State, t: Tid, w: Tid)
    requires Reachable(s) && UserMode(s, t) && s.Is(t, SRunning) && w in s.credit
    ensures w !in s.armed <==>
            && Apply(s, SwitchFromServer(t, w)).Live?
            && (CanAct(s, WorkerTimeout(w)) ==>
                  var o := Apply(s, WorkerTimeout(w));
                  o.Live? && Apply(o.state, SwitchFromServer(t, w)).Live?)
  {
    hide Inv;
    ReachableInv(s);
    CreditIsParked(s, w);
    if w !in s.armed {
      SwitchFromServerKeeps(s, t, w);
      assert !CanAct(s, WorkerTimeout(w));
    } else if s.Is(w, WRunnable) {
      TimedOutSwitch(s, t, w);
      hide Apply;
      assert CanAct(s, WorkerTimeout(w));
    }
  }

  /** The run is not killed, and no legal run that goes on from here is. */
  ghost predicate Survives(o: Outcome)
  {
    o.Live? && forall steps :: Legal(o.state, steps) ==> Exec(o.state, steps).Live?
  }

  lemma GoodSurvives(o: Outcome)
    requires Good(o)
    ensures Survives(o)
  {
    hide Inv;
    forall steps | Legal(o.state, steps) ensures Exec(o.state, steps).Live? { ExecKeeps(o.state, steps); }
  }

  lemma OneStepRun(s: State, step: Step)
    requires CanAct(s, step) && UserRule(s, step)
    ensures Legal(s, [step]) && Exec(s, [step]) == Apply(s, step)
  {
    hide Apply, CanAct, UserRule;
    assert [step][1..] == [];
  }

  lemma TwoStepRun(s: State, a: Step, b: Step)
    requires CanAct(s, a) && UserRule(s, a) && Apply(s, a).Live?
    requires CanAct(Apply(s, a).state, b) && UserRule(Apply(s, a).state, b)
    ensures Legal(s, [a, b]) && Exec(s, [a, b]) == Apply(Apply(s, a).state, b)
  {
    OneStepRun(Apply(s, a).state, b);
    hide Apply, CanAct, UserRule;
    assert [a, b][1..] == [b];
  }

  lemma ServedWorker(s: State, t: Tid) returns (w: Tid)
    requires Inv(s) && s.Is(t, SAttached)
    ensures s.Is(w, WRunning) && w in s.server && s.server[w] == t && w != t && t in s.inLoop
  {
    hide ServerList, WorkerList, Tokens, Timers;
    assert t in s.server.Values;
    w :| w in s.server && s.server[w] == t;
  }

  lemma ReportKills(s: State, w: Tid, timed: bool)
    requires s.Is(w, WRunning) && w in s.server && s.server[w] != w && s.Is(s.server[w], SRunning)
    ensures Apply(s, WorkerBlock(w)).Killed? && Apply(s, WorkerPreempt(w)).Killed?
    ensures Apply(s, WorkerWait(w, timed)).Killed? && Apply(s, Unregister(w)).Killed?
  {
  }

  /** With its server no longer ATTACHED, the worker's next report kills. */
  lemma PollKills(s: State, t: Tid, w: Tid)
    requires s.Is(t, SAttached) && s.Is(w, WRunning) && w in s.server && s.server[w] == t && w != t
    ensures !Survives(Apply(s, Reenter(t, Poll)))
  {
    var r := Apply(s, Reenter(t, Poll)).state;
    ReportKills(r, w, false);
    OneStepRun(r, WorkerBlock(w));
  }

  lemma LaterKills(s: State, t: Tid, w: Tid)
    requires s.Is(t, SAttached) && s.Is(w, WRunning) && w in s.server && s.server[w] == t && w != t && t in s.inLoop
    ensures !Survives(Apply(s, Reenter(t, Later)))
  {
    var r := Apply(s, Reenter(t, Later)).state;
    var q := Apply(r, ServerTimeout(t)).state;
    ReportKills(q, w, false);
    TwoStepRun(r, ServerTimeout(t), WorkerBlock(w));
  }

  /** A thread that a signal took out of its wait may go back in, whatever happens
      afterwards, if and only if it is not an ATTACHED server with a timeout: that
      timeout would overwrite ATTACHED. */
  lemma ReentryIsSafeIffNoTimeoutWhileAttached(s: State, t: Tid, limit: Limit)
    requires Reachable(s) && CanAct(s, Reenter(t, limit))
    ensures Survives(Apply(s, Reenter(t, limit))) <==> (s.Is(t, SAttached) ==> limit.NoLimit?)
  {
    hide Inv, Survives, Apply;
    ReachableInv(s);
    if s.Is(t, SAttached) && !limit.NoLimit? {
      var w := ServedWorker(s, t);
      if limit.Poll? { PollKills(s, t, w); } else { LaterKills(s, t, w); }
    } else {
      StepKeeps(s, Reenter(t, limit));
      GoodSurvives(Apply(s, Reenter(t, limit)));
    }
  }

  /** Only the worker's own signals and timer. */
  predicate Own(steps: seq<Step>, w: Tid)
  {
    forall i :: 0 <= i < |steps| ==> steps[i] == WorkerTimeout(w) || (steps[i].Reenter? && steps[i].t == w)
  }

  /** Whatever its own signals and timer do first, the switch to it goes well. */
  ghost predicate SafeBehind(s: State, t: Tid, w: Tid)
  {
    forall steps :: Legal(s, steps) && Own(steps, w) ==>
      && Exec(s, steps).Live?
      && Apply(Exec(s, steps).state, SwitchFromServer(t, w)).Live?
  }

  lemma Rearmed(s: State, t: Tid, w: Tid)
    requires w in s.waiting && s.Is(w, WRunnable) && w !in s.idleServers
    ensures !SafeBehind(s, t, w)
  {
    var r := Apply(s, Reenter(w, Later)).state;
    TwoStepRun(s, Reenter(w, Later), WorkerTimeout(w));
    TimedOutSwitch(r, t, w);
    hide Apply;
    assert Own([Reenter(w, Later), WorkerTimeout(w)], w);
  }

  lemma TimedOutFirst(s: State, t: Tid, w: Tid)
    requires w in s.armed && s.Is(w, WRunnable) && w !in s.idleServers
    ensures !SafeBehind(s, t, w)
  {
    OneStepRun(s, WorkerTimeout(w));
    TimedOutSwitch(s, t, w);
    hide Apply;
    assert Own([WorkerTimeout(w)], w);
  }

  lemma AlreadyTimedOut(s: State, t: Tid, w: Tid)
    requires s.Is(w, WRunnableTimeout)
    ensures !SafeBehind(s, t, w)
  {
    assert Legal(s, []) && Own([], w) && Exec(s, []) == Live(s);
  }

  lemma TimedOutIsArmed(s: State, w: Tid)
    requires Inv(s) && s.Is(w, WRunnableTimeout)
    ensures w in s.armed
  {
    hide Bijection, Mailboxes, ServerList, WorkerList, Tokens;
    assert Has(s.status, w, WRunnableTimeout);
  }

  /** Signals included: a worker in hand that waits interruptibly can go back in
      with a timeout. A switch to it is safe whatever its own signals and timer do
      first if and only if it has no timeout and is not in the idle loop. */
  lemma SwitchIsSafeBehindSignalsIff(s: State, t: Tid, w: Tid)
    requires Reachable(s) && UserMode(s, t) && s.Is(t, SRunning) && w in s.credit
    ensures SafeBehind(s, t, w) <==> w !in s.armed && w !in s.waiting
  {
    hide Inv, Apply;
    ReachableInv(s);
    CreditIsParked(s, w);
    if s.Is(w, WRunnableTimeout) {
      AlreadyTimedOut(s, t, w);
      TimedOutIsArmed(s, w);
    } else if w in s.waiting {
      Rearmed(s, t, w);
    } else if w in s.armed {
      TimedOutFirst(s, t, w);
    } else {
      SwitchFromServerKeeps(s, t, w);
      assert !CanAct(s, WorkerTimeout(w)) && forall l :: !CanAct(s, Reenter(w, l));
      assert forall steps :: Legal(s, steps) && Own(steps, w) ==> steps == [];
    }
  }

  lemma {:induction false} CollectIdleFrame(s: State, size: int, t: Tid)
    requires t !in s.idleWorkers && s.Is(t, SRunning)
    ensures var o := CollectIdle(s, size);
            o.Live? ==> o.state.Is(t, SRunning) && o.state.inLoop == s.inLoop && o.state.mail == s.mail
    decreases |s.idleWorkers|
  {
    if size > 1 && s.idleWorkers != [] && CollectOne(s).Live? {
      CollectIdleFrame(CollectOne(s).state, size - |Owed(s.status[s.idleWorkers[0]])|, t);
    }
  }

  lemma ServerIsNotListed(s: State, t: Tid)
    requires Inv(s) && s.Is(t, SRunning)
    ensures t !in s.idleWorkers
  {
    assert !Listed(s.status, t);
  }

  /** The kernel checks the room for reports only for a wait, not for a switch: a
      server woken with mail survives its next wait exactly when it gave room for
      one report. */
  lemma NextWaitIsSafeIffRoomGiven(s: State, t: Tid, size: nat)
    requires Reachable(s) && CanAct(s, Collect(t, size)) && t in s.mail
    ensures var o := Apply(s, Collect(t, size));
            o.Live? && (Apply(o.state, ServerWait(t, 2)).Live? <==> size >= 1)
  {
    hide Inv;
    ReachableInv(s);
    if size >= 1 {
      CollectKeeps(s, t, size);
      ServerIsNotListed(s, t);
      var r := Learn(s.(inLoop := s.inLoop - {t}, mail := s.mail - {t}), s.mail[t].worker, [s.mail[t].event]);
      CollectIdleFrame(r, size - 1, t);
      ServerWaitKeeps(Apply(s, Collect(t, size)).state, t, 2);
    }
  }

  /** A registration starts afresh, whatever was left behind under the same tid. */
  lemma RegistrationStartsAfresh(s: State, t: Tid)
    requires t !in s.status
    ensures var r := Apply(s, RegisterServer(t)); r.Live? && r.state.Is(t, SRunning) && t !in r.state.mail
    ensures var r := Apply(s, RegisterWorker(t)); r.Live? && r.state.Is(t, WBlocked) && t !in r.state.server
  {
  }

  lemma CollectSafe(s: State, t: Tid, size: nat, w: Tid)
    requires Inv(s) && CanAct(s, Collect(t, size)) && t in s.mail && size >= 1 && SafeTarget(s, w)
    ensures var o := Apply(s, Collect(t, size));
            Good(o) && SafeTarget(o.state, w) && w in o.state.status && UserMode(o.state, t) && o.state.Is(t, SRunning)
  {
    hide Inv;
    CollectKeeps(s, t, size);
    ServerIsNotListed(s, t);
    var r := Learn(s.(inLoop := s.inLoop - {t}, mail := s.mail - {t}), s.mail[t].worker, [s.mail[t].event]);
    CollectIdleFrame(r, size - 1, t);
    CollectIdleSafe(r, size - 1, w);
    SafeTargetIsRunnable(Apply(s, Collect(t, size)).state, w);
  }

  lemma {:induction false} CollectIdleSafe(s: State, size: int, w: Tid)
    requires SafeTarget(s, w)
    ensures CollectIdle(s, size).Live? ==> SafeTarget(CollectIdle(s, size).state, w)
    decreases |s.idleWorkers|
  {
    if size > 1 && s.idleWorkers != [] && CollectOne(s).Live? {
      CollectIdleSafe(CollectOne(s).state, size - |Owed(s.status[s.idleWorkers[0]])|, w);
    }
  }

  /** The same for a server that switches next instead of waiting: its worker's next
      report finds the old mail still there and kills. */
  lemma NextReportIsSafeIffRoomGiven(s: State, t: Tid, size: nat, w: Tid)
    requires Reachable(s) && CanAct(s, Collect(t, size)) && t in s.mail && SafeTarget(s, w)
    ensures var o := Apply(s, Collect(t, size));
            && o.Live? && Apply(o.state, SwitchFromServer(t, w)).Live?
            && (Apply(Apply(o.state, SwitchFromServer(t, w)).state, WorkerBlock(w)).Live? <==> size >= 1)
  {
    hide Inv, SafeTarget;
    ReachableInv(s);
    SafeTargetIsRunnable(s, w);
    if size >= 1 {
      CollectSafe(s, t, size, w);
      var r := Apply(s, Collect(t, size)).state;
      StepKeeps(r, SwitchFromServer(t, w));
      SafeTargetIsRunnable(r, w);
      var q := Apply(r, SwitchFromServer(t, w)).state;
      StepKeeps(q, WorkerBlock(w));
    }
  }

  /** What happens if the status of an ATTACHED server is overwritten with RUNNING:
      whatever its worker reports next kills. */
  lemma OverwrittenServerKills(s: State, w: Tid, timed: bool)
    requires Reachable(s) && s.Is(w, WRunning)
    ensures w in s.server
    ensures var r := s.Set(s.server[w], SRunning);
            && Apply(r, WorkerBlock(w)).Killed? && Apply(r, WorkerPreempt(w)).Killed?
            && Apply(r, WorkerWait(w, timed)).Killed? && Apply(r, Unregister(w)).Killed?
  {
    hide Inv;
    ReachableInv(s);
    RunningFacts(s, w);
    ReportKills(s.Set(s.server[w], SRunning), w, timed);
  }
}
