/** Wake-ups in the Linux form over whole runs: listed work is attended to, a wake
    reaches one server, and both idle lists are stacks. */
module LinuxOrder {
  import opened Events
  import opened Lists
  import opened LinuxProtocol
  import opened LinuxSafety
  import opened LinuxRuns
  import opened LinuxCollect
  import opened LinuxDelivery

  // --------------------------------------------------- work is attended to

  ghost predicate Serves(s: State, t: Tid) { t in s.status && IsServer(s.status[t]) }

  ghost predicate Alert(s: State, t: Tid) { Serves(s, t) && !s.Is(t, SIdle) }

  /** Listed work and a server imply a server that is not IDLE. */
  ghost predicate Attended(s: State)
  {
    s.idleWorkers != [] && (exists t :: Serves(s, t)) ==> exists t :: Alert(s, t)
  }

  /** The last server that is not IDLE unregisters although work is listed. */
  ghost predicate Abandons(s: State, step: Step)
  {
    && step.Unregister? && s.Is(step.t, SRunning) && s.idleWorkers != []
    && (exists u :: u != step.t && Serves(s, u))
    && (forall u :: u != step.t && Serves(s, u) ==> s.Is(u, SIdle))
  }

  lemma WakeAttends(s: State)
    requires ServerList(s.status, s.idleServers)
    ensures Attended(WakeIdleServer(s))
  {
    var r := WakeIdleServer(s);
    if s.idleServers != [] {
      assert Alert(r, s.idleServers[0]);
    } else if t :| Serves(r, t) {
      assert Has(s.status, t, SIdle) ==> t in s.idleServers;
      assert Alert(r, t);
    }
  }

  lemma UnregisterAttended(s: State, t: Tid)
    requires Attended(s) && s.Is(t, SRunning)
    ensures Attended(Apply(s, Unregister(t)).state) <==> !Abandons(s, Unregister(t))
  {
    var r := Apply(s, Unregister(t)).state;
    assert forall u :: Serves(r, u) <==> u != t && Serves(s, u);
    assert forall u :: Alert(r, u) <==> u != t && Alert(s, u);
    if Abandons(s, Unregister(t)) {
      var u :| u != t && Serves(s, u);
      assert Serves(r, u);
      assert forall x :: !Alert(r, x);
    } else if s.idleWorkers != [] && exists u :: Serves(r, u) {
      var u :| u != t && Serves(s, u) && !s.Is(u, SIdle);
      assert Alert(r, u);
    }
  }

  lemma AlertIsEnough(s: State, t: Tid)
    requires Alert(s, t)
    ensures Attended(s)
  {
  }

  /** The server a worker leaves is RUNNING then. */
  lemma LeaveAttends(s: State, step: Step)
    requires Inv(s) && Apply(s, step).Live?
    requires step.Unregister? || step.WorkerWait? || step.WorkerPreempt? || step.WorkerBlock?
    requires s.Is(step.t, WRunning)
    ensures Attended(Apply(s, step).state)
  {
    hide Inv, Attended;
    RunningFacts(s, step.t);
    AlertIsEnough(Apply(s, step).state, s.server[step.t]);
  }

  lemma CollectAttends(s: State, t: Tid, size: int)
    requires Inv(s) && s.Is(t, SRunning) && Apply(s, Collect(t, size)).Live?
    ensures Attended(Apply(s, Collect(t, size)).state)
  {
    hide Inv, Attended;
    ServerIsNotListed(s, t);
    var s0 := s.(inLoop := s.inLoop - {t});
    if size <= 0 {
    } else if t in s.mail {
      CollectIdleFrame(Learn(s0.(mail := s.mail - {t}), s.mail[t].worker, [s.mail[t].event]), size - 1, t);
    } else {
      CollectIdleFrame(s0, size, t);
    }
    AlertIsEnough(Apply(s, Collect(t, size)).state, t);
  }

  lemma IdleHead(s: State)
    requires Inv(s)
    ensures ServerList(s.status, s.idleServers) && (s.idleServers != [] ==> s.Is(s.idleServers[0], SIdle))
  {
    hide Bijection, Mailboxes, WorkerList, Tokens, Timers;
    if s.idleServers != [] { assert s.idleServers[0] in s.idleServers; }
  }

  /** Servers and work are as they were. */
  lemma SameAttended(s: State, r: State)
    requires Attended(s) && r.idleWorkers == s.idleWorkers
    requires forall t :: Serves(r, t) || Serves(s, t) ==> t in s.status && r.Is(t, s.status[t])
    ensures Attended(r)
  {
    if t :| Serves(r, t) { assert Serves(s, t); }
    if t :| Alert(s, t) { assert Alert(r, t); }
  }

  lemma ServerAttends(s: State, step: Step)
    requires Attended(s) && CanAct(s, step) && UserRule(s, step) && Apply(s, step).Live?
    requires match step
             case RegisterServer(_) | ServerWait(_, _) | ServerTimeout(_) | LoseMail(_) | SwitchFromServer(_, _) => true
             case _ => false
    ensures Attended(Apply(s, step).state)
  {
    var t, r := step.t, Apply(s, step).state;
    if r.Is(t, SRunning) || r.Is(t, SAttached) {
      assert Alert(r, t);
    } else if r.idleWorkers != [] {
      SameAttended(s, r);
    }
  }

  /** Steps that list a worker, or the wake call: all end in umcg_wake_idle_server. */
  predicate Wakes(s: State, step: Step)
  {
    match step
    case WorkerWake(_) => true
    case WorkerTimeout(w) => s.Is(w, WRunnable)
    case SwitchFromWorker(_, next, _) => next in s.status
    case WakeCommand => true
    case _ => false
  }

  /** What the step does before it wakes a server: the servers are untouched. */
  function Prepared(s: State, step: Step): State
    requires Wakes(s, step) && (step.SwitchFromWorker? ==> step.t in s.server)
  {
    match step
    case WorkerWake(w) => s.Set(w, WWaking).(idleWorkers := [w] + s.idleWorkers)
    case WorkerTimeout(w) =>
      s.Set(w, WRunnableTimeout).(idleWorkers := [w] + s.idleWorkers, waiting := s.waiting - {w})
    case SwitchFromWorker(t, next, timed) =>
      s.Set(t, WSwapping).Set(next, WRunning).(
        server := (s.server - {t})[next := s.server[t]], idleWorkers := [t] + s.idleWorkers,
        waiting := (s.waiting + {t}) - {next}, credit := s.credit - {next},
        armed := (if timed then s.armed + {t} else s.armed) - {next})
    case _ => s
  }

  lemma WakeIs(s: State, step: Step)
    requires Inv(s) && CanAct(s, step) && UserRule(s, step) && Wakes(s, step) && Apply(s, step).Live?
    ensures step.SwitchFromWorker? ==> step.t in s.server
    ensures var p := Prepared(s, step);
            && Apply(s, step).state == WakeIdleServer(p) && p.idleServers == s.idleServers
            && (forall t :: Serves(p, t) || Serves(s, t) ==> t in s.status && p.Is(t, s.status[t]))
  {
    hide Inv;
    if step.SwitchFromWorker? {
      RunningFacts(s, step.t);
      SafeTargetIsRunnable(s, step.next);
    }
    hide HasNext, WakeIdleServer;
  }

  lemma WakingAttends(s: State, step: Step)
    requires Inv(s) && CanAct(s, step) && UserRule(s, step) && Wakes(s, step) && Apply(s, step).Live?
    ensures Attended(Apply(s, step).state)
  {
    hide Inv, Apply, CanAct, UserRule, Attended;
    WakeIs(s, step);
    IdleHead(s);
    var p := Prepared(s, step);
    hide Prepared;
    forall t ensures t in p.idleServers <==> Has(p.status, t, SIdle) {
      assert t in s.idleServers <==> Has(s.status, t, SIdle);
      assert Serves(s, t) || Serves(p, t) || (!Has(p.status, t, SIdle) && !Has(s.status, t, SIdle));
    }
    WakeAttends(p);
  }

  /** Every step keeps listed work attended to, but for one. */
  lemma AttendedStep(s: State, step: Step)
    requires Inv(s) && Attended(s) && CanAct(s, step) && UserRule(s, step) && Apply(s, step).Live?
    ensures Attended(Apply(s, step).state) <==> !Abandons(s, step)
  {
    hide Inv, Attended, EnqueueIdleWorker, WakeWorker, WakeServer, CollectIdle;
    if Wakes(s, step) {
      WakingAttends(s, step);
    } else {
      match step {
        case Unregister(t) =>
          if s.Is(t, SRunning) { UnregisterAttended(s, t); }
          else if s.Is(t, WRunning) { LeaveAttends(s, step); }
        case WorkerWait(_, _) => LeaveAttends(s, step);
        case WorkerPreempt(_) => LeaveAttends(s, step);
        case WorkerBlock(_) => LeaveAttends(s, step);
        case Collect(t, size) => CollectAttends(s, t, size);
        case RegisterServer(_) => ServerAttends(s, step);
        case ServerWait(_, _) => ServerAttends(s, step);
        case ServerTimeout(_) => ServerAttends(s, step);
        case LoseMail(_) => ServerAttends(s, step);
        case SwitchFromServer(_, _) => ServerAttends(s, step);
        case SwitchFromWorker(_, _, _) =>
        case RegisterWorker(_) => SameAttended(s, Apply(s, step).state);
        case WorkerTimeout(_) => SameAttended(s, Apply(s, step).state);
        case Reenter(t, limit) =>
          if limit.Poll? && IsServer(s.status[t]) { AlertIsEnough(Apply(s, step).state, t); }
          else { SameAttended(s, Apply(s, step).state); }
      }
    }
  }

  /** No server abandons listed work in the run. */
  ghost predicate NoneAbandons(s: State, steps: seq<Step>)
    decreases |steps|
  {
    steps == [] ||
    (!Abandons(s, steps[0]) && (Apply(s, steps[0]).Live? ==> NoneAbandons(Apply(s, steps[0]).state, steps[1..])))
  }

  lemma {:induction false} RunAttends(s: State, steps: seq<Step>)
    requires Inv(s) && Attended(s) && Legal(s, steps) && NoneAbandons(s, steps)
    ensures Exec(s, steps).Live? && Attended(Exec(s, steps).state)
    decreases |steps|
  {
    hide Inv, Attended, Apply, CanAct, UserRule, Abandons;
    if steps == [] {
    } else {
      StepKeeps(s, steps[0]);
      AttendedStep(s, steps[0]);
      RunAttends(Apply(s, steps[0]).state, steps[1..]);
    }
  }

  /** At the end of every legal run in which no server unregisters as the last that
      is not IDLE while work is listed: if a worker is listed and a server is
      registered, some registered server is not IDLE. */
  lemma WorkIsAttended(steps: seq<Step>)
    requires Legal(INITIAL, steps) && NoneAbandons(INITIAL, steps)
    ensures Exec(INITIAL, steps).Live? && Attended(Exec(INITIAL, steps).state)
  {
    InitialInv();
    RunAttends(INITIAL, steps);
  }

  // ------------------------------------------------------------- both stacks

  datatype Kind = IdleServers | IdleWorkers

  function ListOf(k: Kind, s: State): seq<Tid> { if k.IdleServers? then s.idleServers else s.idleWorkers }

  /** What the list stands for. */
  predicate Holds(k: Kind, s: State, x: Tid) { if k.IdleServers? then s.Is(x, SIdle) else Listed(s.status, x) }

  lemma ListHolds(k: Kind, s: State, x: Tid)
    requires Inv(s)
    ensures x in ListOf(k, s) <==> Holds(k, s, x)
  {
    hide Bijection, Mailboxes, Tokens, Timers;
    assert x in s.idleServers <==> Has(s.status, x, SIdle);
  }

  lemma {:induction false} CollectIdleDrops(s: State, size: int) returns (n: nat)
    requires CollectIdle(s, size).Live?
    ensures n <= |s.idleWorkers|
    ensures var r := CollectIdle(s, size).state; r.idleWorkers == s.idleWorkers[n..] && r.idleServers == s.idleServers
    decreases |s.idleWorkers|
  {
    n := 0;
    if size > 1 && s.idleWorkers != [] {
      var m := CollectIdleDrops(CollectOne(s).state, size - |Owed(s.status[s.idleWorkers[0]])|);
      n := m + 1;
    }
  }

  lemma CollectDrops(s: State, t: Tid, size: int, k: Kind)
    requires Apply(s, Collect(t, size)).Live?
    ensures Rest(ListOf(k, s), ListOf(k, Apply(s, Collect(t, size)).state))
  {
    hide CollectIdle, Rest;
    RestDrop(s.idleServers, 0);
    RestDrop(s.idleWorkers, 0);
    var s0 := s.(inLoop := s.inLoop - {t});
    if size > 0 {
      var n := CollectIdleDrops(
        if t in s.mail then Learn(s0.(mail := s.mail - {t}), s.mail[t].worker, [s.mail[t].event]) else s0,
        if t in s.mail then size - 1 else size);
      RestDrop(s.idleWorkers, n);
    }
  }

  lemma ServerStackStep(s: State, step: Step)
    requires Inv(s) && CanAct(s, step) && UserRule(s, step) && Apply(s, step).Live?
    ensures Stacks(s.idleServers, Apply(s, step).state.idleServers)
  {
    hide Inv, Rest;
    RestDrop(s.idleServers, 0);
    assert s.idleServers[0..] == s.idleServers;
    if Wakes(s, step) {
      WakeIs(s, step);
      if s.idleServers != [] { RestDrop(s.idleServers, 1); }
    } else {
      match step {
        case Collect(t, size) => CollectDrops(s, t, size, IdleServers);
        case ServerTimeout(t) => RestWithout(s.idleServers, t);
        case Reenter(t, _) => RestWithout(s.idleServers, t);
        case _ =>
      }
    }
  }

  lemma WakeKeepsWorkers(s: State)
    ensures WakeIdleServer(s).idleWorkers == s.idleWorkers
  {
  }

  lemma WorkerStackStep(s: State, step: Step)
    requires Inv(s) && CanAct(s, step) && UserRule(s, step) && Apply(s, step).Live?
    ensures Stacks(s.idleWorkers, Apply(s, step).state.idleWorkers)
  {
    hide Inv, Rest, CollectIdle, WakeIdleServer;
    RestDrop(s.idleWorkers, 0);
    assert s.idleWorkers[0..] == s.idleWorkers;
    if Wakes(s, step) {
      WakeIs(s, step);
      WakeKeepsWorkers(Prepared(s, step));
      if !step.WakeCommand? { ListHolds(IdleWorkers, s, step.t); }
    } else if step.Collect? {
      CollectDrops(s, step.t, step.size, IdleWorkers);
    }
  }

  lemma {:induction false} SplitLast(s: State, steps: seq<Step>) returns (q: State)
    requires Inv(s) && Legal(s, steps) && steps != []
    ensures var (init, last) := (steps[..|steps| - 1], steps[|steps| - 1]);
            && Legal(s, init) && Exec(s, init) == Live(q) && Inv(q) && CanAct(q, last) && UserRule(q, last)
            && Apply(q, last).Live? && Exec(s, steps) == Apply(q, last) && Inv(Apply(q, last).state)
    decreases |steps|
  {
    hide Inv, Apply, CanAct, UserRule;
    StepKeeps(s, steps[0]);
    if |steps| == 1 {
      q := s;
      assert steps[..0] == [] && steps[1..] == [];
    } else {
      q := SplitLast(Apply(s, steps[0]).state, steps[1..]);
      assert steps[1..][..|steps| - 2] == steps[..|steps| - 1][1..];
    }
  }

  /** When `x` last went onto the list, counted in steps of the run. */
  function Since(k: Kind, steps: seq<Step>, x: Tid): (n: nat)
    ensures n <= |steps|
  {
    if steps == [] then 0
    else
      var init := steps[..|steps| - 1];
      match (Exec(INITIAL, init), Exec(INITIAL, steps))
      case (Live(s), Live(r)) => if !Holds(k, s, x) && Holds(k, r, x) then |steps| else Since(k, init, x)
      case _ => Since(k, init, x)
  }

  lemma SinceLast(k: Kind, steps: seq<Step>, q: State, r: State, x: Tid)
    requires steps != [] && Exec(INITIAL, steps[..|steps| - 1]) == Live(q) && Exec(INITIAL, steps) == Live(r)
    requires Inv(q) && Inv(r)
    ensures Since(k, steps, x) == if x !in ListOf(k, q) && x in ListOf(k, r) then |steps|
                                  else Since(k, steps[..|steps| - 1], x)
  {
    hide Inv, Holds;
    ListHolds(k, q, x);
    ListHolds(k, r, x);
  }

  lemma StackStep(k: Kind, s: State, step: Step)
    requires Inv(s) && CanAct(s, step) && UserRule(s, step) && Apply(s, step).Live?
    ensures Stacks(ListOf(k, s), ListOf(k, Apply(s, step).state))
  {
    hide Inv, Apply, CanAct, UserRule, Stacks;
    if k.IdleServers? { ServerStackStep(s, step); } else { WorkerStackStep(s, step); }
  }

  /** Who stands further in front went there later. */
  lemma {:induction false} ListIsStack(k: Kind, steps: seq<Step>, a: Tid, b: Tid)
    requires Legal(INITIAL, steps) && Exec(INITIAL, steps).Live? && Before(ListOf(k, Exec(INITIAL, steps).state), a, b)
    ensures Since(k, steps, a) > Since(k, steps, b)
    decreases |steps|
  {
    if steps == [] {
    } else {
      InitialInv();
      hide Inv, Apply, CanAct, UserRule, Before, Stacks, Since, Legal, Exec, ListOf;
      var q := SplitLast(INITIAL, steps);
      var r := Exec(INITIAL, steps).state;
      StackStep(k, q, steps[|steps| - 1]);
      StackCases(ListOf(k, q), ListOf(k, r), a, b);
      SinceLast(k, steps, q, r, a);
      SinceLast(k, steps, q, r, b);
      if a in ListOf(k, q) { ListIsStack(k, steps[..|steps| - 1], a, b); }
    }
  }

  /** Some server is IDLE and the step wakes: then exactly one goes from IDLE to
      RUNNING, the one that went idle last. */
  lemma WakesTheLatest(steps: seq<Step>, step: Step) returns (t: Tid)
    requires Legal(INITIAL, steps + [step]) && Exec(INITIAL, steps).Live?
    requires var s := Exec(INITIAL, steps).state; Wakes(s, step) && exists u :: s.Is(u, SIdle)
    ensures Exec(INITIAL, steps + [step]).Live?
    ensures var s, r := Exec(INITIAL, steps).state, Exec(INITIAL, steps + [step]).state;
            && s.Is(t, SIdle) && r.Is(t, SRunning)
            && (forall u :: u != t && s.Is(u, SIdle) ==> r.Is(u, SIdle))
            && (forall u :: u != t && s.Is(u, SIdle) ==> Since(IdleServers, steps, u) < Since(IdleServers, steps, t))
  {
    InitialInv();
    assert (steps + [step])[..|steps|] == steps;
    hide Inv, Apply, CanAct, UserRule, Since, Legal, Exec;
    var s := SplitLast(INITIAL, steps + [step]);
    WakeIs(s, step);
    forall u ensures u in s.idleServers <==> s.Is(u, SIdle) { ListHolds(IdleServers, s, u); }
    t := s.idleServers[0];
    var r := Apply(s, step).state;
    forall u | u != t && s.Is(u, SIdle)
      ensures r.Is(u, SIdle) && Since(IdleServers, steps, u) < Since(IdleServers, steps, t)
    {
      var j :| 0 <= j < |s.idleServers| && s.idleServers[j] == u;
      assert Before(s.idleServers, t, u);
      ListIsStack(IdleServers, steps, t, u);
      assert Serves(s, u);
    }
  }

  lemma {:induction false} CollectIdleTouches(s: State, size: int, t: Tid)
    requires CollectIdle(s, size).Live? && t in s.status && t !in s.idleWorkers
    ensures CollectIdle(s, size).state.Is(t, s.status[t])
    decreases |s.idleWorkers|
  {
    if size > 1 && s.idleWorkers != [] {
      CollectIdleTouches(CollectOne(s).state, size - |Owed(s.status[s.idleWorkers[0]])|, t);
    }
  }

  lemma CollectTouches(s: State, u: Tid, size: int, t: Tid)
    requires Apply(s, Collect(u, size)).Live? && t in s.status && t !in s.idleWorkers
    ensures Apply(s, Collect(u, size)).state.Is(t, s.status[t])
  {
    CollectIs(s, u, size);
    hide Apply, CollectIdle;
    if size > 0 { CollectIdleTouches(AfterMail(s, u), if u in s.mail then size - 1 else size, t); }
  }

  /** The server's own timeout, or its poll after a signal. */
  predicate GivesUp(step: Step, t: Tid) { step == ServerTimeout(t) || step == Reenter(t, Poll) }

  /** Nothing else makes a server leave IDLE. */
  lemma OnlyWakesWake(s: State, step: Step, t: Tid)
    requires Inv(s) && CanAct(s, step) && UserRule(s, step) && Apply(s, step).Live?
    requires s.Is(t, SIdle) && !Apply(s, step).state.Is(t, SIdle)
    ensures Wakes(s, step) || GivesUp(step, t)
  {
    hide Inv, CollectIdle, WakeIdleServer;
    ListHolds(IdleWorkers, s, t);
    match step {
      case Collect(u, size) => CollectTouches(s, u, size, t);
      case Unregister(u) => if s.Is(u, WRunning) { RunningFacts(s, u); }
      case WorkerWait(u, _) => RunningFacts(s, u);
      case WorkerPreempt(u) => RunningFacts(s, u);
      case WorkerBlock(u) => RunningFacts(s, u);
      case SwitchFromServer(u, next) => if next in s.status { SafeTargetIsRunnable(s, next); }
      case _ =>
    }
  }

  // --------------------------------------------------- what a server is told

  lemma {:induction false} CollectedAreListed(s: State, size: int, i: nat)
    requires i < |Collected(s, size)|
    ensures Collected(s, size)[i].worker in s.idleWorkers
    decreases |s.idleWorkers|
  {
    var n := |Turn(s)|;
    if i >= n { CollectedAreListed(CollectOne(s).state, size - n, i - n); }
  }

  lemma TurnOrder(s: State, i: nat, j: nat)
    requires s.idleWorkers != [] && CollectOne(s).Live? && i < j < |Turn(s)|
    ensures Turn(s)[i] == Mail(s.idleWorkers[0], Wait) && Turn(s)[j] == Mail(s.idleWorkers[0], Timeout)
  {
  }

  lemma TurnWorker(s: State, i: nat)
    requires s.idleWorkers != [] && CollectOne(s).Live? && i < |Turn(s)|
    ensures Turn(s)[i].worker == s.idleWorkers[0]
  {
  }

  lemma CollectedSplits(s: State, size: int)
    requires Collected(s, size) != []
    ensures size > 1 && s.idleWorkers != [] && CollectOne(s).Live?
    ensures Collected(s, size) == Turn(s) + Collected(CollectOne(s).state, size - |Turn(s)|)
  {
  }

  /** The reports of a collection follow the list; two about one worker are its
      WAIT and its TIMEOUT, in this order. */
  lemma {:induction false} CollectedOrder(s: State, size: int, i: nat, j: nat)
    requires i < j < |Collected(s, size)|
    ensures var (a, b) := (Collected(s, size)[i], Collected(s, size)[j]);
            Before(s.idleWorkers, a.worker, b.worker)
            || (a.worker == b.worker && a.event == Wait && b.event == Timeout)
    decreases |s.idleWorkers|
  {
    hide Collected, CollectOne, Turn, Before;
    CollectedSplits(s, size);
    var n, rest := |Turn(s)|, CollectOne(s).state;
    assert s.idleWorkers == [s.idleWorkers[0]] + rest.idleWorkers;
    if j < n {
      TurnOrder(s, i, j);
    } else {
      CollectedAreListed(rest, size - n, j - n);
      BeforeCons(s.idleWorkers[0], rest.idleWorkers, Collected(s, size)[i].worker, Collected(s, size)[j].worker);
      if i < n { TurnWorker(s, i); } else { CollectedOrder(rest, size - n, i - n, j - n); }
    }
  }

  /** As long as there is room for two reports, no listed worker is left behind. */
  lemma {:induction false} CollectIdleTakesAll(s: State, size: int)
    requires CollectIdle(s, size).Live?
    ensures CollectIdle(s, size).state.idleWorkers == [] || |Collected(s, size)| >= size - 1
    decreases |s.idleWorkers|
  {
    hide Owed;
    if size > 1 && s.idleWorkers != [] {
      CollectIdleTakesAll(CollectOne(s).state, size - |Turn(s)|);
    }
  }

  lemma MailFacts(s: State, t: Tid)
    requires Inv(s)
    ensures NoDup(s.idleWorkers) && (t in s.mail ==> s.mail[t].event != Timeout)
    ensures AfterMail(s, t).idleWorkers == s.idleWorkers
  {
    hide Bijection, ServerList, Tokens, Timers;
  }

  lemma CollectedWaitFirst(s: State, size: int, w: Tid, i: nat, j: nat)
    requires NoDup(s.idleWorkers) && i < |Collected(s, size)| && j < |Collected(s, size)|
    requires Collected(s, size)[i] == Mail(w, Wait) && Collected(s, size)[j] == Mail(w, Timeout)
    ensures i < j
  {
    hide Collected, NoDup, Before;
    NotBeforeItself(s.idleWorkers, w);
    if j < i { CollectedOrder(s, size, j, i); }
  }

  /** Whatever a server is told at once about a worker that waited and timed out, it
      reads the WAIT before the TIMEOUT. */
  lemma WaitBeforeTimeout(s: State, t: Tid, size: int, w: Tid, i: nat, j: nat)
    requires Reachable(s)
    requires var ms := Delivered(s, Collect(t, size));
             i < |ms| && j < |ms| && ms[i] == Mail(w, Wait) && ms[j] == Mail(w, Timeout)
    ensures i < j
  {
    hide Inv, AfterMail, Collected, NoDup, Reachable;
    ReachableInv(s);
    MailFacts(s, t);
    if t !in s.mail {
      CollectedWaitFirst(AfterMail(s, t), size, w, i, j);
    } else if i > 0 {
      CollectedWaitFirst(AfterMail(s, t), size - 1, w, i - 1, j - 1);
    }
  }

  lemma ListPart(s: State, t: Tid, size: int, i: nat)
    requires i < |Delivered(s, Collect(t, size))| && (t in s.mail ==> i >= 1)
    ensures var (n, d) := if t in s.mail then (size - 1, 1) else (size, 0);
            i - d < |Collected(AfterMail(s, t), n)|
            && Delivered(s, Collect(t, size))[i] == Collected(AfterMail(s, t), n)[i - d]
  {
    hide Collected, AfterMail;
  }

  /** And of two listed workers it is told of the one first that was listed later. */
  lemma LatestIsToldFirst(steps: seq<Step>, t: Tid, size: int, i: nat, j: nat)
    requires Legal(INITIAL, steps) && Exec(INITIAL, steps).Live?
    requires var s := Exec(INITIAL, steps).state;
             var ms := Delivered(s, Collect(t, size));
             i < j < |ms| && (t in s.mail ==> i >= 1) && ms[i].worker != ms[j].worker
    ensures var ms := Delivered(Exec(INITIAL, steps).state, Collect(t, size));
            Since(IdleWorkers, steps, ms[i].worker) > Since(IdleWorkers, steps, ms[j].worker)
  {
    hide Legal, Exec, Collected, Since, Before, Delivered;
    var s := Exec(INITIAL, steps).state;
    var ms := Delivered(s, Collect(t, size));
    ListPart(s, t, size, i);
    ListPart(s, t, size, j);
    var n, d := if t in s.mail then size - 1 else size, if t in s.mail then 1 else 0;
    CollectedOrder(AfterMail(s, t), n, i - d, j - d);
    CollectIs(s, t, size);
    ListIsStack(IdleWorkers, steps, ms[i].worker, ms[j].worker);
  }

  lemma {:induction false} CollectKeepsMail(s: State, size: int)
    requires CollectIdle(s, size).Live?
    ensures CollectIdle(s, size).state.mail == s.mail
    decreases |s.idleWorkers|
  {
    if size > 1 && s.idleWorkers != [] {
      CollectKeepsMail(CollectOne(s).state, size - |Owed(s.status[s.idleWorkers[0]])|);
    }
  }

  /** A server is told all there is: its mail in front, and everybody listed unless
      less than two words are left. */
  lemma ToldAllThereIs(s: State, t: Tid, size: int)
    requires Reachable(s) && CanAct(s, Collect(t, size)) && size >= 1
    ensures var (ms, o) := (Delivered(s, Collect(t, size)), Apply(s, Collect(t, size)));
            && o.Live? && t !in o.state.mail && (t in s.mail ==> ms != [] && ms[0] == s.mail[t])
            && (o.state.idleWorkers == [] || |ms| >= size - 1)
  {
    hide Inv;
    ReachableInv(s);
    StepKeeps(s, Collect(t, size));
    CollectIs(s, t, size);
    hide Apply, CollectIdle, Collected;
    var n := if t in s.mail then size - 1 else size;
    CollectIdleTakesAll(AfterMail(s, t), n);
    CollectKeepsMail(AfterMail(s, t), n);
  }
}
