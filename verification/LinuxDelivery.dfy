/** Exactly-once delivery in the Linux form: what happens to a worker is reported
    to some server once, through a mailbox or through the idle list, unless the
    server's buffer faults. */
module LinuxDelivery {
  import opened Events
  import opened Lists
  import opened LinuxProtocol
  import opened LinuxSafety
  import opened LinuxRuns
  import opened LinuxCollect

  /** What a step makes reportable: the worker blocks, wakes, waits, swaps, times
      out, is preempted or exits. */
  function Happens(s: State, step: Step): Option<Mail>
  {
    match step
    case Unregister(t) => if s.Is(t, WRunning) then Some(Mail(t, Exit)) else None
    case SwitchFromWorker(t, next, _) => if next in s.status then Some(Mail(t, Wait)) else None
    case WorkerWait(t, _) => Some(Mail(t, Wait))
    case WorkerPreempt(t) => Some(Mail(t, Preempt))
    case WorkerBlock(t) => Some(Mail(t, Block))
    case WorkerWake(t) => Some(Mail(t, Wake))
    case WorkerTimeout(t) => Some(Mail(t, Timeout))
    case _ => None
  }

  /** What a step writes into a user buffer. */
  function Delivered(s: State, step: Step): seq<Mail>
  {
    if !step.Collect? || step.size <= 0 then []
    else if step.t in s.mail then [s.mail[step.t]] + Collected(AfterMail(s, step.t), step.size - 1)
    else Collected(AfterMail(s, step.t), step.size)
  }

  /** Whether a step lets a fault swallow `m`. */
  predicate Swallows(s: State, step: Step, m: Mail) { step.LoseMail? && step.t in s.mail && s.mail[step.t] == m }

  function Happenings(s: State, steps: seq<Step>, m: Mail): nat
    decreases |steps|
  {
    if steps == [] then 0
    else One(Happens(s, steps[0]) == Some(m))
         + match Apply(s, steps[0])
           case Killed => 0
           case Live(s1) => Happenings(s1, steps[1..], m)
  }

  function Deliveries(s: State, steps: seq<Step>, m: Mail): nat
    decreases |steps|
  {
    if steps == [] then 0
    else multiset(Delivered(s, steps[0]))[m]
         + match Apply(s, steps[0])
           case Killed => 0
           case Live(s1) => Deliveries(s1, steps[1..], m)
  }

  function Losses(s: State, steps: seq<Step>, m: Mail): nat
    decreases |steps|
  {
    if steps == [] then 0
    else One(Swallows(s, steps[0], m))
         + match Apply(s, steps[0])
           case Killed => 0
           case Live(s1) => Losses(s1, steps[1..], m)
  }

  function MailWith(mail: map<Tid, Mail>, m: Mail): set<Tid> { set t | t in mail && mail[t] == m }

  function OwedCount(st: Statuses, list: seq<Tid>, m: Mail): nat
  {
    One(m.worker in list && m.worker in st && m.event in Owed(st[m.worker]))
  }

  /** The copies of `m` on their way. */
  function Outstanding(s: State, m: Mail): nat
  {
    |MailWith(s.mail, m)| + OwedCount(s.status, s.idleWorkers, m)
  }

  // ---------------------------------------------------- mailboxes and the list

  lemma MailPut(mail: map<Tid, Mail>, t: Tid, m0: Mail, m: Mail)
    requires t !in mail
    ensures |MailWith(mail[t := m0], m)| == |MailWith(mail, m)| + One(m0 == m)
  {
    assert MailWith(mail[t := m0], m) == MailWith(mail, m) + if m0 == m then {t} else {};
  }

  lemma MailTake(mail: map<Tid, Mail>, t: Tid, m: Mail)
    requires t in mail
    ensures |MailWith(mail - {t}, m)| == |MailWith(mail, m)| - One(mail[t] == m)
  {
    assert MailWith(mail - {t}, m) == MailWith(mail, m) - if mail[t] == m then {t} else {};
  }

  /** The listed workers have the same status in both. */
  ghost predicate Agree(st: Statuses, st2: Statuses, list: seq<Tid>)
  {
    forall x :: x in list ==> (x in st <==> x in st2) && (x in st ==> st[x] == st2[x])
  }

  lemma PushOwed(st: Statuses, list: seq<Tid>, st2: Statuses, w: Tid, m: Mail)
    requires w !in list && Agree(st, st2, list) && w in st2
    ensures OwedCount(st2, [w] + list, m) == OwedCount(st, list, m) + One(m.worker == w && m.event in Owed(st2[w]))
  {
    assert forall x :: x in [w] + list <==> x == w || x in list;
    hide Owed;
  }

  lemma TurnCount(s: State, m: Mail)
    requires NoDup(s.idleWorkers) && s.idleWorkers != [] && CollectOne(s).Live?
    ensures var r := CollectOne(s).state;
            && NoDup(r.idleWorkers) && r.mail == s.mail
            && multiset(Turn(s))[m] + OwedCount(r.status, r.idleWorkers, m) == OwedCount(s.status, s.idleWorkers, m)
  {
    var w, r := s.idleWorkers[0], CollectOne(s).state;
    var es := Owed(s.status[w]);
    assert forall x :: x in s.idleWorkers <==> x == w || x in r.idleWorkers;
    assert w !in r.idleWorkers;
    if |es| == 1 { assert Turn(s) == [Mail(w, es[0])]; } else { assert Turn(s) == [Mail(w, es[0]), Mail(w, es[1])]; }
    hide NoDup;
  }

  lemma TurnLives(s: State, size: int)
    requires CollectIdle(s, size).Live?
    ensures if size > 1 && s.idleWorkers != [] then CollectOne(s).Live?
            else CollectIdle(s, size) == Live(s) && Collected(s, size) == []
  {
  }

  /** Collection moves reports from the list to the buffer. */
  lemma {:induction false} CollectConserves(s: State, size: int, m: Mail)
    requires NoDup(s.idleWorkers) && CollectIdle(s, size).Live?
    ensures var r := CollectIdle(s, size).state;
            && multiset(Collected(s, size))[m] + OwedCount(r.status, r.idleWorkers, m)
               == OwedCount(s.status, s.idleWorkers, m)
            && r.mail == s.mail
    decreases |s.idleWorkers|
  {
    hide NoDup, CollectIdle, Collected, CollectOne, Turn, OwedCount;
    TurnLives(s, size);
    if size > 1 && s.idleWorkers != [] {
      Unfold(s, size);
      TurnCount(s, m);
      CollectConserves(CollectOne(s).state, size - |Turn(s)|, m);
    }
  }

  // ------------------------------------------------------------------ steps

  /** `left` copies of `m` have left the kernel. */
  ghost predicate Conserves(s: State, happened: nat, left: nat, r: State, m: Mail)
  {
    Outstanding(s, m) + happened == left + Outstanding(r, m)
  }

  /** Neither mailboxes nor listed workers change. */
  ghost predicate Untouched(s: State, r: State)
  {
    r.mail == s.mail && r.idleWorkers == s.idleWorkers && Agree(s.status, r.status, s.idleWorkers)
  }

  lemma UntouchedConserves(s: State, r: State, m: Mail)
    requires Untouched(s, r)
    ensures Conserves(s, 0, 0, r, m)
  {
    hide MailWith, Owed;
  }

  /** A worker off the list reports through a mailbox. */
  lemma MailConserves(s: State, r: State, t: Tid, m0: Mail, m: Mail)
    requires t !in s.mail && r.mail == s.mail[t := m0] && r.idleWorkers == s.idleWorkers
    requires Agree(s.status, r.status, s.idleWorkers)
    ensures Conserves(s, One(m0 == m), 0, r, m)
  {
    MailPut(s.mail, t, m0, m);
    hide MailWith, Owed;
  }

  /** A worker joins the list owing one report. */
  lemma PushConserves(s: State, r: State, w: Tid, e: Event, m: Mail)
    requires w !in s.idleWorkers && r.mail == s.mail && r.idleWorkers == [w] + s.idleWorkers
    requires Agree(s.status, r.status, s.idleWorkers) && w in r.status && Owed(r.status[w]) == [e]
    ensures Conserves(s, One(Mail(w, e) == m), 0, r, m)
  {
    PushOwed(s.status, s.idleWorkers, r.status, w, m);
    hide MailWith, OwedCount, Owed;
  }

  lemma ListFacts(s: State)
    requires Inv(s)
    ensures NoDup(s.idleWorkers) && (forall w :: w in s.idleWorkers <==> Listed(s.status, w))
    ensures forall t :: t in s.idleServers ==> s.Is(t, SIdle)
    ensures forall t :: t in s.mail ==> s.Is(t, SRunning) && t in s.inLoop
  {
    hide Bijection, Tokens, Timers;
  }

  /** The changed tasks are not listed. */
  lemma QuietStep(s: State, step: Step)
    requires Inv(s) && CanAct(s, step) && UserRule(s, step) && Apply(s, step).Live?
    requires Happens(s, step).None? && !step.Collect? && !step.LoseMail?
    ensures Untouched(s, Apply(s, step).state)
  {
    hide Inv;
    ListFacts(s);
    match step {
      case RegisterServer(t) => assert t !in s.status ==> s.mail - {t} == s.mail;
      case WakeCommand =>
        if s.idleServers != [] { assert s.idleServers[0] in s.idleServers && s.idleServers[0] !in s.idleWorkers; }
        WakeUntouched(s);
      case SwitchFromServer(t, next) => QuietSwitch(s, t, next);
      case ServerWait(t, size) => QuietWait(s, t, size);
      case _ =>
    }
  }

  lemma QuietSwitch(s: State, t: Tid, next: Tid)
    requires Inv(s) && s.Is(t, SRunning) && Apply(s, SwitchFromServer(t, next)).Live?
    ensures Untouched(s, Apply(s, SwitchFromServer(t, next)).state)
  {
    hide Inv;
    ListFacts(s);
    assert t !in s.idleWorkers;
    assert s.Is(next, WRunnable) ==> next !in s.idleWorkers;
  }

  lemma QuietWait(s: State, t: Tid, size: int)
    requires Inv(s) && s.Is(t, SRunning) && Apply(s, ServerWait(t, size)).Live?
    ensures Untouched(s, Apply(s, ServerWait(t, size)).state)
  {
    hide Inv;
    ListFacts(s);
    assert t !in s.idleWorkers;
  }

  lemma QuietConserves(s: State, step: Step, m: Mail)
    requires Inv(s) && CanAct(s, step) && UserRule(s, step) && Apply(s, step).Live?
    requires Happens(s, step).None? && !step.Collect? && !step.LoseMail?
    ensures Conserves(s, 0, 0, Apply(s, step).state, m)
  {
    hide Inv, CanAct, UserRule, Apply, Conserves, Untouched;
    QuietStep(s, step);
    UntouchedConserves(s, Apply(s, step).state, m);
  }

  lemma MailStep(s: State, step: Step, m: Mail)
    requires Inv(s) && CanAct(s, step) && Apply(s, step).Live?
    requires step.WorkerWait? || step.WorkerPreempt? || step.WorkerBlock? || step.Unregister?
    requires s.Is(step.t, WRunning)
    ensures Conserves(s, One(Happens(s, step) == Some(m)), 0, Apply(s, step).state, m)
  {
    hide Inv, Conserves;
    ListFacts(s);
    RunningFacts(s, step.t);
    var t := s.server[step.t];
    assert t !in s.idleWorkers;
    MailConserves(s, Apply(s, step).state, t, Happens(s, step).value, m);
  }

  /** Waking an idle server touches neither mail nor listed workers. */
  lemma WakeUntouched(s: State)
    requires s.idleServers != [] ==> s.idleServers[0] !in s.idleWorkers
    ensures Untouched(s, WakeIdleServer(s))
  {
  }

  lemma PushStep(s: State, step: Step, m: Mail)
    requires Inv(s) && CanAct(s, step) && Apply(s, step).Live?
    requires step.WorkerWake? || (step.WorkerTimeout? && s.Is(step.t, WRunnable))
    ensures Conserves(s, One(Happens(s, step) == Some(m)), 0, Apply(s, step).state, m)
  {
    hide Inv, Conserves;
    ListFacts(s);
    var w, r := step.t, Apply(s, step).state;
    assert w !in s.idleWorkers && w !in s.idleServers;
    if s.idleServers != [] { assert s.idleServers[0] in s.idleServers; }
    PushConserves(s, r, w, if step.WorkerWake? then Wake else Timeout, m);
  }

  lemma SwapTimeoutStep(s: State, w: Tid, m: Mail)
    requires Inv(s) && s.Is(w, WSwapping)
    ensures Conserves(s, One(Mail(w, Timeout) == m), 0, Apply(s, WorkerTimeout(w)).state, m)
  {
    ListFacts(s);
    hide Inv, MailWith;
    assert w in s.idleWorkers;
  }

  lemma SwapStep(s: State, step: Step, m: Mail)
    requires Inv(s) && CanAct(s, step) && UserRule(s, step) && Apply(s, step).Live?
    requires step.SwitchFromWorker? && step.next in s.status
    ensures Conserves(s, One(Mail(step.t, Wait) == m), 0, Apply(s, step).state, m)
  {
    hide Inv, Conserves;
    ListFacts(s);
    RunningFacts(s, step.t);
    var r := Apply(s, step).state;
    if s.idleServers != [] { assert s.idleServers[0] in s.idleServers; }
    PushConserves(s, r, step.t, Wait, m);
  }

  lemma CollectStep(s: State, t: Tid, size: int, m: Mail)
    requires Inv(s) && Apply(s, Collect(t, size)).Live?
    ensures Conserves(s, 0, multiset(Delivered(s, Collect(t, size)))[m], Apply(s, Collect(t, size)).state, m)
  {
    hide Inv, Apply, AfterMail, CollectIdle, Collected, NoDup, MailWith, OwedCount;
    ListFacts(s);
    CollectIs(s, t, size);
    if size > 0 {
      if t in s.mail {
        MailTake(s.mail, t, m);
        CollectConserves(AfterMail(s, t), size - 1, m);
      } else {
        CollectConserves(AfterMail(s, t), size, m);
      }
    }
  }

  lemma LoseStep(s: State, t: Tid, m: Mail)
    requires CanAct(s, LoseMail(t))
    ensures Conserves(s, 0, One(s.mail[t] == m), Apply(s, LoseMail(t)).state, m)
  {
    MailTake(s.mail, t, m);
    hide MailWith, OwedCount;
  }

  lemma StepConserves(s: State, step: Step, m: Mail)
    requires Inv(s) && CanAct(s, step) && UserRule(s, step) && Apply(s, step).Live?
    ensures Conserves(s, One(Happens(s, step) == Some(m)),
                      multiset(Delivered(s, step))[m] + One(Swallows(s, step, m)), Apply(s, step).state, m)
  {
    hide Inv, Conserves, UserRule, CollectIdle, Collected;
    match step {
      case Collect(t, size) => CollectStep(s, t, size, m);
      case LoseMail(t) => LoseStep(s, t, m);
      case SwitchFromWorker(t, next, timed) =>
        if next in s.status { SwapStep(s, step, m); } else { UntouchedConserves(s, s, m); }
      case WorkerWake(_) => PushStep(s, step, m);
      case WorkerTimeout(w) =>
        if s.Is(w, WSwapping) { SwapTimeoutStep(s, w, m); } else { PushStep(s, step, m); }
      case WorkerWait(_, _) => MailStep(s, step, m);
      case WorkerPreempt(_) => MailStep(s, step, m);
      case WorkerBlock(_) => MailStep(s, step, m);
      case Unregister(t) => if s.Is(t, WRunning) { MailStep(s, step, m); } else { QuietConserves(s, step, m); }
      case _ => QuietConserves(s, step, m);
    }
  }

  lemma {:induction false} RunConserves(s: State, steps: seq<Step>, m: Mail)
    requires Inv(s) && Legal(s, steps)
    ensures Exec(s, steps).Live?
    ensures Conserves(s, Happenings(s, steps, m), Deliveries(s, steps, m) + Losses(s, steps, m),
                      Exec(s, steps).state, m)
    decreases |steps|
  {
    hide Inv, Apply, CanAct, UserRule, Delivered, Happens, Swallows, Outstanding;
    if steps != [] {
      StepKeeps(s, steps[0]);
      StepConserves(s, steps[0], m);
      RunConserves(Apply(s, steps[0]).state, steps[1..], m);
    }
  }

  lemma NothingOutstanding(m: Mail)
    ensures Outstanding(INITIAL, m) == 0
  {
    assert MailWith(map[], m) == {};
  }

  /** In every legal run, for every worker and event: as often as it happened, it
      has been written into a server's buffer, has been lost with a first word that
      could not be written, or is on its way, in one mailbox or on the idle list. */
  lemma ExactlyOnce(steps: seq<Step>, m: Mail)
    requires Legal(INITIAL, steps)
    ensures Exec(INITIAL, steps).Live?
    ensures Happenings(INITIAL, steps, m)
            == Deliveries(INITIAL, steps, m) + Losses(INITIAL, steps, m) + Outstanding(Exec(INITIAL, steps).state, m)
  {
    hide Inv, Legal, Exec, Happenings, Deliveries, Losses, Outstanding;
    InitialInv();
    RunConserves(INITIAL, steps, m);
    NothingOutstanding(m);
  }
}
