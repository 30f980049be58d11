/** One timed wait of one klib worker: its own call, the timer handler, the
    collection loop and a server's switch, one compare-and-swap, one store or one
    section under the lock per step. */
module KlibTimeout {

  datatype Status = Idle | IdleTimeout | Runnable | Running | Waiting

  /** The worker's event field, as far as the list reports it. */
  datatype Listing = WaitEvent | TimeoutEvent

  /** The return value of the call; `Stale` until it is first set. */
  datatype Value = Stale | Zero | MinusTimedOut

  /** The worker's own call: about to register the timer, about to set the return
      value to 0, or asleep. */
  datatype Caller = Arming | Zeroing | Asleep

  /** The handler: not registered yet; registered; past a failed first
      compare-and-swap; past a successful one and about to list the worker; about
      to set the return value; done with or without effect; or removed before it
      ran. */
  datatype Handler = Unset | Armed | Retry | Won | SetReturn | Fired | Missed | Removed

  /** The collection loop at this worker, holding the lock from Reported on. */
  datatype Collector = Away | Reported | Checked | Stored

  /** A server's switch to the worker: none, past winning its status, past
      removing its timer, or complete. */
  datatype Switch = None | Won | Disarmed | Resumed

  /** `returned` is the value the worker resumed with. `waits` and `timeouts`
      count the list reports made during this wait. */
  datatype State = State(
    swap: bool, status: Status, listing: Listing, onList: bool,
    caller: Caller, handler: Handler, collector: Collector, switch: Switch,
    value: Value, waits: nat, timeouts: nat, returned: Value)

  /** A wait leaves the worker WAITING; a swap leaves it IDLE on the list. Others
      can act on either at once, before the call has registered its timer. */
  function Start(swap: bool): State
  {
    State(swap, if swap then Idle else Waiting, WaitEvent, swap, Arming, Unset, Away, Switch.None, Stale, 0, 0, Stale)
  }

  datatype Step =
    | Arm | StoreZero                              // umcg_wait and umcg_ctx_switch by the worker
    | FirstSwap | SecondSwap | List | SetValue     // umcg_worker_timeout
    | Report | Check | StoreRunnable | Delete      // umcg_server_get_events
    | Win | RemoveTimer(waits: bool) | Resume      // umcg_ctx_switch by a server

  predicate HandlerBusy(s: State) { s.handler.Retry? || s.handler.Won? || s.handler.SetReturn? }

  /** `RemoveTimer(true)` waits for a handler that has already started; nothing in
      the klib says whether it does. A thread is resumed only once it sleeps. */
  predicate Enabled(s: State, step: Step)
  {
    match step
    case Arm => s.caller.Arming?
    case StoreZero => s.caller.Zeroing?
    case FirstSwap => s.handler.Armed?
    case SecondSwap => s.handler.Retry?
    case List => s.handler.Won? && s.collector.Away?
    case SetValue => s.handler.SetReturn?
    case Report => s.onList && s.collector.Away?
    case Check => s.collector.Reported?
    case StoreRunnable => s.collector.Checked?
    case Delete => s.collector.Stored?
    case Win => s.switch.None? && (s.status.Runnable? || s.status.Waiting?)
    case RemoveTimer(waits) => s.switch.Won? && (waits ==> !HandlerBusy(s))
    case Resume => s.switch.Disarmed? && s.caller.Asleep?
  }

  function Apply(s: State, step: Step): State
    requires Enabled(s, step)
  {
    match step
    case Arm => s.(caller := Zeroing, handler := Armed)
    case StoreZero => s.(caller := Asleep, value := Zero)
    case FirstSwap =>
      if s.status.Waiting? then s.(status := Idle, handler := Handler.Won) else s.(handler := Retry)
    case SecondSwap =>
      if s.status.Idle? then s.(status := IdleTimeout, handler := SetReturn) else s.(handler := Missed)
    case List => s.(listing := TimeoutEvent, onList := true, handler := SetReturn)
    case SetValue => s.(value := MinusTimedOut, handler := Fired)
    case Report =>
      if s.listing.WaitEvent? then s.(waits := s.waits + 1, collector := Reported)
      else s.(timeouts := s.timeouts + 1, collector := Checked)
    case Check =>
      if s.status.Idle? then s.(status := IdleTimeout, collector := Checked)
      else s.(timeouts := s.timeouts + 1, collector := Checked)
    case StoreRunnable => s.(status := Runnable, collector := Stored)
    case Delete => s.(onList := false, collector := Away)
    case Win => s.(status := Running, switch := Switch.Won)
    case RemoveTimer(_) => s.(switch := Disarmed, handler := if s.handler.Armed? then Removed else s.handler)
    case Resume => s.(switch := Resumed, returned := s.value)
  }

  predicate Legal(s: State, steps: seq<Step>)
    decreases |steps|
  {
    steps == [] || (Enabled(s, steps[0]) && Legal(Apply(s, steps[0]), steps[1..]))
  }

  function Exec(s: State, steps: seq<Step>): State
    requires Legal(s, steps)
    decreases |steps|
  {
    if steps == [] then s else Exec(Apply(s, steps[0]), steps[1..])
  }

  /** The handler has claimed the wait. */
  predicate Claimed(s: State) { s.handler.Won? || s.handler.SetReturn? || s.handler.Fired? }

  /** A TIMEOUT that the list will still report. */
  predicate Owed(s: State)
  {
    || s.handler.Won?
    || (s.onList && s.listing.TimeoutEvent? && s.collector.Away?)
    || (s.status.IdleTimeout? && s.listing.WaitEvent? && !s.collector.Checked?)
  }

  predicate Inv(s: State)
  {
    && s.timeouts + (if Owed(s) then 1 else 0) == (if Claimed(s) then 1 else 0)
    && s.waits + (if s.onList && s.collector.Away? && s.swap then 1 else 0) == (if s.swap then 1 else 0)
    && (s.handler.Unset? <==> s.caller.Arming?)
    && (!s.handler.Fired? ==> s.value == if s.caller.Asleep? then Zero else Stale)
    && (s.handler.Fired? ==> if s.caller.Asleep? then s.value != Stale else s.value == MinusTimedOut)
    && (s.swap ==> s.listing.WaitEvent? && !s.handler.Won? && !s.status.Waiting?)
    && (!s.swap ==> (s.listing.TimeoutEvent? <==> s.handler.SetReturn? || s.handler.Fired?))
    && (!s.collector.Away? ==> s.onList)
    && (s.collector.Reported? ==> s.swap && (s.status.Idle? || s.status.IdleTimeout?))
    && (s.collector.Checked? ==> s.status.IdleTimeout? || (!s.swap && s.status.Idle?))
    && (s.onList && s.collector.Away? ==> s.status.Idle? || s.status.IdleTimeout?)
    && (s.collector.Stored? ==> s.status.Runnable? || s.status.Running?)
    && (s.status.Idle? || s.status.IdleTimeout? ==> s.onList || s.handler.Won?)
    && (s.handler.Won? ==> s.status.Idle? && !s.onList)
    && (!s.swap ==> !s.status.IdleTimeout? && (s.onList ==> s.listing.TimeoutEvent?))
    && (!s.swap && (s.handler.Retry? || s.handler.Missed?) ==> s.status.Running?)
    && (!s.swap && (s.handler.Unset? || s.handler.Armed?) ==> s.status.Waiting? || s.status.Running?)
    && (s.status.Waiting? ==> s.handler.Unset? || s.handler.Armed?)
    && (!s.switch.None? <==> s.status.Running?)
    && (s.handler.Removed? ==> s.switch.Disarmed? || s.switch.Resumed?)
    && (s.switch.Resumed? ==> s.caller.Asleep? && s.returned != Stale)
  }

  lemma StepKeeps(s: State, step: Step)
    requires Inv(s) && Enabled(s, step)
    ensures Inv(Apply(s, step)) && Apply(s, step).swap == s.swap
  {
  }

  lemma {:induction false} RunKeeps(s: State, steps: seq<Step>)
    requires Inv(s) && Legal(s, steps)
    ensures Inv(Exec(s, steps)) && Exec(s, steps).swap == s.swap
    decreases |steps|
  {
    hide Inv;
    if steps != [] {
      StepKeeps(s, steps[0]);
      RunKeeps(Apply(s, steps[0]), steps[1..]);
    }
  }

  /** Under every interleaving, the list reports TIMEOUT for this wait at most
      once, and only if the handler has claimed it; and by the time a server gets
      the worker to run, it has reported TIMEOUT exactly if the handler has. */
  lemma TimeoutReportedIffClaimed(swap: bool, steps: seq<Step>)
    requires Legal(Start(swap), steps)
    ensures var s := Exec(Start(swap), steps);
            && s.timeouts <= 1 && s.waits <= (if swap then 1 else 0)
            && (s.timeouts == 1 ==> Claimed(s))
            && (s.status.Running? ==> (s.timeouts == 1 <==> Claimed(s)) && s.waits == if swap then 1 else 0)
  {
    RunKeeps(Start(swap), steps);
  }

  /** A handler that is not disturbed claims the wait if and only if the worker still
      waits, or has swapped and is still listed without a timeout. */
  lemma ClaimsIffStillWaiting(s: State)
    requires s.handler.Armed?
    ensures var r := Apply(s, FirstSwap);
            Claimed(if r.handler.Retry? then Apply(r, SecondSwap) else r) <==> s.status.Waiting? || s.status.Idle?
  {
  }

  // ------------------------------------------------- the value and the report

  /** In the run, the handler sets the value before the call does. */
  predicate SetTooEarly(steps: seq<Step>)
  {
    steps != [] && if steps[0] == SetValue then StoreZero in steps[1..] else SetTooEarly(steps[1..])
  }

  predicate Waited(steps: seq<Step>) { RemoveTimer(false) !in steps }

  /** The value set by the handler has been overwritten. */
  predicate Lost(s: State) { s.handler.Fired? && s.value == Zero }

  /** The call stores its value once; so does the handler. */
  lemma {:induction false} CallerIsDone(s: State, steps: seq<Step>)
    requires Inv(s) && Legal(s, steps)
    ensures s.caller.Asleep? ==> StoreZero !in steps
    ensures s.handler.Fired? ==> SetValue !in steps
    decreases |steps|
  {
    if steps != [] {
      StepKeeps(s, steps[0]);
      hide Inv;
      CallerIsDone(Apply(s, steps[0]), steps[1..]);
      assert steps == [steps[0]] + steps[1..];
    }
  }

  lemma {:induction false} LostIff(s: State, steps: seq<Step>)
    requires Inv(s) && Legal(s, steps)
    ensures Lost(Exec(s, steps)) <==>
            if s.handler.Fired? then Lost(s) || StoreZero in steps else SetTooEarly(steps)
    decreases |steps|
  {
    if steps != [] {
      var r := Apply(s, steps[0]);
      StepKeeps(s, steps[0]);
      LostIff(r, steps[1..]);
      CallerIsDone(r, steps[1..]);
      assert steps == [steps[0]] + steps[1..];
    }
  }

  /** The value the worker resumes with agrees with the report, -ETIMEDOUT exactly
      if TIMEOUT was reported, if and only if the handler is not just then between
      listing the worker and setting the value, and had not set it before the call
      itself set it to 0. */
  lemma ReturnAgreesIffHandlerIsInTime(swap: bool, steps: seq<Step>)
    requires Legal(Start(swap), steps) && Enabled(Exec(Start(swap), steps), Resume)
    ensures var s := Exec(Start(swap), steps);
            var r := Apply(s, Resume);
            (r.returned == MinusTimedOut <==> r.timeouts == 1) <==> !s.handler.SetReturn? && !SetTooEarly(steps)
  {
    RunKeeps(Start(swap), steps);
    LostIff(Start(swap), steps);
  }

  lemma {:induction false} WaitedRun(s: State, steps: seq<Step>)
    requires Inv(s) && Legal(s, steps) && Waited(steps)
    requires s.switch.Disarmed? || s.switch.Resumed? ==> !s.handler.SetReturn?
    ensures var f := Exec(s, steps); f.switch.Disarmed? || f.switch.Resumed? ==> !f.handler.SetReturn?
    decreases |steps|
  {
    if steps != [] {
      StepKeeps(s, steps[0]);
      assert steps[0] in steps;
      assert forall x :: x in steps[1..] ==> x in steps;
      WaitedRun(Apply(s, steps[0]), steps[1..]);
    }
  }

  /** If removing a timer waits for a handler that has started, one of the two
      conditions is left: the handler must not finish before the call stores 0. */
  lemma WaitingLeavesTheEarlyHandler(swap: bool, steps: seq<Step>)
    requires Legal(Start(swap), steps) && Enabled(Exec(Start(swap), steps), Resume) && Waited(steps)
    ensures var r := Apply(Exec(Start(swap), steps), Resume);
            (r.returned == MinusTimedOut <==> r.timeouts == 1) <==> !SetTooEarly(steps)
  {
    WaitedRun(Start(swap), steps);
    ReturnAgreesIffHandlerIsInTime(swap, steps);
  }

  // ------------------------------------------------ a timer that is left behind

  /** In the run, the switch removes the timer before the call registers it. */
  predicate ArmedLate(steps: seq<Step>)
  {
    steps != [] && if steps[0].RemoveTimer? then Arm in steps[1..] else ArmedLate(steps[1..])
  }

  lemma {:induction false} ArmedOnce(s: State, steps: seq<Step>)
    requires Legal(s, steps) && !s.caller.Arming?
    ensures Arm !in steps && !ArmedLate(steps)
    decreases |steps|
  {
    if steps != [] {
      assert steps[0] != Arm && !Apply(s, steps[0]).caller.Arming?;
      hide Apply, Enabled;
      ArmedOnce(Apply(s, steps[0]), steps[1..]);
      assert steps == [steps[0]] + steps[1..];
    }
  }

  predicate PastRemoval(s: State) { s.switch.Disarmed? || s.switch.Resumed? }

  lemma {:induction false} ArmedIff(s: State, steps: seq<Step>)
    requires Inv(s) && Legal(s, steps) && PastRemoval(Exec(s, steps))
    ensures Exec(s, steps).handler.Armed? <==>
            && FirstSwap !in steps
            && if PastRemoval(s) then s.handler.Armed? || (s.handler.Unset? && Arm in steps)
               else s.handler.Unset? && ArmedLate(steps)
    decreases |steps|
  {
    if steps != [] {
      StepKeeps(s, steps[0]);
      ArmedIff(Apply(s, steps[0]), steps[1..]);
      if !Apply(s, steps[0]).caller.Arming? { ArmedOnce(Apply(s, steps[0]), steps[1..]); }
      assert steps == [steps[0]] + steps[1..];
    }
  }

  /** The worker runs again with the timer of its wait still registered if and only
      if the switch removed the timer before the call registered it, and the
      handler has not run. */
  lemma TimerIsLeftIffArmedLate(swap: bool, steps: seq<Step>)
    requires Legal(Start(swap), steps) && Enabled(Exec(Start(swap), steps), Resume)
    ensures Apply(Exec(Start(swap), steps), Resume).handler.Armed? <==> ArmedLate(steps) && FirstSwap !in steps
  {
    ArmedIff(Start(swap), steps);
  }

  /** A later wait without a timeout, by a worker with this handler. */
  function LaterWait(h: Handler): State { Start(false).(caller := Asleep, handler := h, value := Zero) }

  lemma ExecCons(s: State, step: Step, rest: seq<Step>)
    requires Enabled(s, step) && Legal(Apply(s, step), rest)
    ensures Legal(s, [step] + rest) && Exec(s, [step] + rest) == Exec(Apply(s, step), rest)
  {
    assert ([step] + rest)[1..] == rest;
  }

  /** The call of a swap is slow: a server collects it, wins its status and removes
      its timer before there is one. */
  lemma SlowCall(s: State) returns (steps: seq<Step>)
    requires s.switch.Won? && s.caller.Arming? && s.handler.Unset?
    ensures Legal(s, steps) && Waited(steps)
    ensures Exec(s, steps) == s.(switch := Disarmed, caller := Asleep, handler := Armed, value := Zero)
  {
    var s1 := Apply(s, RemoveTimer(true));
    var s2 := Apply(s1, Arm);
    ExecCons(s2, StoreZero, []);
    ExecCons(s1, Arm, [StoreZero]);
    steps := [RemoveTimer(true), Arm, StoreZero];
    ExecCons(s, RemoveTimer(true), [Arm, StoreZero]);
  }

  lemma CollectSwap() returns (s: State, steps: seq<Step>)
    ensures Legal(Start(true), steps) && Exec(Start(true), steps) == s && Waited(steps)
    ensures s.switch.Won? && s.caller.Arming? && s.handler.Unset?
  {
    var s0 := Start(true);
    var s1 := Apply(s0, Report);
    var s2 := Apply(s1, Check);
    var s3 := Apply(s2, StoreRunnable);
    var s4 := Apply(s3, Delete);
    s := Apply(s4, Win);
    ExecCons(s4, Win, []);
    ExecCons(s3, Delete, [Win]);
    ExecCons(s2, StoreRunnable, [Delete, Win]);
    ExecCons(s1, Check, [StoreRunnable, Delete, Win]);
    steps := [Report, Check, StoreRunnable, Delete, Win];
    ExecCons(s0, Report, [Check, StoreRunnable, Delete, Win]);
  }

  lemma {:induction false} ExecAppend(s: State, a: seq<Step>, b: seq<Step>)
    requires Legal(s, a) && Legal(Exec(s, a), b)
    ensures Legal(s, a + b) && Exec(s, a + b) == Exec(Exec(s, a), b)
    decreases |a|
  {
    hide Apply, Enabled;
    if a == [] {
      assert a + b == b;
    } else {
      ExecAppend(Apply(s, a[0]), a[1..], b);
      assert (a + b)[1..] == a[1..] + b;
    }
  }

  lemma EndsLaterWait() returns (later: seq<Step>)
    ensures Legal(LaterWait(Armed), later)
    ensures Exec(LaterWait(Armed), later).timeouts == 1 && Exec(LaterWait(Armed), later).value == MinusTimedOut
  {
    var s0 := LaterWait(Armed);
    var s1 := Apply(s0, FirstSwap);
    var s2 := Apply(s1, List);
    var s3 := Apply(s2, SetValue);
    ExecCons(s3, Report, []);
    ExecCons(s2, SetValue, [Report]);
    ExecCons(s1, List, [SetValue, Report]);
    later := [FirstSwap, List, SetValue, Report];
    ExecCons(s0, FirstSwap, [List, SetValue, Report]);
  }

  /** A run that leaves the timer behind. It can then end a later wait of the
      worker, one that has no timeout, and have TIMEOUT reported for it. */
  lemma TimerLeftBehind() returns (steps: seq<Step>, later: seq<Step>)
    ensures Legal(Start(true), steps) && Enabled(Exec(Start(true), steps), Resume) && Waited(steps)
    ensures var h := Apply(Exec(Start(true), steps), Resume).handler;
            && h == Armed && Legal(LaterWait(h), later)
            && Exec(LaterWait(h), later).timeouts == 1 && Exec(LaterWait(h), later).value == MinusTimedOut
  {
    var s, before := CollectSwap();
    var after := SlowCall(s);
    ExecAppend(Start(true), before, after);
    steps := before + after;
    later := EndsLaterWait();
  }

  // --------------------------------------------------------- both failing runs

  /** TIMEOUT is reported, the worker can resume, and its wait would return 0. */
  ghost predicate Disagrees(steps: seq<Step>)
  {
    && Legal(Start(false), steps)
    && var s := Exec(Start(false), steps);
       Enabled(s, Resume) && Apply(s, Resume).timeouts == 1 && Apply(s, Resume).returned == Zero
  }

  /** What follows once the worker is listed with TIMEOUT. */
  lemma CollectAndSwitch(s: State, waits: bool) returns (steps: seq<Step>)
    requires s.onList && s.collector.Away? && s.listing.TimeoutEvent? && s.timeouts == 0 && s.switch.None?
    requires waits ==> !HandlerBusy(s)
    ensures Legal(s, steps)
    ensures Exec(s, steps) == s.(status := Running, onList := false, timeouts := 1, switch := Disarmed,
                                 handler := if s.handler.Armed? then Removed else s.handler)
    ensures steps == [Report, StoreRunnable, Delete, Win, RemoveTimer(waits)]
  {
    var s1 := Apply(s, Report);
    var s2 := Apply(s1, StoreRunnable);
    var s3 := Apply(s2, Delete);
    var s4 := Apply(s3, Win);
    ExecCons(s4, RemoveTimer(waits), []);
    ExecCons(s3, Win, [RemoveTimer(waits)]);
    ExecCons(s2, Delete, [Win, RemoveTimer(waits)]);
    ExecCons(s1, StoreRunnable, [Delete, Win, RemoveTimer(waits)]);
    steps := [Report, StoreRunnable, Delete, Win, RemoveTimer(waits)];
    ExecCons(s, Report, [StoreRunnable, Delete, Win, RemoveTimer(waits)]);
  }

  /** The handler is late: it has listed the worker and not set the value yet, and
      removing the timer does not wait for it. */
  lemma LateHandlerReturnsZero() returns (steps: seq<Step>)
    ensures Disagrees(steps) && !SetTooEarly(steps)
  {
    var s0 := Start(false);
    var s1 := Apply(s0, Arm);
    var s2 := Apply(s1, StoreZero);
    var s3 := Apply(s2, FirstSwap);
    var s4 := Apply(s3, List);
    var rest := CollectAndSwitch(s4, false);
    ExecCons(s3, List, rest);
    ExecCons(s2, FirstSwap, [List] + rest);
    ExecCons(s1, StoreZero, [FirstSwap] + ([List] + rest));
    steps := [Arm] + ([StoreZero] + ([FirstSwap] + ([List] + rest)));
    ExecCons(s0, Arm, steps[1..]);
    LostIff(s0, steps);
  }

  /** A listed worker whose handler sets the value before the call does. */
  lemma EarlyTail(s: State) returns (steps: seq<Step>)
    requires s.onList && s.collector.Away? && s.listing.TimeoutEvent? && s.timeouts == 0 && s.switch.None?
    requires s.handler.SetReturn? && s.caller.Zeroing?
    ensures Legal(s, steps) && Waited(steps)
    ensures var f := Exec(s, steps); f.timeouts == 1 && f.value == Zero && f.switch.Disarmed? && f.caller.Asleep?
  {
    var s1 := Apply(s, SetValue);
    var s2 := Apply(s1, StoreZero);
    var rest := CollectAndSwitch(s2, true);
    ExecCons(s1, StoreZero, rest);
    steps := [SetValue] + ([StoreZero] + rest);
    ExecCons(s, SetValue, [StoreZero] + rest);
  }

  /** The handler is early: it has done all its work before the call stores 0 over
      its value. Waiting for it does not help. */
  lemma EarlyHandlerReturnsZero() returns (steps: seq<Step>)
    ensures Disagrees(steps) && Waited(steps)
  {
    var s0 := Start(false);
    var s1 := Apply(s0, Arm);
    var s2 := Apply(s1, FirstSwap);
    var s3 := Apply(s2, List);
    var rest := EarlyTail(s3);
    ExecCons(s2, List, rest);
    ExecCons(s1, FirstSwap, [List] + rest);
    steps := [Arm] + ([FirstSwap] + ([List] + rest));
    ExecCons(s0, Arm, [FirstSwap] + ([List] + rest));
  }
}
