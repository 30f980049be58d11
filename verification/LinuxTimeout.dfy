/** One timed wait of one Linux worker against the servers that collect it and
    attach to it, one atomic access per step. */
module LinuxTimeout {

  datatype Status = Runnable | RunnableTimeout | Swapping | SwappingTimeout | Running

  /** How the wait returned. */
  datatype Result = Ok | TimedOut

  /** Where the worker is: in umcg_idle_loop, in umcg_process_timedout_worker
      before its first compare-exchange with the status it read, before the
      second, past a successful one but not on the list yet, in
      umcg_worker_wait, or back in user space. */
  datatype Phase = InLoop | First(seen: Status) | Second | Enqueueing | WaitingAgain | Returned(result: Result)

  /** `held`: a server has taken the worker off the list and not yet exchanged
      its status. `waits` and `timeouts` count the reports made by collection
      during this wait. */
  datatype State = State(
    swap: bool, status: Status, phase: Phase, onList: bool, held: bool,
    waits: nat, timeouts: nat, killed: bool)

  /** A plain wait reports WAIT through the server's mailbox and starts RUNNABLE;
      a swap starts SWAPPING on the idle list. */
  function Start(swap: bool): State
  {
    State(swap, if swap then Swapping else Runnable, InLoop, swap, false, 0, 0, false)
  }

  datatype Step =
    | LeaveLoop  // umcg_idle_loop sees RUNNING
    | Expire     // umcg_idle_loop sees its timeout and not RUNNING
    | TryFirst | TrySecond | Enqueue | Resume
    | Dequeue    // a server's umcg_dequeue_idle_worker
    | Exchange   // its status exchange and reports
    | Attach     // a server's umcg_wake_worker

  predicate Enabled(s: State, step: Step)
  {
    !s.killed && !s.phase.Returned? &&
    match step
    case LeaveLoop => s.phase.InLoop? && s.status.Running?
    case Expire => s.phase.InLoop? && !s.status.Running?
    case TryFirst => s.phase.First?
    case TrySecond => s.phase.Second?
    case Enqueue => s.phase.Enqueueing?
    case Resume => s.phase.WaitingAgain? && s.status.Running?
    case Dequeue => s.onList
    case Exchange => s.held
    case Attach => true
  }

  function Flagged(st: Status): Status
  {
    if st.Swapping? then SwappingTimeout else if st.Runnable? then RunnableTimeout else st
  }

  function Kill(s: State): State { s.(killed := true) }

  function Apply(s: State, step: Step): State
    requires Enabled(s, step)
  {
    match step
    case LeaveLoop => s.(phase := Returned(Ok))
    case Expire => s.(phase := First(s.status))
    case TryFirst =>
      var seen := s.phase.seen;
      if !seen.Runnable? && !seen.Swapping? then Kill(s)
      else if s.status == seen then
        s.(status := Flagged(seen), phase := if seen.Swapping? then WaitingAgain else Enqueueing)
      else if s.status.Running? then s.(phase := Returned(Ok))
      else if !s.status.Runnable? then Kill(s)
      else s.(phase := Second)
    case TrySecond =>
      if s.status.Runnable? then s.(status := RunnableTimeout, phase := Enqueueing)
      else if s.status.Running? then s.(phase := Returned(Ok))
      else Kill(s)
    case Enqueue => if s.onList then Kill(s) else s.(onList := true, phase := WaitingAgain)
    case Resume => s.(phase := Returned(TimedOut))
    case Dequeue => s.(onList := false, held := true)
    case Exchange =>
      var r := s.(status := Runnable, held := false);
      (match s.status
       case Swapping => r.(waits := s.waits + 1)
       case RunnableTimeout => r.(timeouts := s.timeouts + 1)
       case SwappingTimeout => r.(waits := s.waits + 1, timeouts := s.timeouts + 1)
       case _ => Kill(s))
    case Attach => if s.status.Runnable? then s.(status := Running) else Kill(s)
  }

  predicate Legal(s: State, steps: seq<Step>)
    decreases |steps|
  {
    steps == [] || (Enabled(s, steps[0]) && Legal(Apply(s, steps[0]), steps[1..]))
  }

  function Exec(s: State, steps: seq<Step>): State
    requires Legal(s, steps)
    decreases |steps|
  {
    if steps == [] then s else Exec(Apply(s, steps[0]), steps[1..])
  }

  predicate Pending(s: State) { s.status.RunnableTimeout? || s.status.SwappingTimeout? }

  predicate Swapped(s: State) { s.status.Swapping? || s.status.SwappingTimeout? }

  /** The worker has taken the `wait` exit. */
  predicate Committed(s: State)
  {
    s.phase.Enqueueing? || s.phase.WaitingAgain? || s.phase == Returned(TimedOut)
  }

  predicate Inv(s: State)
  {
    // A TIMEOUT is owed or has been reported exactly since the worker committed.
    && s.timeouts + (if Pending(s) then 1 else 0) == (if Committed(s) then 1 else 0)
    // So is the WAIT of a swap, from the start.
    && s.waits + (if Swapped(s) then 1 else 0) == (if s.swap then 1 else 0)
    && !(s.onList && s.held)
    && (s.onList || s.held <==> Swapped(s) || (s.status.RunnableTimeout? && !s.phase.Enqueueing?))
    && (s.phase.First? ==> s.phase.seen.Runnable? || s.phase.seen.Swapping?)
    && (s.phase == First(Runnable) || s.phase.Second? ==> s.status.Runnable? || s.status.Running?)
    && (s.phase.Enqueueing? ==> s.status.RunnableTimeout?)
    && (s.phase.Returned? ==> s.status.Running?)
  }

  /** Only an attach can kill, and it does exactly when it comes while the worker
      is not RUNNABLE: the `kill` label of umcg_process_timedout_worker and the
      unexpected statuses of the collection are unreachable. */
  lemma OnlyAttachKills(s: State, step: Step)
    requires Inv(s) && Enabled(s, step)
    ensures Apply(s, step).killed <==> step.Attach? && !s.status.Runnable?
    ensures !Apply(s, step).killed ==> Inv(Apply(s, step))
  {
  }

  lemma {:induction false} RunKeeps(s: State, steps: seq<Step>)
    requires Inv(s) && Legal(s, steps)
    ensures !Exec(s, steps).killed ==> Inv(Exec(s, steps))
    ensures Exec(s, steps).swap == s.swap
    decreases |steps|
  {
    if steps != [] {
      OnlyAttachKills(s, steps[0]);
      var r := Apply(s, steps[0]);
      if r.killed {
        assert steps[1..] == [];
      } else {
        hide Inv;
        RunKeeps(r, steps[1..]);
      }
    }
  }

  /** However the worker's timeout interleaves with dequeues, exchanges and
      attaches: the wait returns -ETIMEDOUT exactly when one TIMEOUT was reported
      for it, and zero exactly when none was; and a swap was reported by exactly
      one WAIT before it returns. */
  lemma TimedWaitAgrees(swap: bool, steps: seq<Step>)
    requires Legal(Start(swap), steps)
    ensures var s := Exec(Start(swap), steps);
            !s.killed && s.phase.Returned? ==>
              && (s.phase.result == TimedOut <==> s.timeouts == 1)
              && (s.phase.result == Ok <==> s.timeouts == 0)
              && s.waits == if swap then 1 else 0
  {
    RunKeeps(Start(swap), steps);
  }

  /** All the way through, not only at the end: never two TIMEOUT reports, and
      none before the worker has committed to -ETIMEDOUT. */
  lemma NeverTwoTimeouts(swap: bool, steps: seq<Step>)
    requires Legal(Start(swap), steps)
    ensures var s := Exec(Start(swap), steps);
            !s.killed ==> s.timeouts <= 1 && s.waits <= 1 && (s.timeouts == 1 ==> Committed(s))
  {
    RunKeeps(Start(swap), steps);
  }
}
