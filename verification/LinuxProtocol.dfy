/** The Linux form of the protocol as a transition system over any number of
    tasks. One step is one system call body or one scheduler hook. A step either
    kills the process or leads to a next state. */
module LinuxProtocol {
  import opened Events
  import opened Lists

  type Tid = nat

  /** A task that is in no map has status zero: it is not registered. */
  datatype Status =
    | SAttached | SIdle | SRunning
    | WBlocked | WWaking | WSwapping | WSwappingTimeout
    | WRunnable | WRunnableTimeout | WRunning

  predicate IsServer(st: Status) { st.SAttached? || st.SIdle? || st.SRunning? }

  datatype Mail = Mail(worker: Tid, event: Event)

  /** `server` is the worker's umcg_server (no entry: NULL) and `mail` the
      server's umcg_worker_event (no entry: zero). Both idle lists have their
      head first. `inLoop` are the servers between entering the idle loop and
      collecting their events, `waiting` the workers in the idle loop: a signal can
      make either leave it for a moment. `credit` and `armed` are what user space
      knows: workers that have reported WAKE, WAIT or PREEMPT since their last
      switch-in, and workers whose timed wait has neither ended nor reported
      TIMEOUT. An ATTACHED server is armed if it has gone back into its loop with a
      timeout. `lost` are the workers whose WAIT or PREEMPT a fault has swallowed. */
  datatype State = State(
    status: map<Tid, Status>,
    server: map<Tid, Tid>,
    mail: map<Tid, Mail>,
    idleWorkers: seq<Tid>,
    idleServers: seq<Tid>,
    inLoop: set<Tid>,
    waiting: set<Tid>,
    credit: set<Tid>,
    lost: set<Tid>,
    armed: set<Tid>)
  {
    predicate Is(t: Tid, st: Status) { t in status && status[t] == st }

    function Set(t: Tid, st: Status): State { this.(status := status[t := st]) }
  }

  const INITIAL: State := State(map[], map[], map[], [], [], {}, {}, {}, {}, {})

  datatype Outcome = Killed | Live(state: State)

  // ---------------------------------------------------------------- helpers

  /** umcg_wake_server, for a server that may be NULL. */
  function WakeServer(s: State, server: Option<Tid>, m: Mail): Outcome
  {
    if server.None? then Killed
    else if server.value in s.mail then Killed
    else
      var t := server.value;
      var s1 := s.(mail := s.mail[t := m]);
      if t !in s.status then Live(s1)
      else if s.status[t] != SAttached then Killed
      else Live(s1.Set(t, SRunning))
  }

  /** The list is threaded through the workers, so the kernel notices a worker
      that is already on it only when another one follows. */
  predicate HasNext(list: seq<Tid>, w: Tid)
  {
    exists i :: 0 <= i < |list| - 1 && list[i] == w
  }

  function EnqueueIdleWorker(s: State, w: Tid): Outcome
  {
    if HasNext(s.idleWorkers, w) then Killed
    else Live(s.(idleWorkers := [w] + s.idleWorkers))
  }

  function EnqueueIdleServer(s: State, t: Tid): Outcome
  {
    if s.idleWorkers != [] then
      if s.Is(t, SIdle) then Live(s.Set(t, SRunning)) else Killed
    else if t in s.idleServers then Killed
    else Live(s.(idleServers := [t] + s.idleServers))
  }

  function WakeIdleServer(s: State): State
  {
    if s.idleServers == [] then s
    else s.Set(s.idleServers[0], SRunning).(idleServers := s.idleServers[1..])
  }

  function WakeWorker(s: State, w: Tid, server: Tid): Outcome
  {
    if !s.Is(w, WRunnable) then Killed
    else Live(s.Set(w, WRunning).(server := s.server[w := server], waiting := s.waiting - {w},
                                  credit := s.credit - {w}, armed := s.armed - {w}))
  }

  function ServerOf(s: State, w: Tid): Option<Tid>
  {
    if w in s.server then Some(s.server[w]) else None
  }

  /** What user space learns from the reports `es` about worker `w`. */
  function Learn(s: State, w: Tid, es: seq<Event>): State
  {
    s.(credit := if Wake in es || Wait in es || Preempt in es then s.credit + {w} else s.credit,
       armed := if Timeout in es then s.armed - {w} else s.armed)
  }

  /** The reports owed for a worker found on the idle list with this status;
      none means the status is unexpected. */
  function Owed(st: Status): seq<Event>
  {
    match st
    case WWaking => [Wake]
    case WSwapping => [Wait]
    case WRunnableTimeout => [Timeout]
    case WSwappingTimeout => [Wait, Timeout]
    case _ => []
  }

  /** One turn of the collection loop. */
  function CollectOne(s: State): (o: Outcome)
    requires s.idleWorkers != []
    ensures o.Live? ==> o.state.idleWorkers == s.idleWorkers[1..]
  {
    var w := s.idleWorkers[0];
    if w !in s.status || Owed(s.status[w]) == [] then Killed
    else Live(Learn(s.Set(w, WRunnable).(idleWorkers := s.idleWorkers[1..]), w, Owed(s.status[w])))
  }

  /** The collection loop with room for `size` reports. */
  function CollectIdle(s: State, size: int): Outcome
    decreases |s.idleWorkers|
  {
    if size <= 1 || s.idleWorkers == [] then Live(s)
    else
      match CollectOne(s)
      case Killed => Killed
      case Live(s1) => CollectIdle(s1, size - |Owed(s.status[s.idleWorkers[0]])|)
  }

  // ------------------------------------------------------------------ steps

  /** The timeout of a wait: none, the 1 that asks for a poll, or a later time. */
  datatype Limit = NoLimit | Poll | Later

  datatype Step =
    | RegisterWorker(t: Tid)
    | RegisterServer(t: Tid)
    | Unregister(t: Tid)
    | ServerWait(t: Tid, size: int)
    | ServerTimeout(t: Tid)
    | Collect(t: Tid, size: int)
    | LoseMail(t: Tid)               // collection whose first word cannot be written
    | SwitchFromServer(t: Tid, next: Tid)
    | SwitchFromWorker(t: Tid, next: Tid, timed: bool)
    | WorkerWait(t: Tid, timed: bool)
    | WorkerPreempt(t: Tid)
    | WorkerBlock(t: Tid)
    | WorkerWake(t: Tid)
    | WorkerTimeout(t: Tid)
    | WakeCommand
    | Reenter(t: Tid, limit: Limit)  // after a signal, with the INTERRUPTED flag

  function Apply(s: State, step: Step): Outcome
  {
    match step
    case RegisterWorker(t) =>
      if t in s.status then Live(s) else Live(s.Set(t, WBlocked).(server := s.server - {t}))
    case RegisterServer(t) =>
      if t in s.status then Live(s) else Live(s.Set(t, SRunning).(mail := s.mail - {t}))
    case Unregister(t) =>
      if s.Is(t, SRunning) then Live(s.(status := s.status - {t}))
      else if s.Is(t, WRunning) then
        WakeServer(s.(status := s.status - {t}, server := s.server - {t}), ServerOf(s, t), Mail(t, Exit))
      else Live(s)
    case ServerWait(t, size) =>
      if !s.Is(t, SRunning) || size < 2 then Live(s)
      else if t in s.mail then Killed
      else EnqueueIdleServer(s.Set(t, SIdle).(inLoop := s.inLoop + {t}), t)
    case ServerTimeout(t) =>
      Live(s.Set(t, SRunning).(idleServers := Without(s.idleServers, t)))
    case Collect(t, size) =>
      var s0 := s.(inLoop := s.inLoop - {t});
      if size <= 0 then Live(s0)
      else if t in s.mail then CollectIdle(Learn(s0.(mail := s.mail - {t}), s.mail[t].worker, [s.mail[t].event]),
          size - 1)
      else CollectIdle(s0, size)
    case LoseMail(t) =>
      if t !in s.mail then Live(s)
      else
        var m := s.mail[t];
        Live(s.(inLoop := s.inLoop - {t}, mail := s.mail - {t},
                lost := if m.event.Wait? || m.event.Preempt? then s.lost + {m.worker} else s.lost))
    case SwitchFromServer(t, next) =>
      if next !in s.status then Live(s)
      else if !s.Is(t, SRunning) then Killed
      else WakeWorker(s.Set(t, SAttached).(inLoop := s.inLoop + {t}, armed := s.armed - {t}), next, t)
    case SwitchFromWorker(t, next, timed) =>
      if next !in s.status then Live(s)
      else if !s.Is(t, WRunning) || t !in s.server then Killed
      else
        var s1 := s.Set(t, WSwapping).(server := s.server - {t}, waiting := s.waiting + {t},
                                       armed := if timed then s.armed + {t} else s.armed);
        (match EnqueueIdleWorker(s1, t)
         case Killed => Killed
         case Live(s2) =>
           match WakeWorker(s2, next, s.server[t])
           case Killed => Killed
           case Live(s3) => Live(WakeIdleServer(s3)))
    case WorkerWait(t, timed) =>
      if !s.Is(t, WRunning) then Killed
      else WakeServer(s.Set(t, WRunnable).(server := s.server - {t}, waiting := s.waiting + {t},
                                           armed := if timed then s.armed + {t} else s.armed),
                      ServerOf(s, t), Mail(t, Wait))
    case WorkerPreempt(t) =>
      if !s.Is(t, WRunning) then Killed
      else WakeServer(s.Set(t, WRunnable).(server := s.server - {t}), ServerOf(s, t), Mail(t, Preempt))
    case WorkerBlock(t) =>
      if !s.Is(t, WRunning) then Killed
      else WakeServer(s.Set(t, WBlocked).(server := s.server - {t}), ServerOf(s, t), Mail(t, Block))
    case WorkerWake(t) =>
      if !s.Is(t, WBlocked) then Killed
      else (match EnqueueIdleWorker(s.Set(t, WWaking), t)
            case Killed => Killed
            case Live(s1) => Live(WakeIdleServer(s1)))
    case WorkerTimeout(t) =>
      if s.Is(t, WSwapping) then Live(s.Set(t, WSwappingTimeout).(waiting := s.waiting - {t}))
      else if !s.Is(t, WRunnable) then Killed
      else (match EnqueueIdleWorker(s.Set(t, WRunnableTimeout).(waiting := s.waiting - {t}), t)
            case Killed => Killed
            case Live(s1) => Live(WakeIdleServer(s1)))
    case WakeCommand => Live(WakeIdleServer(s))
    case Reenter(t, limit) =>
      if t in s.status && IsServer(s.status[t]) then
        if limit.Poll? then Live(s.Set(t, SRunning).(idleServers := Without(s.idleServers, t)))
        else Live(s.(armed := if limit.Later? && s.Is(t, SAttached) then s.armed + {t} else s.armed - {t}))
      else Live(s.(armed := if limit.NoLimit? then s.armed - {t} else s.armed + {t}))
  }

  /** Which thread can be about to take a step at all. A server is in user mode
      unless it is in its idle loop, a worker only while RUNNING; the idle loop
      ends for a RUNNING server, by timeout for an IDLE one, and for an ATTACHED one
      if it has a timeout. A thread that a signal takes out of its loop can only go
      back into it. The hooks run on the worker they concern. */
  predicate CanAct(s: State, step: Step)
  {
    match step
    case RegisterWorker(t) => UserMode(s, t)
    case RegisterServer(t) => UserMode(s, t)
    case Unregister(t) => UserMode(s, t)
    case ServerWait(t, _) => UserMode(s, t) && s.Is(t, SRunning)
    case ServerTimeout(t) => t in s.inLoop && (s.Is(t, SIdle) || (s.Is(t, SAttached) && t in s.armed))
    case Collect(t, size) => t in s.inLoop && s.Is(t, SRunning)
    case LoseMail(t) => t in s.inLoop && s.Is(t, SRunning) && t in s.mail
    case SwitchFromServer(t, _) => UserMode(s, t) && s.Is(t, SRunning)
    case SwitchFromWorker(t, _, _) => UserMode(s, t) && s.Is(t, WRunning)
    case WorkerWait(t, _) => UserMode(s, t) && s.Is(t, WRunning)
    case WorkerPreempt(t) => s.Is(t, WRunning)
    case WorkerBlock(t) => s.Is(t, WRunning)
    case WorkerWake(t) => s.Is(t, WBlocked)
    case WorkerTimeout(t) => t in s.armed && (s.Is(t, WRunnable) || s.Is(t, WSwapping))
    case WakeCommand => true
    case Reenter(t, _) =>
      || (t in s.inLoop && t in s.status && IsServer(s.status[t]))
      || (t in s.waiting && (s.Is(t, WRunnable) || s.Is(t, WSwapping)))
  }

  predicate UserMode(s: State, t: Tid)
  {
    t !in s.status || s.status[t] == WRunning || (s.status[t] == SRunning && t !in s.inLoop)
  }

  /** What user space has to respect: it switches only to a worker that has
      reported since its last switch-in and has no timeout outstanding, it gives the
      kernel room for at least one report, and a server that runs a worker goes back
      into its loop without a timeout. */
  predicate UserRule(s: State, step: Step)
  {
    match step
    case SwitchFromServer(_, next) => next in s.status ==> SafeTarget(s, next)
    case SwitchFromWorker(_, next, _) => next in s.status ==> SafeTarget(s, next)
    case Collect(_, size) => size >= 1
    case Reenter(t, limit) => s.Is(t, SAttached) ==> limit.NoLimit?
    case _ => true
  }

  predicate SafeTarget(s: State, w: Tid) { w in s.credit && w !in s.armed }
}
