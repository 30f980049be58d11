/** The Nanos klib form of the protocol as a transition system over any number of
    workers and servers. One step is one system call body, one thread hook or one
    run of the timer handler. */
module KlibProtocol {
  import opened Events

  type Tid = nat
  type Sid = nat

  datatype Status = Idle | IdleTimeout | Runnable | Running | Paused | Blocked | Waiting

  /** `event` is what the idle list will report; `server` is where the worker's
      server_event points, which may be out of date; `timer` says whether its
      timer is registered and `timedOut` whether its return value is -ETIMEDOUT. */
  datatype Worker = Worker(id: bv64, status: Status, event: Event, server: Sid, timer: bool, timedOut: bool)

  datatype Msg = Msg(worker: Tid, event: Event)

  /** The event slot of a server inside a context switch. The worker in an empty
      slot is bookkeeping: the one the server is waiting for. */
  datatype Slot = Empty(worker: Tid) | Full(msg: Msg)

  /** What a worker goes through: it is switched in, or reports an event. */
  datatype Act = In | Out(event: Event)

  datatype State = State(
    workers: map<Tid, Worker>,
    idle: seq<Tid>,
    slots: map<Sid, Slot>,
    history: map<Tid, seq<Act>>)
  {
    predicate Is(t: Tid, st: Status) { t in workers && workers[t].status == st }

    /** A thread that was paused inside a system call goes on with that call as
        PAUSED. */
    predicate Executes(t: Tid) { Is(t, Running) || Is(t, Paused) }

    function Put(t: Tid, w: Worker): State { this.(workers := workers[t := w]) }

    function Log(t: Tid, a: Act): State
    {
      this.(history := history[t := (if t in history then history[t] else []) + [a]])
    }
  }

  const INITIAL: State := State(map[], [], map[], map[])

  /** `Wild`: an event was written through a stale slot pointer, or over an event
      that nobody had read. */
  datatype Outcome = Wild | Live(state: State)

  // ---------------------------------------------------------------- helpers

  /** umcg_worker_event_idle. */
  function EventIdle(s: State, t: Tid, e: Event): State
    requires t in s.workers
  {
    s.Put(t, s.workers[t].(event := e)).(idle := s.idle + [t]).Log(t, Out(e))
  }

  /** umcg_worker_event_to_server, for a worker whose slot pointer is `server`. */
  function EventToServer(s: State, server: Sid, t: Tid, e: Event): Outcome
  {
    if server in s.slots && s.slots[server].Empty?
    then Live(s.(slots := s.slots[server := Full(Msg(t, e))]).Log(t, Out(e)))
    else Wild
  }

  /** What the list reports for a worker: a swap whose timer has fired since is
      reported as WAIT and TIMEOUT. */
  function Owed(w: Worker): (es: seq<Event>)
    ensures 1 <= |es| <= 2
  {
    if w.event.Wait? && !w.status.Idle? then [Wait, Timeout] else [w.event]
  }

  function Reports(t: Tid, es: seq<Event>): (ms: seq<Msg>)
    ensures |ms| == |es|
    ensures forall i :: 0 <= i < |es| ==> ms[i] == Msg(t, es[i])
  {
    seq(|es|, i requires 0 <= i < |es| => Msg(t, es[i]))
  }

  /** One turn of the collection loop. */
  function TakeOne(s: State): (r: State)
    requires s.idle != [] && s.idle[0] in s.workers
    ensures r.idle == s.idle[1..] && r.workers.Keys == s.workers.Keys
  {
    var t := s.idle[0];
    s.Put(t, s.workers[t].(status := Runnable)).(idle := s.idle[1..])
  }

  /** umcg_server_get_events with room for `size` words: the state it leaves and
      the reports it writes. */
  function Collect(s: State, size: int): (r: (State, seq<Msg>))
    decreases |s.idle|
  {
    if size <= 1 || s.idle == [] || s.idle[0] !in s.workers then (s, [])
    else
      var t := s.idle[0];
      var (r, ms) := Collect(TakeOne(s), size - |Owed(s.workers[t])|);
      (r, Reports(t, Owed(s.workers[t])) + ms)
  }

  // ------------------------------------------------------------------ steps

  datatype Step =
    | Register(t: Tid, id: bv64)
    | Unregister(t: Tid)
    | WaitStep(t: Tid, timed: bool)
    | SwitchFromServer(server: Sid, next: Tid, size: int)
    | SwitchFromWorker(t: Tid, next: Tid, timed: bool)
    | Pause(t: Tid)
    | SyscallPause(t: Tid)
    | ScheduleReturn(t: Tid, late: bool)
    | TimerFires(t: Tid)
    | CollectStep(size: int)
    | SwitchReturn(server: Sid, size: int)

  /** The target of a switch starts running for `server`. */
  function SwitchIn(s: State, next: Tid, server: Sid): State
    requires next in s.workers
  {
    s.Put(next, s.workers[next].(status := Running, server := server, timer := false))
     .(slots := s.slots[server := Empty(next)]).Log(next, In)
  }

  function Apply(s: State, step: Step): Outcome
  {
    match step
    case Register(t, id) =>
      if !ValidId(id) || t in s.workers then Live(s)
      else Live(EventIdle(s.Put(t, Worker(id, Idle, Wake, 0, false, false)), t, Wake))
    case Unregister(t) =>
      if t !in s.workers then Live(s)
      else EventToServer(s.(workers := s.workers - {t}), s.workers[t].server, t, Exit)
    case WaitStep(t, timed) =>
      if t !in s.workers then Live(s)
      else EventToServer(s.Put(t, s.workers[t].(status := Waiting, timer := timed, timedOut := false)),
                         s.workers[t].server, t, Wait)
    case SwitchFromServer(server, next, size) =>
      if next !in s.workers || size <= 0 then Live(s)
      else if s.Is(next, Runnable) || s.Is(next, Waiting) then Live(SwitchIn(s, next, server))
      else Live(s)
    case SwitchFromWorker(t, next, timed) =>
      if next !in s.workers || t !in s.workers || !s.Is(next, Runnable) then Live(s)
      else
        var w := s.workers[t].(status := Idle, timer := timed, timedOut := false);
        var r := SwitchIn(EventIdle(s.Put(t, w), t, Wait), next, w.server);
        // The store of IDLE comes after the target has been claimed.
        Live(if t == next then r.Put(t, r.workers[t].(status := Idle)) else r)
    case Pause(t) =>
      if t !in s.workers then Live(s) else Live(s.Put(t, s.workers[t].(status := Paused)))
    case SyscallPause(t) =>
      if !s.Is(t, Paused) then Live(s)
      else EventToServer(s.Put(t, s.workers[t].(status := Blocked)), s.workers[t].server, t, Block)
    case ScheduleReturn(t, late) =>
      if t !in s.workers then Live(s)
      else if s.Is(t, Blocked) then Live(EventIdle(s.Put(t, s.workers[t].(status := Idle)), t, Wake))
      else if late then
        EventToServer(s.Put(t, s.workers[t].(status := Runnable)), s.workers[t].server, t, Preempt)
      else Live(s.Put(t, s.workers[t].(status := Running)))
    case TimerFires(t) =>
      if t !in s.workers then Live(s)
      else
        var w := s.workers[t].(timer := false);
        if w.status.Waiting? then Live(EventIdle(s.Put(t, w.(status := Idle, timedOut := true)), t, Timeout))
        else if w.status.Idle? then Live(s.Put(t, w.(status := IdleTimeout, timedOut := true)).Log(t, Out(Timeout)))
        else Live(s.Put(t, w))
    case CollectStep(size) => Live(Collect(s, size).0)
    case SwitchReturn(server, size) =>
      if server in s.slots && s.slots[server].Full?
      then Live(Collect(s.(slots := s.slots - {server}), size - 1).0)
      else Live(s)
  }

  /** Which thread can be about to take a step. The hooks and the waits run on a
      thread that is executing; a server that is inside a context switch cannot
      start another; only a registered timer fires. */
  predicate CanAct(s: State, step: Step)
  {
    match step
    case Register(t, _) => t !in s.workers || s.Executes(t)
    case Unregister(t) => t in s.workers ==> s.Executes(t)
    case WaitStep(t, _) => s.Executes(t)
    case SwitchFromServer(server, _, _) => server !in s.slots
    case SwitchFromWorker(t, _, _) => s.Executes(t)
    case Pause(t) => s.Executes(t)
    case SyscallPause(t) => t in s.workers
    case ScheduleReturn(t, _) => s.Executes(t) || s.Is(t, Blocked)
    case TimerFires(t) => t in s.workers && s.workers[t].timer
    case CollectStep(_) => true
    case SwitchReturn(_, size) => size >= 1
  }
}
