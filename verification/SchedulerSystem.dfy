/** The whole machine: the klib kernel, the worker loops, the event router and the
    scheduler servers, stepping in any order. A server's step ends where it blocks
    in a context switch. */
module SchedulerSystem {
  import opened KlibProtocol
  import opened Scheduler
  import K = KlibSafety
  import F = TaskFlow

  /** A server is in its event loop or blocked in a switch to a worker. */
  datatype Position = Top | Switched(worker: Tid)

  /** `routed` is what the router still has to forward of the events it has
      collected; `afterTask` are the workers between the end of a task and the
      wait that follows it; `odd` collects every branch that should not happen. */
  datatype System = System(
    kernel: State,
    owner: map<Tid, Sid>,
    servers: map<Sid, Server>,
    pos: map<Sid, Position>,
    channels: map<Sid, seq<Msg>>,
    channelSize: nat,
    routed: seq<Msg>,
    flow: F.State,
    afterTask: set<Tid>,
    odd: set<Oddity>)

  /** Room for events in the router's array and in a switch. */
  const ROUTER_EVENTS := 10
  const SWITCH_EVENTS := 2

  function Channel(s: System, v: Sid): seq<Msg> { if v in s.channels then s.channels[v] else [] }

  function Kernel(s: System, step: KlibProtocol.Step): System
  {
    match Apply(s.kernel, step)
    case Wild => s.(odd := s.odd + {KernelFault})
    case Live(k) => s.(kernel := k)
  }

  /** The context switch whose return code the scheduler does not look at: if it
      fails, the server simply goes on. */
  function SwitchTo(s: System, v: Sid, w: Tid): System
  {
    if s.kernel.Is(w, Runnable) || s.kernel.Is(w, Waiting)
    then Kernel(s.(pos := s.pos[v := Switched(w)]), SwitchFromServer(v, w, SWITCH_EVENTS))
    else s.(odd := s.odd + {SwitchFailed})
  }

  function React(s: System, v: Sid, m: Msg): System
    requires v in s.servers
  {
    var r := Handle(s.servers[v], m);
    var s1 := s.(servers := s.servers[v := r.server], odd := s.odd + r.odd);
    if r.switchTo.Some? then SwitchTo(s1, v, r.switchTo.value) else s1
  }

  datatype Action =
    | Schedule(v: Sid)   // one turn of try_schedule_tasks
    | Return(v: Sid)     // a switch returns and its event is handled
    | Receive(v: Sid)    // run_event_loop takes an event from the channel
    | Gather             // the router's wait returns events
    | Forward            // the router sends one on
    | Pause(w: Tid) | Sleep(w: Tid) | Awake(w: Tid) | Continue(w: Tid)
    | Begin(w: Tid) | End(w: Tid) | Rest(w: Tid)
    | Submit(x: TaskId)

  predicate Enabled(s: System, step: Action)
  {
    match step
    case Schedule(v) => v in s.servers && v in s.pos && s.pos[v].Top?
    case Return(v) =>
      v in s.servers && v in s.pos && s.pos[v].Switched? && v in s.kernel.slots && s.kernel.slots[v].Full?
    case Receive(v) => v in s.servers && v in s.pos && s.pos[v].Top? && Channel(s, v) != []
    case Gather => s.routed == []
    case Forward =>
      s.routed != [] &&
      (s.routed[0].worker in s.owner ==> |Channel(s, s.owner[s.routed[0].worker])| < s.channelSize)
    case Pause(w) => s.kernel.Executes(w)
    case Sleep(w) => s.kernel.Is(w, Paused)
    case Awake(w) => s.kernel.Is(w, Blocked)
    case Continue(w) => s.kernel.Executes(w)
    case Begin(w) => s.kernel.Is(w, Running) && w !in s.flow.executing && w !in s.afterTask && F.Inbox(s.flow, w) != []
    case End(w) => s.kernel.Is(w, Running) && w in s.flow.executing
    case Rest(w) =>
      s.kernel.Executes(w) && w !in s.flow.executing && (w in s.afterTask || F.Inbox(s.flow, w) == [])
    case Submit(x) => x !in s.flow.accepted && x !in s.flow.dropped
  }

  function Next(s: System, step: Action): System
    requires Enabled(s, step)
  {
    match step
    case Schedule(v) =>
      (match Choose(s.servers[v], s.flow.queue)
       case NoWorker => s
       case GoOn(server, odd) => s.(servers := s.servers[v := server], odd := s.odd + odd)
       case NoTask(server, odd) => s.(servers := s.servers[v := server], odd := s.odd + odd)
       case Lose(server, _, odd) =>
         s.(servers := s.servers[v := server], odd := s.odd + odd, flow := s.flow.(queue := s.flow.queue[1..]))
       case Run(server, w, _) =>
         SwitchTo(s.(servers := s.servers[v := server], flow := F.Assign(s.flow, w)), v, w))
    case Return(v) =>
      React(Kernel(s.(pos := s.pos[v := Top]), SwitchReturn(v, SWITCH_EVENTS)), v, s.kernel.slots[v].msg)
    case Receive(v) =>
      var m := Channel(s, v)[0];
      var s1 := s.(channels := s.channels[v := Channel(s, v)[1..]]);
      if m.worker !in s.servers[v].states then s1.(odd := s.odd + {UnmanagedWorker}) else React(s1, v, m)
    case Gather =>
      var (k, ms) := Collect(s.kernel, ROUTER_EVENTS);
      s.(kernel := k, routed := ms)
    case Forward =>
      var m := s.routed[0];
      var s1 := s.(routed := s.routed[1..]);
      if m.worker !in s.owner then s1.(odd := s.odd + {NoRoute})
      else var v := s.owner[m.worker]; s1.(channels := s.channels[v := Channel(s, v) + [m]])
    case Pause(w) => Kernel(s, KlibProtocol.Pause(w))
    case Sleep(w) => Kernel(s, SyscallPause(w))
    case Awake(w) => Kernel(s, ScheduleReturn(w, false))
    case Continue(w) => Kernel(s, ScheduleReturn(w, false))
    case Begin(w) => s.(flow := F.Begin(s.flow, w))
    case End(w) => s.(flow := F.End(s.flow, w), afterTask := s.afterTask + {w})
    case Rest(w) => Kernel(s.(afterTask := s.afterTask - {w}), WaitStep(w, false))
    case Submit(x) => s.(flow := F.Submit(s.flow, x))
  }

  // -------------------------------------------------------------- invariant

  /** Messages about `w`. */
  function Count(ms: seq<Msg>, w: Tid): nat
  {
    if ms == [] then 0 else (if ms[0].worker == w then 1 else 0) + Count(ms[1..], w)
  }

  /** WAKE events about `w` on their way from the kernel to its server. */
  function InTransit(s: System, w: Tid): nat
    requires w in s.owner
  {
    Count(s.routed, w) + Count(Channel(s, s.owner[w]), w)
  }

  /** What the switch that `w` is the target of has to show for it. */
  datatype Switch = NoSwitch | Pending(slot: Slot)

  function SwitchOf(s: System, w: Tid): Switch
    requires w in s.owner
  {
    var v := s.owner[w];
    if v in s.pos && s.pos[v] == Switched(w) && v in s.kernel.slots then Pending(s.kernel.slots[v]) else NoSwitch
  }

  /** Both layers' view of one worker. */
  datatype View = View(state: WorkerStatus, status: Status, switch: Switch, transit: nat)

  /** The kernel has let go of the worker: it sleeps, or its WAKE is on the idle
      list or under way. */
  predicate Away(status: Status, transit: nat)
  {
    if status.Runnable? then transit == 1 else (status.Blocked? || status.Idle?) && transit == 0
  }

  predicate ViewOk(w: Tid, x: View)
  {
    match x.state
    case SWaiting => x.status.Waiting? && x.switch.NoSwitch? && x.transit == 0
    case SBlocked => x.switch.NoSwitch? && Away(x.status, x.transit)
    case SRunning =>
      x.switch.Pending? &&
      (match x.switch.slot
       case Empty(t) => t == w && (x.status.Running? || x.status.Paused?) && x.transit == 0
       case Full(m) =>
         m.worker == w &&
         ((m.event.Wait? && x.status.Waiting? && x.transit == 0) || (m.event.Block? && Away(x.status, x.transit))))
    case _ => false
  }

  ghost predicate Shape(s: System)
  {
    && s.owner.Keys == s.kernel.workers.Keys
    && s.servers.Keys == s.pos.Keys
    && (forall w :: w in s.owner ==> s.owner[w] in s.servers && w in s.servers[s.owner[w]].states)
    && (forall v, w :: v in s.servers && w in s.servers[v].states ==> w in s.owner && s.owner[w] == v)
  }

  function ViewOf(s: System, w: Tid): View
    requires Shape(s) && w in s.owner
  {
    View(s.servers[s.owner[w]].states[w], s.kernel.workers[w].status, SwitchOf(s, w), InTransit(s, w))
  }

  ghost predicate Views(s: System)
    requires Shape(s)
  {
    forall w :: w in s.owner ==> ViewOk(w, ViewOf(s, w))
  }

  /** A server is inside a switch in the kernel's eyes exactly when it is in its
      own, and it waits for a worker of its own. */
  ghost predicate Positions(s: System)
  {
    && (forall v :: v in s.kernel.slots <==> v in s.pos && s.pos[v].Switched?)
    && (forall v :: v in s.pos && s.pos[v].Switched? ==> s.pos[v].worker in s.owner && s.owner[s.pos[v].worker] == v)
  }

  predicate Plain(w: Worker) { !w.timer && (w.status.Idle? ==> w.event.Wake?) }

  ghost predicate Messages(s: System)
  {
    && (forall w :: w in s.kernel.workers ==> Plain(s.kernel.workers[w]))
    && (forall m :: m in s.routed ==> m.event.Wake? && m.worker in s.owner)
    && (forall v, m :: m in Channel(s, v) ==> m.event.Wake? && m.worker in s.owner && s.owner[m.worker] == v)
  }

  ghost predicate Queues(servers: map<Sid, Server>) { forall v :: v in servers ==> QueuesOk(servers[v]) }

  predicate Free(flow: F.State, afterTask: set<Tid>, w: Tid)
  {
    F.Inbox(flow, w) == [] && w !in flow.executing && w !in afterTask
  }

  ghost predicate Loops(s: System)
  {
    && F.Inv(s.flow)
    && (forall w :: s.kernel.Is(w, Waiting) ==> Free(s.flow, s.afterTask, w))
    && (forall w :: w in s.flow.executing || w in s.afterTask ==> F.Inbox(s.flow, w) == [])
    && (forall w :: w in s.flow.executing ==> w !in s.afterTask)
  }

  ghost predicate Inv(s: System)
  {
    && K.Inv(s.kernel)
    && Shape(s) && Views(s) && Positions(s) && Messages(s) && Queues(s.servers) && Loops(s)
    && s.odd == {}
  }

  /** Registration is over: every worker is parked by WAIT and pending. */
  ghost predicate Initial(s: System)
  {
    && K.Inv(s.kernel) && s.kernel.slots == map[]
    && Shape(s) && Queues(s.servers)
    && (forall w :: w in s.kernel.workers ==> s.kernel.workers[w].status.Waiting? && !s.kernel.workers[w].timer)
    && (forall v, w :: v in s.servers && w in s.servers[v].states ==> s.servers[v].states[w] == SWaiting)
    && (forall v :: v in s.pos ==> s.pos[v].Top?)
    && s.channels == map[] && s.routed == [] && s.odd == {}
    && (exists capacity :: s.flow == F.State([], capacity, map[], map[], [], [], {}, {}))
    && s.afterTask == {}
  }

  lemma InitialInv(s: System)
    requires Initial(s)
    ensures Inv(s)
  {
    hide K.Inv, QueuesOk;
  }
}
