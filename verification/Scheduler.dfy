/** The bookkeeping of one user-space scheduler server: what handling an event and
    looking for work do to its queues and worker states. The system call they may
    ask for is left to the caller. */
module Scheduler {
  import opened Events
  import opened Lists
  import opened KlibProtocol

  datatype WorkerStatus = SInitializing | SRegistering | SRunning | SBlocked | SWaiting | SCompleted

  /** Branches that the scheduler logs as errors, or whose failure it ignores. */
  datatype Oddity =
    | UnknownWorker | NotWaiting | PushFailed
    | UnexpectedBlock | UnexpectedWake | UnexpectedWait | InvalidEvent
    | UnmanagedWorker | SwitchFailed | NoRoute | KernelFault

  datatype Server = Server(
    states: map<Tid, WorkerStatus>,
    pending: seq<Tid>,
    running: seq<Tid>,
    capacity: nat)

  type TaskId = nat

  /** Pushing onto a full ArrayQueue fails and leaves it alone. */
  function Push(q: seq<Tid>, capacity: nat, t: Tid): seq<Tid> { if |q| < capacity then q + [t] else q }

  function PushOddity(q: seq<Tid>, capacity: nat): set<Oddity> { if |q| < capacity then {} else {PushFailed} }

  function SetState(s: Server, t: Tid, st: WorkerStatus): Server { s.(states := s.states[t := st]) }

  // ------------------------------------------------------------ handle_event

  datatype Reaction = Reaction(server: Server, switchTo: Option<Tid>, odd: set<Oddity>)

  function OnBlock(s: Server, t: Tid): Reaction
  {
    if t !in s.states then Reaction(s, None, {UnknownWorker})
    else if s.states[t] == SRunning then Reaction(SetState(s, t, SBlocked), None, {})
    else Reaction(s, None, {UnexpectedBlock})
  }

  function OnWake(s: Server, t: Tid): Reaction
  {
    if t !in s.states then Reaction(s, None, {UnknownWorker})
    else if s.states[t] == SBlocked then Reaction(SetState(s, t, SRunning), Some(t), {})
    else Reaction(s, None, {UnexpectedWake})
  }

  /** The head of `running` is dropped, whichever worker it names; the worker
      joins `pending` in any case. */
  function OnWait(s: Server, t: Tid): Reaction
  {
    if t !in s.states then Reaction(s, None, {UnknownWorker})
    else
      var waits := s.states[t] == SRunning;
      var s1 := if waits
        then SetState(s, t, SWaiting).(running := if s.running == [] then [] else s.running[1..])
        else s;
      Reaction(s1.(pending := Push(s1.pending, s1.capacity, t)), None,
               PushOddity(s1.pending, s1.capacity) + if waits then {} else {UnexpectedWait})
  }

  function Handle(s: Server, m: Msg): Reaction
  {
    match m.event
    case Block => OnBlock(s, m.worker)
    case Wake => OnWake(s, m.worker)
    case Wait => OnWait(s, m.worker)
    case _ => Reaction(s, None, {InvalidEvent})
  }

  // ------------------------------------------------------ try_schedule_tasks

  /** One turn of the loop: nothing to do, go on without a task, stop for lack of
      one, run `task` on `worker`, or lose the task because `running` is full. */
  datatype Choice =
    | NoWorker
    | GoOn(server: Server, odd: set<Oddity>)
    | NoTask(server: Server, odd: set<Oddity>)
    | Run(server: Server, worker: Tid, task: TaskId)
    | Lose(server: Server, task: TaskId, odd: set<Oddity>)

  function Choose(s: Server, tasks: seq<TaskId>): Choice
  {
    if s.pending == [] then NoWorker
    else
      var t := s.pending[0];
      var s1 := s.(pending := s.pending[1..]);
      var back := s1.(pending := Push(s1.pending, s.capacity, t));
      if t !in s.states then GoOn(s1, {UnknownWorker})
      else if s.states[t] != SWaiting then GoOn(back, {NotWaiting} + PushOddity(s1.pending, s.capacity))
      else if tasks == [] then NoTask(back, PushOddity(s1.pending, s.capacity))
      else if |s.running| < s.capacity then
        Run(SetState(s1, t, SRunning).(running := s.running + [t]), t, tasks[0])
      else Lose(back, tasks[0], {PushFailed} + PushOddity(s1.pending, s.capacity))
  }

  // -------------------------------------------------------------- invariant

  /** Workers of the server that hold a place in `running`. */
  function Busy(states: map<Tid, WorkerStatus>): set<Tid> { set t | t in states && states[t] != SWaiting }

  /** `pending` holds exactly the Waiting workers, once each; `running` is as long
      as there are Running or Blocked workers, which is all one can say of it,
      since WAIT drops its head. */
  ghost predicate QueuesOk(s: Server)
  {
    && NoDup(s.pending)
    && (forall t :: t in s.pending <==> t in s.states && s.states[t] == SWaiting)
    && |s.running| == |Busy(s.states)|
    && |s.states| <= s.capacity
  }

  lemma BusySet(s: Server, t: Tid, st: WorkerStatus)
    requires t in s.states
    ensures Busy(s.states[t := st]) == if st == SWaiting then Busy(s.states) - {t} else Busy(s.states) + {t}
  {
  }

  /** BLOCK and WAKE move a worker between Running and Blocked. */
  lemma BlockAndWakeKeepQueues(s: Server, t: Tid)
    requires QueuesOk(s) && t in s.states
    ensures s.states[t] == SRunning ==> QueuesOk(OnBlock(s, t).server) && OnBlock(s, t).odd == {}
    ensures s.states[t] == SBlocked ==>
              var r := OnWake(s, t); QueuesOk(r.server) && r.odd == {} && r.switchTo == Some(t)
  {
    BusySet(s, t, SBlocked);
    BusySet(s, t, SRunning);
    assert s.states[t] != SWaiting ==> Busy(s.states) + {t} == Busy(s.states);
  }

  lemma WaitKeepsQueues(s: Server, t: Tid)
    requires QueuesOk(s) && t in s.states && s.states[t] == SRunning
    ensures QueuesOk(OnWait(s, t).server) && OnWait(s, t).odd == {} && t in OnWait(s, t).server.pending
  {
    BusySet(s, t, SWaiting);
    assert t in Busy(s.states);
    assert t !in s.pending;
    DistinctSize(s.pending, s.states.Keys - {t});
    assert |s.states.Keys - {t}| == |s.states| - 1;
    var r := OnWait(s, t).server;
    assert r.pending == s.pending + [t];
    assert |r.states| == |s.states| by { assert r.states.Keys == s.states.Keys; }
  }

  lemma RunKeepsQueues(s: Server)
    requires QueuesOk(s) && s.pending != []
    ensures var t := s.pending[0];
            var r := SetState(s, t, SRunning).(pending := s.pending[1..], running := s.running + [t]);
            QueuesOk(r) && |s.running| < s.capacity
  {
    var t := s.pending[0];
    assert t in s.pending;
    assert forall x :: x in s.pending[1..] <==> x in s.pending && x != t;
    BusySet(s, t, SRunning);
    assert t !in Busy(s.states);
    SubsetSize(Busy(s.states) + {t}, s.states.Keys);
    assert s.states[t := SRunning].Keys == s.states.Keys;
  }

  lemma TurnBackKeepsQueues(s: Server)
    requires QueuesOk(s) && s.pending != []
    ensures |s.pending| <= s.capacity && QueuesOk(s.(pending := s.pending[1..] + [s.pending[0]]))
  {
    var t := s.pending[0];
    DistinctSize(s.pending, s.states.Keys);
    assert forall x :: x in s.pending[1..] + [t] <==> x in s.pending;
  }

  /** No push fails and no "CRITICAL" turn happens: a turn of the loop finds no
      worker, finds no task, or starts one. */
  lemma ChooseKeepsQueues(s: Server, tasks: seq<TaskId>)
    requires QueuesOk(s)
    ensures var c := Choose(s, tasks);
            && (c.NoWorker? <==> s.pending == [])
            && (c.NoTask? <==> s.pending != [] && tasks == [])
            && (c.Run? <==> s.pending != [] && tasks != [])
            && (c.NoTask? ==> QueuesOk(c.server) && c.odd == {} && c.server.states == s.states)
            && (c.Run? ==>
                  && QueuesOk(c.server) && c.worker in s.states && s.states[c.worker] == SWaiting
                  && c.task == tasks[0] && c.server.states == s.states[c.worker := SRunning])
  {
    if s.pending != [] {
      assert s.pending[0] in s.pending;
      TurnBackKeepsQueues(s);
      RunKeepsQueues(s);
    }
  }
}
