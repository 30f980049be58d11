/** Who comes first, over whole runs of the system: waiting workers, queued tasks and
    woken workers are each served in the order in which they came. */
module SchedulerOrder {
  import opened Events
  import opened Lists
  import opened KlibProtocol
  import opened Scheduler
  import opened SchedulerSystem
  import opened SchedulerSafety
  import opened SchedulerRuns
  import opened SchedulerProgress
  import K = KlibSafety
  import F = TaskFlow

  // ------------------------------------------------------- the pending workers

  /** A turn of server `v` that finds a pending worker. */
  predicate TakesTurn(s: System, step: Action, v: Sid)
  {
    step == Schedule(v) && v in s.servers && s.servers[v].pending != []
  }

  /** What a turn does to the worker at the head of `pending`: it is started with the
      first task, or goes to the end of the queue if there is none. */
  lemma TurnServesHead(s: System, v: Sid)
    requires Inv(s) && Enabled(s, Schedule(v)) && TakesTurn(s, Schedule(v), v)
    ensures var w, r := s.servers[v].pending[0], Next(s, Schedule(v));
            && v in r.servers && w in s.servers[v].states && s.servers[v].states[w] == SWaiting
            && (s.flow.queue != [] ==>
                  && r.servers[v].pending == s.servers[v].pending[1..]
                  && r.servers[v].states == s.servers[v].states[w := SRunning]
                  && v in r.pos && r.pos[v] == Switched(w) && r.kernel.Is(w, Running)
                  && F.Inbox(r.flow, w) == [s.flow.queue[0]] && r.flow.queue == s.flow.queue[1..])
            && (s.flow.queue == [] ==>
                  && r.servers[v].pending == s.servers[v].pending[1..] + [w]
                  && r.servers[v].states == s.servers[v].states
                  && r == s.(servers := s.servers[v := r.servers[v]]))
  {
    hide Inv, QueuesOk, Ready, SwitchTo, InTransit;
    ServerFacts(s, v);
    ChooseKeepsQueues(s.servers[v], s.flow.queue);
    PendingFits(s.servers[v]);
    var c := Choose(s.servers[v], s.flow.queue);
    var w := s.servers[v].pending[0];
    assert s.odd + {} == s.odd;
    if s.flow.queue != [] {
      RunReady(s, v, c);
      ScheduleFacts(s, v, c.worker);
      var t := s.(servers := s.servers[v := c.server], flow := F.Assign(s.flow, c.worker));
      Entered(s, v, c.worker, t);
      SwitchKeepsServers(t, v, w);
    }
  }

  lemma PendingFits(s: Server)
    requires QueuesOk(s)
    ensures |s.pending| <= s.capacity
  {
    DistinctSize(s.pending, s.states.Keys);
  }

  lemma SwitchKeepsServers(s: System, v: Sid, w: Tid)
    ensures SwitchTo(s, v, w).servers == s.servers && SwitchTo(s, v, w).flow == s.flow
    ensures SwitchTo(s, v, w).routed == s.routed && SwitchTo(s, v, w).channels == s.channels
  {
    hide Apply;
  }

  /** Handling an event adds at most one worker, behind all others. */
  lemma HandleKeepsPending(s: Server, m: Msg)
    ensures s.pending <= Handle(s, m).server.pending
  {
  }

  lemma ReactKeepsPending(s: System, u: Sid, m: Msg, v: Sid)
    requires u in s.servers && v in s.servers
    ensures v in React(s, u, m).servers && s.servers[v].pending <= React(s, u, m).servers[v].pending
  {
    HandleKeepsPending(s.servers[u], m);
    hide Handle, SwitchTo;
    var r := Handle(s.servers[u], m);
    var s1 := s.(servers := s.servers[u := r.server], odd := s.odd + r.odd);
    if r.switchTo.Some? { SwitchKeepsServers(s1, u, r.switchTo.value); }
  }

  lemma OtherTurnKeepsPending(s: System, u: Sid, v: Sid)
    requires Inv(s) && Enabled(s, Schedule(u)) && v in s.servers && !TakesTurn(s, Schedule(u), v)
    ensures v in Next(s, Schedule(u)).servers && Next(s, Schedule(u)).servers[v].pending == s.servers[v].pending
  {
    hide Inv, SwitchTo;
    var c := Choose(s.servers[u], s.flow.queue);
    if c.Run? {
      SwitchKeepsServers(s.(servers := s.servers[u := c.server], flow := F.Assign(s.flow, c.worker)), u, c.worker);
    }
  }

  /** Between its turns nobody overtakes the workers pending at a server. */
  lemma PendingStep(s: System, step: Action, v: Sid)
    requires Inv(s) && Enabled(s, step) && v in s.servers
    ensures v in Next(s, step).servers
    ensures var (p, q) := (s.servers[v].pending, Next(s, step).servers[v].pending);
            if TakesTurn(s, step, v) then p[1..] <= q else p <= q
  {
    hide Inv, React, Collect, KlibProtocol.Apply, Choose, Kernel, SwitchTo;
    match step {
      case Schedule(u) =>
        if TakesTurn(s, step, v) { TurnServesHead(s, v); } else { OtherTurnKeepsPending(s, u, v); }
      case Return(u) =>
        var s1 := s.(pos := s.pos[u := Top]);
        KernelFrame(s1, SwitchReturn(u, SWITCH_EVENTS));
        ReactKeepsPending(Kernel(s1, SwitchReturn(u, SWITCH_EVENTS)), u, s.kernel.slots[u].msg, v);
      case Receive(u) =>
        ReactKeepsPending(s.(channels := s.channels[u := Channel(s, u)[1..]]), u, Channel(s, u)[0], v);
      case Pause(w) => KernelFrame(s, KlibProtocol.Pause(w));
      case Sleep(w) => KernelFrame(s, SyscallPause(w));
      case Awake(w) => KernelFrame(s, ScheduleReturn(w, false));
      case Continue(w) => KernelFrame(s, ScheduleReturn(w, false));
      case Rest(w) => KernelFrame(s.(afterTask := s.afterTask - {w}), WaitStep(w, false));
      case _ =>
    }
  }

  /** The turns with a pending worker that server `v` takes in a run. */
  function Turns(s: System, steps: seq<Action>, v: Sid): nat
    requires Legal(s, steps)
    decreases |steps|
  {
    if steps == [] then 0 else One(TakesTurn(s, steps[0], v)) + Turns(Next(s, steps[0]), steps[1..], v)
  }

  /** The worker at position `k` moves up by one with every turn, whoever joins. */
  lemma {:induction false} PendingMovesUp(s: System, steps: seq<Action>, v: Sid, k: nat)
    requires Inv(s) && Legal(s, steps) && v in s.servers && k < |s.servers[v].pending| && Turns(s, steps, v) <= k
    ensures var f, n := Exec(s, steps), Turns(s, steps, v);
            && v in f.servers && k - n < |f.servers[v].pending|
            && f.servers[v].pending[k - n] == s.servers[v].pending[k]
    decreases |steps|
  {
    hide Inv, Next, Enabled, TakesTurn;
    if steps == [] {
    } else {
      PendingStep(s, steps[0], v);
      StepKeeps(s, steps[0]);
      PendingMovesUp(Next(s, steps[0]), steps[1..], v, if TakesTurn(s, steps[0], v) then k - 1 else k);
    }
  }

  /** The exact condition: when server `v` has taken `k` turns since, the next turn is
      that of the worker then at position `k`, and it is started if and only if a task
      is queued. */
  lemma ServedAtItsTurnIff(s: System, steps: seq<Action>, v: Sid, k: nat)
    requires Reachable(s) && Legal(s, steps) && v in s.servers && k < |s.servers[v].pending|
    requires Turns(s, steps, v) == k && Enabled(Exec(s, steps), Schedule(v))
    ensures var w, f := s.servers[v].pending[k], Exec(s, steps);
            && TakesTurn(f, Schedule(v), v)
            && w in f.servers[v].states && f.servers[v].states[w] == SWaiting
            && var r := Next(f, Schedule(v));
               && v in r.servers && w in r.servers[v].states
               && (r.servers[v].states[w] == SRunning <==> f.flow.queue != [])
  {
    hide Inv, Next, Enabled;
    ReachableInv(s);
    PendingMovesUp(s, steps, v, k);
    ExecKeeps(s, steps);
    TurnServesHead(Exec(s, steps), v);
  }

  /** Worker `w` of server `v` gets a task to run. */
  predicate Starts(s: System, step: Action, v: Sid, w: Tid)
    requires Enabled(s, step)
  {
    && v in s.servers && w in s.servers[v].states && s.servers[v].states[w] == SWaiting
    && var r := Next(s, step); v in r.servers && w in r.servers[v].states && r.servers[v].states[w] == SRunning
  }

  predicate StartedIn(s: System, steps: seq<Action>, v: Sid, w: Tid)
    requires Legal(s, steps)
    decreases |steps|
  {
    steps != [] && (Starts(s, steps[0], v, w) || StartedIn(Next(s, steps[0]), steps[1..], v, w))
  }

  /** Every turn of server `v` in the run finds a task. */
  predicate AlwaysTasks(s: System, steps: seq<Action>, v: Sid)
    requires Legal(s, steps)
    decreases |steps|
  {
    steps == [] ||
    ((TakesTurn(s, steps[0], v) ==> s.flow.queue != []) && AlwaysTasks(Next(s, steps[0]), steps[1..], v))
  }

  lemma {:induction false} StartedByTurn(s: System, steps: seq<Action>, v: Sid, k: nat)
    requires Inv(s) && Legal(s, steps) && v in s.servers && k < |s.servers[v].pending|
    requires Turns(s, steps, v) > k && AlwaysTasks(s, steps, v)
    ensures StartedIn(s, steps, v, s.servers[v].pending[k])
    decreases |steps|
  {
    hide Inv, Next, Enabled;
    PendingStep(s, steps[0], v);
    StepKeeps(s, steps[0]);
    if TakesTurn(s, steps[0], v) {
      TurnServesHead(s, v);
      if k > 0 { StartedByTurn(Next(s, steps[0]), steps[1..], v, k - 1); }
    } else {
      StartedByTurn(Next(s, steps[0]), steps[1..], v, k);
    }
  }

  /** Bounded wait while there is work: if none of its turns finds the task queue
      empty, a server has started the worker at position `k` of `pending` with its
      (k+1)-th task, whoever joins meanwhile. */
  lemma BoundedWait(s: System, steps: seq<Action>, v: Sid, k: nat)
    requires Reachable(s) && Legal(s, steps) && v in s.servers && k < |s.servers[v].pending|
    requires Turns(s, steps, v) > k && AlwaysTasks(s, steps, v)
    ensures StartedIn(s, steps, v, s.servers[v].pending[k])
  {
    hide Inv;
    ReachableInv(s);
    StartedByTurn(s, steps, v, k);
  }

  // -------------------------------------------------- and when there is no work

  /** One server with two pending workers and no task. */
  ghost predicate Resting(s: System, first: Tid, second: Tid)
  {
    && Inv(s) && 0 in s.servers && 0 in s.pos && s.pos[0] == Top
    && s.servers[0].states == map[1 := SWaiting, 2 := SWaiting] && s.servers[0].pending == [first, second]
    && s.flow.queue == [] && s.flow.capacity >= 1
  }

  /** A turn without a task changes the order. */
  lemma IdleTurn(s: System)
    requires Resting(s, 1, 2)
    ensures Enabled(s, Schedule(0)) && Resting(Next(s, Schedule(0)), 2, 1) && !Starts(s, Schedule(0), 0, 1)
  {
    hide Inv, Next;
    TurnServesHead(s, 0);
    StepKeeps(s, Schedule(0));
  }

  /** Worker 2 is inside a switch, worker 1 alone in `pending`, and no task queued. */
  ghost predicate TwoRuns(s: System)
  {
    && Inv(s) && 0 in s.servers && 0 in s.pos && s.pos[0] == Switched(2)
    && s.servers[0].states == map[1 := SWaiting, 2 := SRunning] && s.servers[0].pending == [1]
    && s.flow.queue == [] && s.flow.capacity >= 1
  }

  lemma TaskArrives(s: System, x: TaskId)
    requires Resting(s, 2, 1) && Enabled(s, Submit(x))
    ensures var r := Next(s, Submit(x));
            && Enabled(r, Schedule(0)) && TwoRuns(Next(r, Schedule(0))) && !Starts(s, Submit(x), 0, 1)
            && !Starts(r, Schedule(0), 0, 1) && Starts(r, Schedule(0), 0, 2)
            && Next(r, Schedule(0)).kernel.Is(2, Running) && F.Inbox(Next(r, Schedule(0)).flow, 2) == [x]
            && 2 !in Next(r, Schedule(0)).flow.executing && 2 !in Next(r, Schedule(0)).afterTask
  {
    hide Inv;
    var r := Next(s, Submit(x));
    StepKeeps(s, Submit(x));
    ScheduleFacts(r, 0, 2);
    hide Next;
    assert r.flow.queue == [x];
    TurnServesHead(r, 0);
    StepKeeps(r, Schedule(0));
    TurnFrame(r, 0);
  }

  lemma TurnFrame(s: System, v: Sid)
    requires Enabled(s, Schedule(v))
    ensures var r := Next(s, Schedule(v));
            r.flow.executing == s.flow.executing && r.afterTask == s.afterTask && r.flow.capacity == s.flow.capacity
  {
    hide Apply, Choose;
  }

  /** The task runs to its end and the worker waits again, behind worker 1. */
  lemma TaskEnds(s: System, x: TaskId)
    requires TwoRuns(s) && s.kernel.Is(2, Running) && F.Inbox(s.flow, 2) == [x]
    requires 2 !in s.flow.executing && 2 !in s.afterTask
    ensures Enabled(s, Begin(2)) && Enabled(Next(s, Begin(2)), End(2))
    ensures var r := Next(Next(s, Begin(2)), End(2));
            TwoRuns(r) && r.kernel.Is(2, Running) && 2 !in r.flow.executing && 2 in r.afterTask
    ensures !Starts(s, Begin(2), 0, 1) && !Starts(Next(s, Begin(2)), End(2), 0, 1)
  {
    hide Inv;
    StepKeeps(s, Begin(2));
    StepKeeps(Next(s, Begin(2)), End(2));
  }

  lemma WorkerWaits(s: System)
    requires TwoRuns(s) && s.kernel.Is(2, Running) && 2 !in s.flow.executing && 2 in s.afterTask
    ensures Enabled(s, Rest(2))
    ensures var r := Next(s, Rest(2));
            TwoRuns(r) && 0 in r.kernel.slots && r.kernel.slots[0] == Full(Msg(2, Wait))
    ensures !Starts(s, Rest(2), 0, 1)
  {
    hide Inv, K.Inv, Loops, Shape, Apply;
    StepKeeps(s, Rest(2));
    AttachedFacts(s, 2);
    InvParts(s);
    KernelRest(s.kernel, 2);
    SameServer(s, 2);
  }

  lemma SameServer(s: System, w: Tid)
    requires Inv(s) && w == 2 && 0 in s.servers && s.servers[0].states == map[1 := SWaiting, 2 := SRunning]
    ensures w in s.owner && s.owner[w] == 0
  {
    hide K.Inv, Views, Positions, Messages, Queues, Loops;
  }

  lemma SwitchReturns(s: System)
    requires TwoRuns(s) && 0 in s.kernel.slots && s.kernel.slots[0] == Full(Msg(2, Wait))
    ensures Enabled(s, Return(0)) && Resting(Next(s, Return(0)), 1, 2) && !Starts(s, Return(0), 0, 1)
  {
    hide Inv, Next, QueuesOk;
    ReturnMoves(s, 0);
    PendingStep(s, Return(0), 0);
    StepKeeps(s, Return(0));
    BothPending(Next(s, Return(0)).servers[0]);
  }

  lemma BothPending(s: Server)
    requires QueuesOk(s) && s.states == map[1 := SWaiting, 2 := SWaiting] && [1] <= s.pending
    ensures s.pending == [1, 2]
  {
    assert 2 in s.pending;
    var i :| 0 <= i < |s.pending| && s.pending[i] == 2;
    assert forall j :: 0 <= j < |s.pending| ==> s.pending[j] in s.pending;
    DistinctSize(s.pending, {1, 2});
  }

  /** How often worker `w` of server `v` is given a task in a run. */
  function StartsOf(s: System, steps: seq<Action>, v: Sid, w: Tid): nat
    requires Legal(s, steps)
    decreases |steps|
  {
    if steps == [] then 0 else One(Starts(s, steps[0], v, w)) + StartsOf(Next(s, steps[0]), steps[1..], v, w)
  }

  lemma Cons(s: System, step: Action, rest: seq<Action>)
    requires Enabled(s, step) && Legal(Next(s, step), rest)
    ensures Legal(s, [step] + rest) && Exec(s, [step] + rest) == Exec(Next(s, step), rest)
    ensures forall w :: StartsOf(s, [step] + rest, 0, w)
                        == One(Starts(s, step, 0, w)) + StartsOf(Next(s, step), rest, 0, w)
  {
    hide Next, Enabled, Starts;
    assert ([step] + rest)[1..] == rest;
  }

  lemma NoSteps(s: System)
    ensures Legal(s, []) && Exec(s, []) == s && forall w :: StartsOf(s, [], 0, w) == 0
  {
  }

  /** From when worker 2 has its task until it waits again. */
  lemma SecondHalf(s: System, x: TaskId) returns (steps: seq<Action>)
    requires TwoRuns(s) && s.kernel.Is(2, Running) && F.Inbox(s.flow, 2) == [x]
    requires 2 !in s.flow.executing && 2 !in s.afterTask
    ensures Legal(s, steps) && Resting(Exec(s, steps), 1, 2) && StartsOf(s, steps, 0, 1) == 0
  {
    hide Next, Enabled, TwoRuns, Resting, Starts, StartsOf, Legal, Exec;
    TaskEnds(s, x);
    var s1 := Next(s, Begin(2));
    var s2 := Next(s1, End(2));
    WorkerWaits(s2);
    var s3 := Next(s2, Rest(2));
    SwitchReturns(s3);
    NoSteps(Next(s3, Return(0)));
    Cons(s3, Return(0), []);
    assert [Return(0)] + [] == [Return(0)];
    Cons(s2, Rest(2), [Return(0)]);
    Cons(s1, End(2), [Rest(2)] + [Return(0)]);
    steps := [Begin(2)] + ([End(2)] + ([Rest(2)] + [Return(0)]));
    Cons(s, Begin(2), [End(2)] + ([Rest(2)] + [Return(0)]));
  }

  /** One idle turn, one task for worker 2, and all is as before. */
  lemma Round(s: System) returns (steps: seq<Action>)
    requires Resting(s, 1, 2)
    ensures Legal(s, steps) && Resting(Exec(s, steps), 1, 2)
    ensures StartsOf(s, steps, 0, 1) == 0 && StartsOf(s, steps, 0, 2) >= 1
  {
    hide Next, Resting, TwoRuns, Starts, StartsOf, Legal, Exec;
    IdleTurn(s);
    var s1 := Next(s, Schedule(0));
    var x := Unused(s1.flow.accepted + s1.flow.dropped);
    assert Enabled(s1, Submit(x));
    hide Enabled;
    TaskArrives(s1, x);
    var s2 := Next(s1, Submit(x));
    var s3 := Next(s2, Schedule(0));
    var rest := SecondHalf(s3, x);
    Cons(s2, Schedule(0), rest);
    Cons(s1, Submit(x), [Schedule(0)] + rest);
    steps := [Schedule(0)] + ([Submit(x)] + ([Schedule(0)] + rest));
    Cons(s, Schedule(0), [Submit(x)] + ([Schedule(0)] + rest));
  }

  lemma {:induction false} Append(s: System, a: seq<Action>, b: seq<Action>)
    requires Legal(s, a) && Legal(Exec(s, a), b)
    ensures Legal(s, a + b) && Exec(s, a + b) == Exec(Exec(s, a), b)
    ensures forall w :: StartsOf(s, a + b, 0, w) == StartsOf(s, a, 0, w) + StartsOf(Exec(s, a), b, 0, w)
    decreases |a|
  {
    hide Next, Enabled, Starts;
    if a == [] {
      assert a + b == b;
    } else {
      Append(Next(s, a[0]), a[1..], b);
      assert (a + b)[1..] == a[1..] + b;
    }
  }

  /** An idle turn sends the worker at the head of `pending` to the end. So with one
      task at a time and an idle turn between them, the other worker is given every
      one of any number of tasks, and the one that was first none. */
  lemma {:induction false} FirstCanStarve(s: System, n: nat) returns (steps: seq<Action>)
    requires Resting(s, 1, 2)
    ensures Legal(s, steps) && Resting(Exec(s, steps), 1, 2)
    ensures StartsOf(s, steps, 0, 1) == 0 && StartsOf(s, steps, 0, 2) >= n
  {
    hide Resting, Legal, Exec, StartsOf;
    if n == 0 {
      steps := [];
      NoSteps(s);
    } else {
      var before := FirstCanStarve(s, n - 1);
      var round := Round(Exec(s, before));
      Append(s, before, round);
      steps := before + round;
    }
  }

  const PAIR: System :=
    System(State(map[1 := Worker(32, Waiting, Wake, 0, false, false), 2 := Worker(64, Waiting, Wake, 0, false, false)],
                 [], map[], map[1 := [Out(Wake), In, Out(Wait)], 2 := [Out(Wake), In, Out(Wait)]]),
           map[1 := 0, 2 := 0], map[0 := Server(map[1 := SWaiting, 2 := SWaiting], [1, 2], [], 2)],
           map[0 := Top], map[], 1, [], F.State([], 1, map[], map[], [], [], {}, {}), {}, {})

  lemma PairKernel()
    ensures K.Inv(PAIR.kernel)
  {
    SmallestHistory();
    assert K.ModeAfter([]) == K.Gone;
    hide K.ModeAfter;
    var h := PAIR.kernel.history;
    assert forall t {:trigger K.Logged(h, t)} ::
        K.Logged(h, t) == if t == 1 || t == 2 then [Out(Wake), In, Out(Wait)] else [];
  }

  lemma PairServer()
    ensures QueuesOk(PAIR.servers[0])
  {
    assert Busy(map[1 := SWaiting, 2 := SWaiting]) == {};
    assert |map[1 := SWaiting, 2 := SWaiting]| == 2;
  }

  lemma PairShape()
    ensures Shape(PAIR)
  {
    assert PAIR.owner.Keys == {1, 2} == PAIR.kernel.workers.Keys;
  }

  lemma PairIsInitial()
    ensures Initial(PAIR)
  {
    hide K.Inv, QueuesOk, Shape;
    PairKernel();
    PairServer();
    PairShape();
  }

  lemma PairRests()
    ensures Initial(PAIR) && Resting(PAIR, 1, 2)
  {
    hide Inv, Initial;
    PairIsInitial();
    InitialInv(PAIR);
  }

  /** Such a server exists right after registration. */
  lemma StarvingRun(n: nat) returns (steps: seq<Action>)
    ensures Initial(PAIR) && PAIR.servers[0].pending[0] == 1 && Legal(PAIR, steps)
    ensures StartsOf(PAIR, steps, 0, 1) == 0 && StartsOf(PAIR, steps, 0, 2) >= n
  {
    hide Legal, StartsOf, Resting;
    PairRests();
    steps := FirstCanStarve(PAIR, n);
  }

  // ----------------------------------------------------------------- the tasks

  /** What a submission adds to the queue. */
  function Accepted(s: System, step: Action): seq<TaskId>
  {
    if step.Submit? && |s.flow.queue| < s.flow.capacity then [step.x] else []
  }

  /** What the worker that a step starts finds in its channel. */
  function Assigned(s: System, step: Action): seq<TaskId>
    requires Enabled(s, step)
  {
    match step
    case Schedule(v) =>
      var r := Next(s, step);
      if v in r.pos && r.pos[v].Switched? then F.Inbox(r.flow, r.pos[v].worker) else []
    case _ => []
  }

  function AllAccepted(s: System, steps: seq<Action>): seq<TaskId>
    requires Legal(s, steps)
    decreases |steps|
  {
    if steps == [] then [] else Accepted(s, steps[0]) + AllAccepted(Next(s, steps[0]), steps[1..])
  }

  function AllAssigned(s: System, steps: seq<Action>): seq<TaskId>
    requires Legal(s, steps)
    decreases |steps|
  {
    if steps == [] then [] else Assigned(s, steps[0]) + AllAssigned(Next(s, steps[0]), steps[1..])
  }

  lemma NoTurnNoTask(s: System, v: Sid)
    requires Inv(s) && Enabled(s, Schedule(v)) && !TakesTurn(s, Schedule(v), v)
    ensures Next(s, Schedule(v)) == s
  {
    hide Inv;
  }

  lemma TaskStep(s: System, step: Action)
    requires Inv(s) && Enabled(s, step)
    ensures s.flow.queue + Accepted(s, step) == Assigned(s, step) + Next(s, step).flow.queue
  {
    hide Inv, React, Collect, KlibProtocol.Apply, Choose, Kernel, SwitchTo;
    match step {
      case Schedule(v) =>
        if TakesTurn(s, step, v) { TurnServesHead(s, v); } else { NoTurnNoTask(s, v); }
      case Begin(_) =>
      case End(_) =>
      case Submit(_) =>
      case _ => FlowStays(s, step);
    }
  }

  lemma {:induction false} TaskRun(s: System, steps: seq<Action>)
    requires Inv(s) && Legal(s, steps)
    ensures s.flow.queue + AllAccepted(s, steps) == AllAssigned(s, steps) + Exec(s, steps).flow.queue
    decreases |steps|
  {
    hide Inv, Next, Enabled, Accepted, Assigned;
    if steps == [] {
    } else {
      TaskStep(s, steps[0]);
      StepKeeps(s, steps[0]);
      var r := Next(s, steps[0]);
      TaskRun(r, steps[1..]);
      calc {
        s.flow.queue + (Accepted(s, steps[0]) + AllAccepted(r, steps[1..]));
        (s.flow.queue + Accepted(s, steps[0])) + AllAccepted(r, steps[1..]);
        (Assigned(s, steps[0]) + r.flow.queue) + AllAccepted(r, steps[1..]);
        Assigned(s, steps[0]) + (r.flow.queue + AllAccepted(r, steps[1..]));
        Assigned(s, steps[0]) + (AllAssigned(r, steps[1..]) + Exec(s, steps).flow.queue);
        (Assigned(s, steps[0]) + AllAssigned(r, steps[1..])) + Exec(s, steps).flow.queue;
      }
    }
  }

  /** First in, first out: over every run, the tasks that found room in the queue have
      been given to workers in the order in which they were submitted, and those not
      given yet are the queue. */
  lemma TasksInOrder(s0: System, steps: seq<Action>)
    requires Initial(s0) && Legal(s0, steps)
    ensures AllAccepted(s0, steps) == AllAssigned(s0, steps) + Exec(s0, steps).flow.queue
  {
    hide Inv, Legal, Exec, AllAccepted, AllAssigned;
    InitialInv(s0);
    TaskRun(s0, steps);
    assert s0.flow.queue == [];
  }

  /** A submission in the run that found the queue full. */
  predicate RefusedIn(s: System, steps: seq<Action>, x: TaskId)
    requires Legal(s, steps)
    decreases |steps|
  {
    steps != [] &&
    ((steps[0] == Submit(x) && |s.flow.queue| >= s.flow.capacity) || RefusedIn(Next(s, steps[0]), steps[1..], x))
  }

  lemma SubmitStep(s: System, step: Action, x: TaskId)
    requires Inv(s) && Enabled(s, step)
    ensures x in Next(s, step).flow.dropped <==>
              x in s.flow.dropped || (step == Submit(x) && |s.flow.queue| >= s.flow.capacity)
    ensures x in Next(s, step).flow.accepted <==> x in s.flow.accepted || x in Accepted(s, step)
  {
    hide Inv, React, Collect, KlibProtocol.Apply, Choose, Kernel, SwitchTo;
    match step {
      case Schedule(v) => TurnKeepsAccepted(s, v);
      case Begin(_) =>
      case End(_) =>
      case Submit(_) =>
      case _ => FlowStays(s, step);
    }
  }

  lemma TurnKeepsAccepted(s: System, v: Sid)
    requires Inv(s) && Enabled(s, Schedule(v))
    ensures Next(s, Schedule(v)).flow.accepted == s.flow.accepted
    ensures Next(s, Schedule(v)).flow.dropped == s.flow.dropped
  {
    hide Inv, SwitchTo;
    var c := Choose(s.servers[v], s.flow.queue);
    if c.Run? {
      SwitchKeepsServers(s.(servers := s.servers[v := c.server], flow := F.Assign(s.flow, c.worker)), v, c.worker);
    }
  }

  lemma {:induction false} SubmitRun(s: System, steps: seq<Action>, x: TaskId)
    requires Inv(s) && Legal(s, steps)
    ensures var f := Exec(s, steps).flow;
            && (x in f.dropped <==> x in s.flow.dropped || RefusedIn(s, steps, x))
            && (x in f.accepted <==> x in s.flow.accepted || x in AllAccepted(s, steps))
    decreases |steps|
  {
    hide Inv, Next, Enabled, Accepted;
    if steps == [] {
    } else {
      SubmitStep(s, steps[0], x);
      StepKeeps(s, steps[0]);
      SubmitRun(Next(s, steps[0]), steps[1..], x);
    }
  }

  /** A submission is lost exactly if it finds the queue full, and accepted exactly if
      it finds room. */
  lemma SubmittedIsAcceptedOrRefused(s0: System, steps: seq<Action>, x: TaskId)
    requires Initial(s0) && Legal(s0, steps)
    ensures var f := Exec(s0, steps).flow;
            && (x in f.dropped <==> RefusedIn(s0, steps, x))
            && (x in f.accepted <==> x in AllAccepted(s0, steps))
  {
    hide Inv, Legal, Exec, AllAccepted, RefusedIn;
    InitialInv(s0);
    SubmitRun(s0, steps, x);
  }

  lemma Regroup(a: seq<Tid>, b: seq<Tid>, c: seq<Tid>)
    ensures a + (b + c) == (a + b) + c
  {
  }

  // ---------------------------------------------------------- the running queue

  /** The worker that a turn of server `v` starts. */
  function Begun(s: System, step: Action, v: Sid): seq<Tid>
  {
    if TakesTurn(s, step, v) && s.flow.queue != [] then [s.servers[v].pending[0]] else []
  }

  /** The worker that server `v` takes off `running` when it handles a WAIT. */
  function Popped(s: System, step: Action, v: Sid): seq<Tid>
  {
    if step == Return(v) && v in s.kernel.slots && s.kernel.slots[v].Full? && s.kernel.slots[v].msg.event.Wait?
       && v in s.servers && s.servers[v].running != []
    then [s.servers[v].running[0]] else []
  }

  lemma ReturnRunning(s: System, v: Sid)
    requires Inv(s) && Enabled(s, Return(v))
    ensures var r := Next(s, Return(v));
            v in r.servers && s.servers[v].running == Popped(s, Return(v), v) + r.servers[v].running
  {
    hide Inv, K.Inv, Loops, Messages, Kernel, SwitchTo, QueuesOk;
    ReturnFacts(s, v);
    HandleReturn(s.servers[v], s.kernel.slots[v].msg);
    KernelFrame(s.(pos := s.pos[v := Top]), SwitchReturn(v, SWITCH_EVENTS));
  }

  lemma ReceiveRunning(s: System, u: Sid, v: Sid)
    requires Inv(s) && Enabled(s, Receive(u)) && v in s.servers
    ensures var r := Next(s, Receive(u)); v in r.servers && r.servers[v].running == s.servers[v].running
  {
    hide Inv, Loops, Messages, QueuesOk, InTransit, SwitchTo;
    ReceiveFacts(s, u);
    var w := Channel(s, u)[0].worker;
    var t := s.(channels := s.channels[u := Channel(s, u)[1..]],
                servers := s.servers[u := OnWake(s.servers[u], w).server]);
    SwitchKeepsServers(t, u, w);
    assert s.odd + {} == s.odd;
  }

  lemma TurnRunning(s: System, u: Sid, v: Sid)
    requires Inv(s) && Enabled(s, Schedule(u)) && v in s.servers
    ensures var r := Next(s, Schedule(u));
            v in r.servers && r.servers[v].running == s.servers[v].running + Begun(s, Schedule(u), v)
  {
    hide Inv, SwitchTo, QueuesOk;
    ServerFacts(s, u);
    ChooseKeepsQueues(s.servers[u], s.flow.queue);
    var c := Choose(s.servers[u], s.flow.queue);
    if c.Run? {
      SwitchKeepsServers(s.(servers := s.servers[u := c.server], flow := F.Assign(s.flow, c.worker)), u, c.worker);
    }
  }

  lemma ReturnElsewhere(s: System, u: Sid, v: Sid)
    requires Inv(s) && Enabled(s, Return(u)) && v in s.servers && v != u
    ensures v in Next(s, Return(u)).servers && Next(s, Return(u)).servers[v] == s.servers[v]
  {
    hide Inv, Next, QueuesOk, InTransit;
    ReturnFacts(s, u);
    ReturnMoves(s, u);
  }

  lemma RunningStep(s: System, step: Action, v: Sid)
    requires Inv(s) && Enabled(s, step) && v in s.servers
    ensures v in Next(s, step).servers
    ensures s.servers[v].running + Begun(s, step, v) == Popped(s, step, v) + Next(s, step).servers[v].running
  {
    hide Inv, React, Collect, KlibProtocol.Apply, Choose, Kernel, SwitchTo;
    match step {
      case Schedule(u) => TurnRunning(s, u, v);
      case Return(u) => if u == v { ReturnRunning(s, v); } else { ReturnElsewhere(s, u, v); }
      case Receive(u) => ReceiveRunning(s, u, v);
      case Pause(w) => KernelFrame(s, KlibProtocol.Pause(w));
      case Sleep(w) => KernelFrame(s, SyscallPause(w));
      case Awake(w) => KernelFrame(s, ScheduleReturn(w, false));
      case Continue(w) => KernelFrame(s, ScheduleReturn(w, false));
      case Rest(w) => KernelFrame(s.(afterTask := s.afterTask - {w}), WaitStep(w, false));
      case _ =>
    }
  }

  function AllBegun(s: System, steps: seq<Action>, v: Sid): seq<Tid>
    requires Legal(s, steps)
    decreases |steps|
  {
    if steps == [] then [] else Begun(s, steps[0], v) + AllBegun(Next(s, steps[0]), steps[1..], v)
  }

  function AllPopped(s: System, steps: seq<Action>, v: Sid): seq<Tid>
    requires Legal(s, steps)
    decreases |steps|
  {
    if steps == [] then [] else Popped(s, steps[0], v) + AllPopped(Next(s, steps[0]), steps[1..], v)
  }

  /** Over every run, `running` is the workers started, in order, without as many from
      the front as WAITs have been handled: which worker waited plays no part. */
  lemma {:induction false} RunningInOrder(s: System, steps: seq<Action>, v: Sid)
    requires Inv(s) && Legal(s, steps) && v in s.servers
    ensures v in Exec(s, steps).servers
    ensures s.servers[v].running + AllBegun(s, steps, v) == AllPopped(s, steps, v) + Exec(s, steps).servers[v].running
    decreases |steps|
  {
    hide Inv, Next, Enabled, Begun, Popped;
    if steps == [] {
    } else {
      RunningStep(s, steps[0], v);
      StepKeeps(s, steps[0]);
      var r, rest := Next(s, steps[0]), steps[1..];
      RunningInOrder(r, rest, v);
      Regroup(s.servers[v].running, Begun(s, steps[0], v), AllBegun(r, rest, v));
      Regroup(Popped(s, steps[0], v), r.servers[v].running, AllBegun(r, rest, v));
      Regroup(Popped(s, steps[0], v), AllPopped(r, rest, v), Exec(s, steps).servers[v].running);
    }
  }

  // --------------------------------------------------------- the woken workers

  function WorkersOf(ms: seq<Msg>): (ws: seq<Tid>)
    ensures |ws| == |ms|
  {
    seq(|ms|, i requires 0 <= i < |ms| => ms[i].worker)
  }

  /** Those of `ws` that belong to server `v`. */
  function Mine(owner: map<Tid, Sid>, v: Sid, ws: seq<Tid>): seq<Tid>
  {
    if ws == [] then []
    else (if ws[0] in owner && owner[ws[0]] == v then [ws[0]] else []) + Mine(owner, v, ws[1..])
  }

  lemma {:induction false} MineAppend(owner: map<Tid, Sid>, v: Sid, a: seq<Tid>, b: seq<Tid>)
    ensures Mine(owner, v, a + b) == Mine(owner, v, a) + Mine(owner, v, b)
  {
    if a == [] {
      assert a + b == b;
    } else {
      assert (a + b)[1..] == a[1..] + b;
      MineAppend(owner, v, a[1..], b);
    }
  }

  /** The workers whose WAKE is on its way to server `v`, the next first: in its
      channel, in the router's array, and on the kernel's list. */
  function Line(s: System, v: Sid): seq<Tid>
  {
    WorkersOf(Channel(s, v)) + Mine(s.owner, v, WorkersOf(s.routed)) + Mine(s.owner, v, s.kernel.idle)
  }

  /** A worker of server `v` that wakes in the step. */
  function Woke(s: System, step: Action, v: Sid): seq<Tid>
  {
    if step.Awake? && step.w in s.owner && s.owner[step.w] == v then [step.w] else []
  }

  /** The worker that server `v` resumes on an event from its channel. */
  function Resumed(s: System, step: Action, v: Sid): seq<Tid>
    requires Enabled(s, step)
  {
    if step != Receive(v) then []
    else var r := Next(s, step); if v in r.pos && r.pos[v].Switched? then [r.pos[v].worker] else []
  }

  /** What is in line is where it was. */
  lemma SameLine(s: System, r: System, v: Sid)
    requires r.owner == s.owner && r.routed == s.routed && Channel(r, v) == Channel(s, v)
    requires r.kernel.idle == s.kernel.idle
    ensures Line(r, v) == Line(s, v)
  {
    hide Mine;
  }

  lemma AwakeLine(s: System, w: Tid, v: Sid)
    requires Inv(s) && Enabled(s, Awake(w))
    ensures Line(s, v) + Woke(s, Awake(w), v) == Line(Next(s, Awake(w)), v)
  {
    hide Inv;
    var r := Next(s, Awake(w));
    assert r == s.(kernel := r.kernel) && r.kernel.idle == s.kernel.idle + [w];
    hide Next, Channel;
    MineAppend(s.owner, v, s.kernel.idle, [w]);
    assert Mine(s.owner, v, [w]) == Woke(s, Awake(w), v);
    hide Mine;
  }

  lemma SwitchKeepsIdle(s: System, v: Sid, w: Tid)
    ensures SwitchTo(s, v, w).kernel.idle == s.kernel.idle && SwitchTo(s, v, w).owner == s.owner
  {
  }

  lemma ReceiveLine(s: System, u: Sid, v: Sid)
    requires Inv(s) && Enabled(s, Receive(u))
    ensures Line(s, v) == Resumed(s, Receive(u), v) + Line(Next(s, Receive(u)), v)
  {
    hide Inv, QueuesOk, Loops, Messages, InTransit, Ready, SwitchTo, Mine;
    ReceiveFacts(s, u);
    var w := Channel(s, u)[0].worker;
    var t := s.(channels := s.channels[u := Channel(s, u)[1..]],
                servers := s.servers[u := OnWake(s.servers[u], w).server]);
    WakeReady(s, u, t);
    var r := Next(s, Receive(u));
    assert r == SwitchTo(t, u, w) by { assert s.odd + {} == s.odd; }
    Entered(s, u, w, t);
    SwitchKeepsServers(t, u, w);
    SwitchKeepsIdle(t, u, w);
    if u == v {
      assert WorkersOf(Channel(s, v)) == [w] + WorkersOf(Channel(s, v)[1..]);
    }
  }

  lemma WorkersCons(m: Msg, ms: seq<Msg>)
    ensures WorkersOf([m] + ms) == [m.worker] + WorkersOf(ms) && WorkersOf(ms + [m]) == WorkersOf(ms) + [m.worker]
  {
  }

  lemma MineCons(owner: map<Tid, Sid>, v: Sid, w: Tid, ws: seq<Tid>)
    requires w in owner
    ensures Mine(owner, v, [w] + ws) == if owner[w] == v then [w] + Mine(owner, v, ws) else Mine(owner, v, ws)
  {
    assert ([w] + ws)[1..] == ws;
  }

  lemma ForwardLine(s: System, v: Sid)
    requires Inv(s) && Enabled(s, Forward)
    ensures Line(Next(s, Forward), v) == Line(s, v)
  {
    hide Inv, Mine, WorkersOf;
    ForwardFacts(s);
    var m, r, rest := s.routed[0], Next(s, Forward), s.routed[1..];
    assert s.routed == [m] + rest && Forwarded(s, r);
    hide Next;
    WorkersCons(m, rest);
    WorkersCons(m, Channel(s, v));
    MineCons(s.owner, v, m.worker, WorkersOf(rest));
    if s.owner[m.worker] == v {
      Regroup(WorkersOf(Channel(s, v)), [m.worker], Mine(s.owner, v, WorkersOf(rest)));
    }
  }

  lemma CollectStarts(k: State, size: int)
    requires size > 1 && k.idle != [] && k.idle[0] in k.workers && Owed(k.workers[k.idle[0]]) == [Wake]
    ensures Collect(k, size).0 == Collect(TakeOne(k), size - 1).0
    ensures Collect(k, size).1 == [Msg(k.idle[0], Wake)] + Collect(TakeOne(k), size - 1).1
  {
    assert Reports(k.idle[0], [Wake]) == [Msg(k.idle[0], Wake)];
  }

  lemma FirstIsWoken(k: State)
    requires AllWoken(k) && k.idle != []
    ensures k.idle[0] in k.workers && Owed(k.workers[k.idle[0]]) == [Wake] && AllWoken(TakeOne(k))
  {
    assert k.idle[0] in k.idle;
    assert forall w :: w in TakeOne(k).idle ==> w in k.idle && w != k.idle[0];
  }

  /** The router reads the workers off the list in its order. */
  lemma {:induction false} GatherOrder(k: State, size: int)
    requires AllWoken(k)
    ensures WorkersOf(Collect(k, size).1) + Collect(k, size).0.idle == k.idle
    decreases |k.idle|
  {
    if size > 1 && k.idle != [] {
      hide Collect, AllWoken, Owed;
      FirstIsWoken(k);
      var r := TakeOne(k);
      GatherOrder(r, size - 1);
      CollectStarts(k, size);
      WorkersCons(Msg(k.idle[0], Wake), Collect(r, size - 1).1);
      hide WorkersOf;
      assert k.idle == [k.idle[0]] + r.idle;
    }
  }

  lemma {:induction false} GatherCount(k: State, size: nat)
    requires AllWoken(k) && size >= 1
    ensures |Collect(k, size).1| == if |k.idle| < size then |k.idle| else size - 1
    decreases |k.idle|
  {
    if size > 1 && k.idle != [] {
      hide Collect, AllWoken, Owed;
      FirstIsWoken(k);
      GatherCount(TakeOne(k), size - 1);
      CollectStarts(k, size);
    }
  }

  /** The router takes up to nine workers at a time, all if there are no more. */
  lemma RouterTakesNine(s: System)
    requires Reachable(s) && Enabled(s, Gather)
    ensures var n := if |s.kernel.idle| < 9 then |s.kernel.idle| else 9;
            var r := Next(s, Gather);
            WorkersOf(r.routed) == s.kernel.idle[..n] && r.kernel.idle == s.kernel.idle[n..]
  {
    hide Inv, Collect, AllWoken;
    ReachableInv(s);
    IdleIsWoken(s);
    GatherOrder(s.kernel, ROUTER_EVENTS);
    GatherCount(s.kernel, ROUTER_EVENTS);
  }

  lemma NobodyMine(owner: map<Tid, Sid>, v: Sid)
    ensures WorkersOf([]) == [] && Mine(owner, v, []) == []
  {
  }

  lemma GatherLine(s: System, v: Sid)
    requires Inv(s) && Enabled(s, Gather)
    ensures Line(Next(s, Gather), v) == Line(s, v)
  {
    hide Inv, Collect, AllWoken, Mine, WorkersOf;
    IdleIsWoken(s);
    GatherOrder(s.kernel, ROUTER_EVENTS);
    var r := Next(s, Gather);
    assert r == s.(kernel := r.kernel, routed := r.routed) && s.routed == [];
    MineAppend(s.owner, v, WorkersOf(r.routed), r.kernel.idle);
    hide Next;
    NobodyMine(s.owner, v);
    Regroup(WorkersOf(Channel(s, v)), Mine(s.owner, v, WorkersOf(r.routed)), Mine(s.owner, v, r.kernel.idle));
  }

  lemma KernelKeepsIdle(s: System, step: KlibProtocol.Step)
    requires match step
             case Pause(_) | SyscallPause(_) | WaitStep(_, _) => true
             case ScheduleReturn(t, _) => !s.kernel.Is(t, Blocked)
             case SwitchReturn(_, size) => size == SWITCH_EVENTS
             case _ => false
    ensures var r := Kernel(s, step);
            r.kernel.idle == s.kernel.idle && r.owner == s.owner && r.routed == s.routed && r.channels == s.channels
  {
  }

  lemma ReturnLine(s: System, u: Sid, v: Sid)
    requires Inv(s) && Enabled(s, Return(u))
    ensures Line(Next(s, Return(u)), v) == Line(s, v)
  {
    hide Inv, Next, ServerMoved, QueuesOk, Line;
    ReturnMoves(s, u);
    SameLine(s, Next(s, Return(u)), v);
  }

  lemma TurnLine(s: System, u: Sid, v: Sid)
    requires Inv(s) && Enabled(s, Schedule(u))
    ensures Line(Next(s, Schedule(u)), v) == Line(s, v)
  {
    hide Inv, SwitchTo, Line;
    var c := Choose(s.servers[u], s.flow.queue);
    if c.Run? {
      var t := s.(servers := s.servers[u := c.server], flow := F.Assign(s.flow, c.worker));
      SwitchKeepsServers(t, u, c.worker);
      SwitchKeepsIdle(t, u, c.worker);
    }
    hide Choose;
    SameLine(s, Next(s, Schedule(u)), v);
  }

  lemma LineStep(s: System, step: Action, v: Sid)
    requires Inv(s) && Enabled(s, step)
    ensures Line(s, v) + Woke(s, step, v) == Resumed(s, step, v) + Line(Next(s, step), v)
  {
    hide Inv, Line, Kernel, SwitchTo, React, Collect, Choose;
    match step {
      case Schedule(u) => TurnLine(s, u, v);
      case Return(u) => ReturnLine(s, u, v);
      case Receive(u) => ReceiveLine(s, u, v);
      case Gather => GatherLine(s, v);
      case Forward => ForwardLine(s, v);
      case Awake(w) => AwakeLine(s, w, v);
      case Pause(w) =>
        KernelKeepsIdle(s, KlibProtocol.Pause(w));
        SameLine(s, Next(s, step), v);
      case Sleep(w) =>
        KernelKeepsIdle(s, SyscallPause(w));
        SameLine(s, Next(s, step), v);
      case Continue(w) =>
        KernelKeepsIdle(s, ScheduleReturn(w, false));
        SameLine(s, Next(s, step), v);
      case Rest(w) =>
        KernelKeepsIdle(s.(afterTask := s.afterTask - {w}), WaitStep(w, false));
        SameLine(s, Next(s, step), v);
      case Begin(_) => SameLine(s, Next(s, step), v);
      case End(_) => SameLine(s, Next(s, step), v);
      case Submit(_) => SameLine(s, Next(s, step), v);
    }
  }

  function AllWoke(s: System, steps: seq<Action>, v: Sid): seq<Tid>
    requires Legal(s, steps)
    decreases |steps|
  {
    if steps == [] then [] else Woke(s, steps[0], v) + AllWoke(Next(s, steps[0]), steps[1..], v)
  }

  function AllResumed(s: System, steps: seq<Action>, v: Sid): seq<Tid>
    requires Legal(s, steps)
    decreases |steps|
  {
    if steps == [] then [] else Resumed(s, steps[0], v) + AllResumed(Next(s, steps[0]), steps[1..], v)
  }

  lemma {:induction false} LineRun(s: System, steps: seq<Action>, v: Sid)
    requires Inv(s) && Legal(s, steps)
    ensures Line(s, v) + AllWoke(s, steps, v) == AllResumed(s, steps, v) + Line(Exec(s, steps), v)
    decreases |steps|
  {
    hide Inv, Next, Enabled, Line, Woke, Resumed;
    if steps == [] {
    } else {
      LineStep(s, steps[0], v);
      StepKeeps(s, steps[0]);
      var r := Next(s, steps[0]);
      LineRun(r, steps[1..], v);
      Regroup(Line(s, v), Woke(s, steps[0], v), AllWoke(r, steps[1..], v));
      Regroup(Resumed(s, steps[0], v), Line(r, v), AllWoke(r, steps[1..], v));
      Regroup(Resumed(s, steps[0], v), AllResumed(r, steps[1..], v), Line(Exec(s, steps), v));
    }
  }

  lemma SomeOf(list: seq<Tid>) returns (w: Tid)
    requires list != []
    ensures w in list
  {
    w := list[0];
  }

  lemma NobodyInLine(s: System, v: Sid)
    requires Initial(s)
    ensures Line(s, v) == []
  {
    hide K.SlotsOk, K.WorkersOk, K.HistoryOk, Shape, Queues;
    assert forall w :: w in s.kernel.idle ==> K.OnList(s.kernel.workers, w);
    if s.kernel.idle != [] { var w := SomeOf(s.kernel.idle); }
  }

  /** Over every run a server resumes its workers in exactly the order in which they
      woke, through the kernel's list, the router and its channel; those it has not
      resumed yet are in line in this order. */
  lemma WakesInOrder(s0: System, steps: seq<Action>, v: Sid)
    requires Initial(s0) && Legal(s0, steps)
    ensures AllWoke(s0, steps, v) == AllResumed(s0, steps, v) + Line(Exec(s0, steps), v)
  {
    InitialInv(s0);
    NobodyInLine(s0, v);
    hide Inv, Initial, Legal, Exec, AllWoke, AllResumed, Line;
    LineRun(s0, steps, v);
  }
}
