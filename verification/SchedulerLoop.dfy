/** The scheduling loop of one server as it runs: queues and worker states changed
    in place, against kernel and workers that answer every context switch. */
module SchedulerLoop {
  import opened Events
  import opened KlibProtocol
  import opened Scheduler

  /** How a context switch comes back: the event reported for the worker that was
      switched to, and the tasks that found room in the queue meanwhile. */
  datatype Return = Return(event: Event, spawned: seq<TaskId>)

  /** `script` is what the next switches return; once it is used up the workers
      simply finish and wait. `depth` is how deep handle_event has nested. */
  datatype World = World(server: Server, tasks: seq<TaskId>, script: seq<Return>, odd: set<Oddity>, depth: nat)

  function NextReturn(script: seq<Return>): Return { if script == [] then Return(Wait, []) else script[0] }

  function Rest(script: seq<Return>): seq<Return> { if script == [] then [] else script[1..] }

  /** The world after a switch has returned. */
  function Switched(w: World): World
  {
    w.(tasks := w.tasks + NextReturn(w.script).spawned, script := Rest(w.script))
  }

  /** handle_event: a WAKE switches to the worker and handles what comes back one
      level deeper. */
  function React(w: World, m: Msg, level: nat): World
    decreases |w.script|, if m.event.Wake? then 1 else 0
  {
    var r := Handle(w.server, m);
    var w1 := w.(server := r.server, odd := w.odd + r.odd, depth := if level > w.depth then level else w.depth);
    if r.switchTo.None? then w1
    else React(Switched(w1), Msg(m.worker, NextReturn(w1.script).event), level + 1)
  }

  function Spawned(script: seq<Return>): seq<TaskId>
  {
    if script == [] then [] else script[0].spawned + Spawned(script[1..])
  }

  /** The kernel reports BLOCK or WAIT for the worker it was asked to run. */
  predicate Tame(script: seq<Return>)
  {
    forall i :: 0 <= i < |script| ==> script[i].event.Block? || script[i].event.Wait?
  }

  predicate Expected(s: Server, m: Msg)
  {
    && m.worker in s.states
    && match m.event
       case Block => s.states[m.worker] == SRunning
       case Wait => s.states[m.worker] == SRunning
       case Wake => s.states[m.worker] == SBlocked
       case _ => false
  }

  /** Nobody but possibly `t` is marked Running. */
  ghost predicate OnlyRunning(s: Server, t: Option<Tid>)
  {
    forall x :: x in s.states && s.states[x] == SRunning ==> t == Some(x)
  }

  /** Between two worlds tasks only arrive, in the order the switches brought them. */
  ghost predicate Arrivals(w: World, r: World)
  {
    && |r.script| <= |w.script| && r.script == w.script[|w.script| - |r.script|..]
    && r.tasks == w.tasks + Spawned(w.script[..|w.script| - |r.script|])
  }

  /** Only WAKE asks for a switch, and to the worker that woke. */
  lemma WakeSwitches(s: Server, m: Msg)
    ensures Handle(s, m).switchTo.Some? ==> m.event.Wake? && Handle(s, m).switchTo == Some(m.worker)
  {
  }

  lemma SwitchedArrivals(w: World)
    ensures Arrivals(w, Switched(w)) && |Switched(w).script| == if w.script == [] then 0 else |w.script| - 1
  {
    if w.script != [] {
      assert w.script[..1] == [w.script[0]];
      assert Spawned(w.script[..1]) == w.script[0].spawned + Spawned([]);
      assert w.script[0].spawned + [] == w.script[0].spawned;
    } else {
      assert w.tasks + [] == w.tasks;
    }
  }

  /** Where a switch leaves its worker, by the event it came back with. */
  function Settled(e: Event): WorkerStatus { if e.Block? then SBlocked else SWaiting }

  /** Handling BLOCK or WAIT: no switch, no oddity, the worker stops running. */
  lemma SettleKeeps(w: World, m: Msg, level: nat)
    requires QueuesOk(w.server) && Expected(w.server, m) && !m.event.Wake? && OnlyRunning(w.server, Some(m.worker))
    ensures var r := React(w, m, level);
            && QueuesOk(r.server) && OnlyRunning(r.server, None) && r.odd == w.odd
            && r.tasks == w.tasks && r.script == w.script && r.server.capacity == w.server.capacity
            && r.depth == (if level > w.depth then level else w.depth) && r.server.states.Keys == w.server.states.Keys
            && r.server.states[m.worker] == Settled(m.event)
            && (forall t :: t in w.server.states && t != m.worker ==> r.server.states[t] == w.server.states[t])
  {
    if m.event.Block? { BlockAndWakeKeepQueues(w.server, m.worker); } else { WaitKeepsQueues(w.server, m.worker); }
    hide QueuesOk;
    assert w.odd + {} == w.odd;
  }

  /** The world in which a woken worker has been marked Running again. */
  function Resumed(w: World, t: Tid): World { w.(server := SetState(w.server, t, Scheduler.SRunning)) }

  lemma WakeUnfolds(w: World, t: Tid)
    requires t in w.server.states && w.server.states[t] == SBlocked
    ensures React(w, Msg(t, Wake), 0) == React(Switched(Resumed(w, t)), Msg(t, NextReturn(w.script).event), 1)
  {
    assert w.odd + {} == w.odd;
  }

  lemma ResumedKeeps(w: World, t: Tid)
    requires QueuesOk(w.server) && t in w.server.states && w.server.states[t] == SBlocked && OnlyRunning(w.server, None)
    ensures QueuesOk(Resumed(w, t).server) && OnlyRunning(Resumed(w, t).server, Some(t))
  {
    BlockAndWakeKeepQueues(w.server, t);
  }

  /** Handling an expected event settles within two levels, whatever the worker
      does when it is resumed. */
  lemma ReactKeeps(w: World, m: Msg)
    requires QueuesOk(w.server) && Tame(w.script) && Expected(w.server, m)
    requires OnlyRunning(w.server, if m.event.Wake? then None else Some(m.worker))
    ensures var r := React(w, m, 0);
            && QueuesOk(r.server) && OnlyRunning(r.server, None) && r.odd == w.odd
            && Tame(r.script) && Arrivals(w, r) && r.server.capacity == w.server.capacity
            && r.depth <= (if w.depth > 1 then w.depth else 1) && r.server.states.Keys == w.server.states.Keys
            && r.server.states[m.worker] == Settled(if m.event.Wake? then NextReturn(w.script).event else m.event)
            && r.script == (if m.event.Wake? then Rest(w.script) else w.script)
            && (forall t :: t in w.server.states && t != m.worker ==> r.server.states[t] == w.server.states[t])
  {
    hide React, QueuesOk, OnlyRunning, Arrivals;
    if m.event.Wake? {
      WakeUnfolds(w, m.worker);
      ResumedKeeps(w, m.worker);
      var w1 := Resumed(w, m.worker);
      SwitchedArrivals(w1);
      SettleKeeps(Switched(w1), Msg(m.worker, NextReturn(w1.script).event), 1);
      SameArrivals(w, w1, Switched(w1), React(w, m, 0));
    } else {
      SettleKeeps(w, m, 0);
      NoArrivals(w, React(w, m, 0));
    }
  }

  lemma NoArrivals(w: World, r: World)
    requires r.tasks == w.tasks && r.script == w.script
    ensures Arrivals(w, r)
  {
    assert w.script[..0] == [] && w.tasks + [] == w.tasks;
  }

  lemma SameArrivals(w: World, w1: World, r1: World, r: World)
    requires Arrivals(w1, r1) && w1.tasks == w.tasks && w1.script == w.script && r.tasks == r1.tasks
             && r.script == r1.script
    ensures Arrivals(w, r)
  {
  }

  // ------------------------------------------------------------ bookkeeping

  lemma {:induction false} SpawnedAppend(a: seq<Return>, b: seq<Return>)
    ensures Spawned(a + b) == Spawned(a) + Spawned(b)
  {
    if a == [] {
      assert a + b == b;
    } else {
      assert (a + b)[1..] == a[1..] + b;
      SpawnedAppend(a[1..], b);
    }
  }

  /** `started` and then `tasks` are, in order, what there was and what came. */
  ghost predicate Fifo(w: World, started0: seq<TaskId>, r: World, started: seq<TaskId>)
  {
    && |r.script| <= |w.script| && r.script == w.script[|w.script| - |r.script|..]
    && started + r.tasks == started0 + w.tasks + Spawned(w.script[..|w.script| - |r.script|])
  }

  lemma FifoStart(w: World, started: seq<TaskId>)
    ensures Fifo(w, started, w, started)
  {
    assert w.script[..0] == [];
    assert started + w.tasks + [] == started + w.tasks;
  }

  /** What is left of a script after another part of it has been used up. */
  ghost predicate Behind(a: seq<Return>, b: seq<Return>) { |b| <= |a| && b == a[|a| - |b|..] }

  function Used(a: seq<Return>, b: seq<Return>): seq<TaskId>
    requires |b| <= |a|
  {
    Spawned(a[..|a| - |b|])
  }

  lemma BehindChain(a: seq<Return>, b: seq<Return>, c: seq<Return>)
    requires Behind(a, b) && Behind(b, c)
    ensures Behind(a, c) && Used(a, c) == Used(a, b) + Used(b, c)
  {
    var i, j := |a| - |b|, |b| - |c|;
    assert a[..i + j] == a[..i] + b[..j];
    assert a[i + j..] == b[j..];
    SpawnedAppend(a[..i], b[..j]);
  }

  lemma UsedAndLeft(a: seq<Return>, b: seq<Return>)
    requires Behind(a, b)
    ensures Spawned(a) == Used(a, b) + Spawned(b)
  {
    assert a == a[..|a| - |b|] + b;
    SpawnedAppend(a[..|a| - |b|], b);
  }

  lemma Appended(a: seq<TaskId>, b: seq<TaskId>, c: seq<TaskId>)
    ensures a + (b + c) == (a + b) + c
  {
  }

  lemma FifoArrivals(w: World, started0: seq<TaskId>, r: World, started: seq<TaskId>, r2: World)
    requires Fifo(w, started0, r, started) && Arrivals(r, r2)
    ensures Fifo(w, started0, r2, started)
    ensures |r2.tasks| + |Spawned(r2.script)| == |r.tasks| + |Spawned(r.script)|
  {
    hide Spawned;
    BehindChain(w.script, r.script, r2.script);
    UsedAndLeft(r.script, r2.script);
    Appended(started, r.tasks, Used(r.script, r2.script));
    Appended(started0 + w.tasks, Used(w.script, r.script), Used(r.script, r2.script));
  }

  /** Starting the first task. */
  lemma FifoStartTask(w: World, started0: seq<TaskId>, r: World, started: seq<TaskId>, r2: World)
    requires Fifo(w, started0, r, started) && r.tasks != [] && r2.tasks == r.tasks[1..] && r2.script == r.script
    ensures Fifo(w, started0, r2, started + [r.tasks[0]])
  {
    assert started + r.tasks == (started + [r.tasks[0]]) + r.tasks[1..];
  }

  lemma FifoSame(w: World, started0: seq<TaskId>, r: World, started: seq<TaskId>, r2: World)
    requires Fifo(w, started0, r, started) && r2.tasks == r.tasks && r2.script == r.script
    ensures Fifo(w, started0, r2, started)
  {
  }

  lemma ArrivalsChain(a: World, b: World, c: World)
    requires Arrivals(a, b) && Arrivals(b, c)
    ensures Arrivals(a, c)
  {
    hide Spawned;
    BehindChain(a.script, b.script, c.script);
    Appended(a.tasks, Used(a.script, b.script), Used(b.script, c.script));
  }

  /** What a server keeps between two turns of its event loop. */
  ghost predicate Calm(w: World)
  {
    QueuesOk(w.server) && Tame(w.script) && OnlyRunning(w.server, None) && w.odd == {}
  }

  ghost predicate StillBlocked(a: map<Tid, WorkerStatus>, b: map<Tid, WorkerStatus>)
  {
    a.Keys == b.Keys && forall t :: t in a && a[t] == SBlocked ==> b[t] == SBlocked
  }

  /** A started worker runs until its switch returns; then the server is calm again. */
  lemma RunKeepsCalm(w: World, c: Choice)
    requires Calm(w) && c == Choose(w.server, w.tasks) && c.Run?
    ensures var w1 := w.(server := c.server, tasks := w.tasks[1..]);
            var w2 := Switched(w1);
            var r := React(w2, Msg(c.worker, NextReturn(w1.script).event), 0);
            && Calm(r) && Arrivals(w1, r) && r.depth <= (if w.depth > 1 then w.depth else 1)
            && StillBlocked(w.server.states, r.server.states) && r.script == Rest(w.script)
            && r.server.states == w.server.states[c.worker := Settled(NextReturn(w.script).event)]
  {
    hide QueuesOk, React, Arrivals;
    ChooseKeepsQueues(w.server, w.tasks);
    var w1 := w.(server := c.server, tasks := w.tasks[1..]);
    SwitchedArrivals(w1);
    hide Choose;
    var m := Msg(c.worker, NextReturn(w1.script).event);
    ReactKeeps(Switched(w1), m);
    ArrivalsChain(w1, Switched(w1), React(Switched(w1), m, 0));
  }

  /** WAKE reports for different workers that the server believes blocked. */
  ghost predicate Wakes(states: map<Tid, WorkerStatus>, inbox: seq<Msg>)
  {
    && (forall i :: 0 <= i < |inbox| ==>
          inbox[i].event.Wake? && inbox[i].worker in states && states[inbox[i].worker] == SBlocked)
    && (forall i, j :: 0 <= i < j < |inbox| ==> inbox[i].worker != inbox[j].worker)
  }

  lemma FirstWakes(states: map<Tid, WorkerStatus>, inbox: seq<Msg>)
    requires Wakes(states, inbox) && inbox != []
    ensures inbox[0].event.Wake? && inbox[0].worker in states && states[inbox[0].worker] == SBlocked
  {
  }

  lemma LaterWakes(a: map<Tid, WorkerStatus>, b: map<Tid, WorkerStatus>, inbox: seq<Msg>)
    requires Wakes(a, inbox) && inbox != [] && b.Keys == a.Keys
    requires forall t :: t in a && t != inbox[0].worker ==> b[t] == a[t]
    ensures Wakes(b, inbox[1..])
  {
  }

  lemma WakeKeepsCalm(w: World, m: Msg)
    requires Calm(w) && m.event.Wake? && m.worker in w.server.states && w.server.states[m.worker] == SBlocked
    ensures var r := React(w, m, 0);
            && Calm(r) && Arrivals(w, r) && r.depth <= (if w.depth > 1 then w.depth else 1)
            && r.server.states.Keys == w.server.states.Keys && r.script == Rest(w.script)
            && r.server.states[m.worker] == Settled(NextReturn(w.script).event)
            && (forall t :: t in w.server.states && t != m.worker ==> r.server.states[t] == w.server.states[t])
  {
    hide QueuesOk, React, Arrivals;
    ReactKeeps(w, m);
  }

  /** The events of a channel handled one after the other. */
  function ReactAll(w: World, inbox: seq<Msg>): World
    decreases |inbox|
  {
    if inbox == [] then w else ReactAll(React(w, inbox[0], 0), inbox[1..])
  }

  /** Every worker named is resumed once, in order: the `j`-th is left where the `j`-th
      switch from now on leaves it. Nobody else is touched. */
  lemma {:induction false} AllAreResumed(w: World, inbox: seq<Msg>)
    requires Calm(w) && Wakes(w.server.states, inbox)
    ensures var r := ReactAll(w, inbox);
            && Calm(r) && Arrivals(w, r) && r.depth <= (if w.depth > 1 then w.depth else 1)
            && r.server.states.Keys == w.server.states.Keys
            && r.script == (if |inbox| <= |w.script| then w.script[|inbox|..] else [])
            && (forall j :: 0 <= j < |inbox| ==>
                  r.server.states[inbox[j].worker] == Settled(if j < |w.script| then w.script[j].event else Wait))
            && (forall t :: t in w.server.states && (forall j :: 0 <= j < |inbox| ==> inbox[j].worker != t) ==>
                  r.server.states[t] == w.server.states[t])
    decreases |inbox|
  {
    hide Calm, React, Arrivals;
    if inbox == [] {
      NoArrivals(w, w);
    } else {
      var m, q, rest := inbox[0], React(w, inbox[0], 0), inbox[1..];
      WakeKeepsCalm(w, m);
      AllAreResumed(q, rest);
      var r := ReactAll(q, rest);
      ArrivalsChain(w, q, r);
      forall j | 0 <= j < |inbox|
        ensures r.server.states[inbox[j].worker] == Settled(if j < |w.script| then w.script[j].event else Wait)
      {
        if j > 0 { assert inbox[j] == rest[j - 1]; }
      }
      forall t | t in w.server.states && (forall j :: 0 <= j < |inbox| ==> inbox[j].worker != t)
        ensures r.server.states[t] == w.server.states[t]
      {
        assert forall j :: 0 <= j < |rest| ==> rest[j].worker == inbox[j + 1].worker;
      }
    }
  }

  /** A calm server's turn stops or starts the first task; nothing else. */
  lemma CalmChoice(w: World)
    requires Calm(w)
    ensures var c := Choose(w.server, w.tasks);
            && (c.NoWorker? <==> w.server.pending == [])
            && (c.NoTask? <==> w.server.pending != [] && w.tasks == [])
            && (c.Run? <==> w.server.pending != [] && w.tasks != [])
            && (c.Run? ==> c.task == w.tasks[0])
            && (c.NoTask? ==> c.odd == {} && c.server.states == w.server.states && Calm(w.(server := c.server)))
  {
    hide QueuesOk;
    ChooseKeepsQueues(w.server, w.tasks);
  }

  /** The world after the worker chosen in `c` has been started and its switch has been
      answered and handled. */
  function Ran(w: World, c: Choice): World
    requires c.Run? && w.tasks != []
  {
    var w1 := w.(server := c.server, tasks := w.tasks[1..]);
    React(Switched(w1), Msg(c.worker, NextReturn(w1.script).event), 0)
  }

  /** The worker is left where its switch leaves it, nobody else is touched, and one
      task fewer is left to come. */
  lemma RanIsCloser(w: World, c: Choice)
    requires Calm(w) && c == Choose(w.server, w.tasks) && c.Run? && w.tasks != []
    ensures Calm(Ran(w, c)) && Ran(w, c).script == Rest(w.script)
    ensures Ran(w, c).server.states == w.server.states[c.worker := Settled(NextReturn(w.script).event)]
    ensures |Ran(w, c).tasks| + |Spawned(Ran(w, c).script)| == |w.tasks| + |Spawned(w.script)| - 1
  {
    RunKeepsCalm(w, c);
    hide Calm, React, Choose;
    var w1 := w.(server := c.server, tasks := w.tasks[1..]);
    FifoStart(w1, []);
    FifoArrivals(w1, [], w1, [], Ran(w, c));
  }

  /** try_schedule_tasks by a server that keeps its queues. */
  ghost function Scheduled(w: World): World
    requires Calm(w)
    decreases |w.tasks| + |Spawned(w.script)|
  {
    CalmChoice(w);
    var c := Choose(w.server, w.tasks);
    if c.Run? then
      RanIsCloser(w, c);
      Scheduled(Ran(w, c))
    else if c.NoTask? then w.(server := c.server)
    else w
  }

  /** Every pending worker is known but not Waiting. */
  ghost predicate Spinning(s: Server)
  {
    && s.pending != [] && |s.pending| <= s.capacity
    && (forall t :: t in s.pending ==> t in s.states && s.states[t] != SWaiting)
  }

  lemma SpinningGoesOn(s: Server, tasks: seq<TaskId>)
    requires Spinning(s)
    ensures Choose(s, tasks).GoOn? && Spinning(Choose(s, tasks).server)
    ensures Choose(s, tasks).server.states == s.states
    ensures multiset(Choose(s, tasks).server.pending) == multiset(s.pending)
  {
    var t, rest := s.pending[0], s.pending[1..];
    assert t in s.pending && s.pending == [t] + rest;
    assert Choose(s, tasks).server.pending == rest + [t];
    assert forall x :: x in rest + [t] ==> x in s.pending;
  }

  /** The server after `n` turns of the loop, if none of them stops or switches. */
  function AfterTurns(s: Server, tasks: seq<TaskId>, n: nat): Option<Server>
    decreases n
  {
    if n == 0 then Some(s)
    else match Choose(s, tasks)
         case GoOn(r, _) => AfterTurns(r, tasks, n - 1)
         case _ => None
  }

  /** Then try_schedule_tasks turns the queue round and round: however many turns it
      has made, it has got no further, so it never returns. */
  lemma {:induction false} SpinsForEver(s: Server, tasks: seq<TaskId>, n: nat)
    requires Spinning(s)
    ensures var r := AfterTurns(s, tasks, n);
            && r.Some? && Spinning(r.value) && Choose(r.value, tasks).GoOn?
            && r.value.states == s.states && multiset(r.value.pending) == multiset(s.pending)
    decreases n
  {
    SpinningGoesOn(s, tasks);
    if n > 0 {
      SpinsForEver(Choose(s, tasks).server, tasks, n - 1);
    }
  }

  /** A calm server is safe from that. */
  lemma CalmNeverSpins(w: World)
    requires Calm(w)
    ensures !Spinning(w.server)
  {
    if w.server.pending != [] { assert w.server.pending[0] in w.server.pending; }
  }

  // ---------------------------------------------------------------- the loop

  class Loop {
    var states: map<Tid, WorkerStatus>
    var pending: seq<Tid>
    var running: seq<Tid>
    const capacity: nat
    var tasks: seq<TaskId>
    var started: seq<TaskId>
    var script: seq<Return>
    var odd: set<Oddity>
    var depth: nat

    ghost function View(): World reads this
    {
      World(Server(states, pending, running, capacity), tasks, script, odd, depth)
    }

    /** The server has reacted as `r` says, and nothing else has happened. */
    ghost predicate Did(w: World, r: Reaction) reads this
    {
      View() == w.(server := r.server, odd := w.odd + r.odd)
    }

    constructor (states: map<Tid, WorkerStatus>, pending: seq<Tid>, running: seq<Tid>, capacity: nat,
                 tasks: seq<TaskId>, script: seq<Return>)
      ensures View() == World(Server(states, pending, running, capacity), tasks, script, {}, 0) && started == []
    {
      this.states, this.pending, this.running, this.capacity := states, pending, running, capacity;
      this.tasks, this.started, this.script, this.odd, this.depth := tasks, [], script, {}, 0;
    }

    method CtxSwitch() returns (e: Event)
      modifies this`tasks, this`script
      ensures View() == Switched(old(View())) && e == NextReturn(old(script)).event
    {
      if script == [] {
        assert tasks + [] == tasks;
        return Wait;
      }
      e := script[0].event;
      tasks := tasks + script[0].spawned;
      script := script[1..];
    }

    /** Pushing onto a full queue fails, and the failure is only logged. */
    method PushPending(t: Tid)
      modifies this`pending, this`odd
      ensures pending == Push(old(pending), capacity, t) && odd == old(odd) + PushOddity(old(pending), capacity)
    {
      if |pending| < capacity { pending := pending + [t]; } else { odd := odd + {PushFailed}; }
    }

    method NoteBlock(t: Tid)
      modifies this`states, this`odd
      ensures Did(old(View()), OnBlock(old(View()).server, t))
    {
      if t !in states {
        odd := odd + {UnknownWorker};
      } else if states[t] == SRunning {
        states := states[t := SBlocked];
      } else {
        odd := odd + {UnexpectedBlock};
      }
    }

    method NoteWake(t: Tid) returns (resume: bool)
      modifies this`states, this`odd
      ensures Did(old(View()), OnWake(old(View()).server, t))
      ensures resume <==> OnWake(old(View()).server, t).switchTo == Some(t)
    {
      resume := false;
      if t !in states {
        odd := odd + {UnknownWorker};
      } else if states[t] == SBlocked {
        states := states[t := SRunning];
        resume := true;
      } else {
        odd := odd + {UnexpectedWake};
      }
    }

    method NoteWait(t: Tid)
      modifies this`states, this`running, this`pending, this`odd
      ensures Did(old(View()), OnWait(old(View()).server, t))
    {
      if t !in states {
        odd := odd + {UnknownWorker};
        return;
      }
      if states[t] == SRunning {
        states := states[t := SWaiting];
        running := if running == [] then [] else running[1..];
      } else {
        odd := odd + {UnexpectedWait};
      }
      PushPending(t);
    }

    method HandleEvent(m: Msg, level: nat)
      modifies this
      ensures View() == React(old(View()), m, level) && started == old(started)
      decreases |script|, if m.event.Wake? then 1 else 0
    {
      hide OnBlock, OnWake, OnWait;
      ghost var w := View();
      WakeSwitches(w.server, m);
      depth := if level > depth then level else depth;
      match m.event {
        case Block => NoteBlock(m.worker);
        case Wait => NoteWait(m.worker);
        case Wake =>
          var resume := NoteWake(m.worker);
          if resume {
            var e := CtxSwitch();
            HandleEvent(Msg(m.worker, e), level + 1);
          }
        case _ => odd := odd + {InvalidEvent};
      }
    }

    /** One turn of try_schedule_tasks up to the context switch. */
    method TakeTurn() returns (c: Choice)
      modifies this`states, this`pending, this`running, this`tasks, this`odd
      ensures c == Choose(old(View()).server, old(tasks))
      ensures View().server == (if c.NoWorker? then old(View()).server else c.server)
      ensures tasks == if c.Run? || c.Lose? then old(tasks)[1..] else old(tasks)
      ensures odd == old(odd) + if c.NoWorker? || c.Run? then {} else c.odd
    {
      if pending == [] { return NoWorker; }
      var t := pending[0];
      pending := pending[1..];
      if t !in states {
        odd := odd + {UnknownWorker};
        return GoOn(Server(states, pending, running, capacity), {UnknownWorker});
      }
      var full := if |pending| < capacity then {} else {PushFailed};
      if states[t] != SWaiting {
        odd := odd + {NotWaiting};
        PushPending(t);
        return GoOn(Server(states, pending, running, capacity), {NotWaiting} + full);
      }
      if tasks == [] {
        PushPending(t);
        return NoTask(Server(states, pending, running, capacity), full);
      }
      var task := tasks[0];
      tasks := tasks[1..];
      if |running| < capacity {
        states := states[t := SRunning];
        running := running + [t];
        return Run(Server(states, pending, running, capacity), t, task);
      }
      odd := odd + {PushFailed};
      PushPending(t);
      return Lose(Server(states, pending, running, capacity), task, {PushFailed} + full);
    }

    /** try_schedule_tasks: it terminates, starts tasks in the order in which they
        were queued, loses none, and stops only when no worker waits or no task
        is queued. Of the turns that go on without starting a task none occurs. */
    method TryScheduleTasks()
      requires Calm(View())
      modifies this
      ensures View() == Scheduled(old(View()))
      ensures Calm(View()) && (pending == [] || tasks == [])
      ensures Fifo(old(View()), old(started), View(), started)
      ensures depth <= if old(depth) > 1 then old(depth) else 1
      ensures StillBlocked(old(states), states)
    {
      ghost var w, begun := View(), started;
      FifoStart(w, begun);
      hide Calm, React, Fifo, QueuesOk, Arrivals, Spawned;
      while true
        invariant Calm(View()) && Fifo(w, begun, View(), started) && StillBlocked(w.server.states, states)
        invariant Scheduled(View()) == Scheduled(w)
        invariant depth <= if w.depth > 1 then w.depth else 1
        decreases |tasks| + |Spawned(script)|
      {
        ghost var now := View();
        CalmChoice(now);
        var c := TakeTurn();
        if c.NoWorker? || c.NoTask? {
          assert now.odd + {} == now.odd;
          FifoSame(w, begun, now, started, View());
          break;
        }
        ghost var taken := View();
        assert now.odd + {} == now.odd;
        assert taken == now.(server := c.server, tasks := now.tasks[1..]);
        RunKeepsCalm(now, c);
        RanIsCloser(now, c);
        FifoStartTask(w, begun, now, started, taken);
        started := started + [c.task];
        var e := CtxSwitch();
        HandleEvent(Msg(c.worker, e), 0);
        FifoArrivals(w, begun, taken, started, View());
      }
    }

    /** The events that the router has sent, one after the other. */
    method DrainEvents(inbox: seq<Msg>)
      requires Calm(View()) && Wakes(states, inbox)
      modifies this
      ensures View() == ReactAll(old(View()), inbox) && started == old(started)
      ensures Calm(View()) && Arrivals(old(View()), View())
      ensures depth <= if old(depth) > 1 then old(depth) else 1
      ensures states.Keys == old(states).Keys
    {
      hide Calm, React, Arrivals, Wakes;
      ghost var w := View();
      for i := 0 to |inbox|
        invariant ReactAll(View(), inbox[i..]) == ReactAll(w, inbox) && started == old(started)
        invariant Calm(View()) && Wakes(states, inbox[i..])
      {
        var m := inbox[i];
        assert inbox[i..][0] == m && inbox[i..][1..] == inbox[i + 1..];
        ghost var was := states;
        FirstWakes(was, inbox[i..]);
        if m.worker !in states { continue; }
        WakeKeepsCalm(View(), m);
        HandleEvent(m, 0);
        LaterWakes(was, states, inbox[i..]);
      }
      assert inbox[|inbox|..] == [];
      AllAreResumed(w, inbox);
    }

    /** One turn of the event loop: schedule until no worker waits or no task is queued,
        then handle what has arrived. */
    method Iterate(inbox: seq<Msg>)
      requires Calm(View()) && Wakes(states, inbox)
      modifies this
      ensures View() == ReactAll(Scheduled(old(View())), inbox)
      ensures Calm(View()) && Fifo(old(View()), old(started), View(), started) && states.Keys == old(states).Keys
      ensures depth <= if old(depth) > 1 then old(depth) else 1
    {
      hide Calm, Fifo, Arrivals;
      ghost var w, begun := View(), started;
      TryScheduleTasks();
      ghost var now := View();
      DrainEvents(inbox);
      FifoArrivals(w, begun, now, started, View());
    }
  }
}
