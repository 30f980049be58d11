/** No dead ends: from wherever a run has got to, all tasks accepted so far can
    still be completed. */
module SchedulerProgress {
  import opened Events
  import opened Lists
  import opened KlibProtocol
  import opened Scheduler
  import opened SchedulerSystem
  import opened SchedulerSafety
  import opened SchedulerRuns
  import KlibRuns
  import K = KlibSafety
  import F = TaskFlow

  // -------------------------------------------------------------- the weight

  /** Steps until the server has taken the WAKE of a worker it believes blocked. */
  function AwayCost(status: Status, routed: nat): nat
  {
    if status.Blocked? then 7 else if status.Idle? then 6 else if routed > 0 then 5 else 4
  }

  /** Steps until the worker waits again, apart from those of its tasks. */
  function Base(x: View, routed: nat): nat
  {
    match x.state
    case SBlocked => AwayCost(x.status, routed)
    case SRunning =>
      (match x.switch
       case NoSwitch => 0
       case Pending(Empty(_)) => if x.status.Paused? then 3 else 2
       case Pending(Full(m)) => if m.event.Wait? then 1 else AwayCost(x.status, routed) + 1)
    case _ => 0
  }

  /** Steps that the task in the worker's channel or hands still needs. */
  function Held(flow: F.State, w: Tid): nat { 2 * |F.Inbox(flow, w)| + if w in flow.executing then 1 else 0 }

  function Weight(s: System, w: Tid): nat
    requires Shape(s) && w in s.owner
  {
    Base(ViewOf(s, w), Count(s.routed, w)) + Held(s.flow, w)
  }

  function Weights(s: System): map<Tid, nat>
    requires Shape(s)
  {
    map w | w in s.owner :: Weight(s, w)
  }

  /** Steps needed to finish everything: a queued task costs one to start, four for
      the worker and the task thus set in motion. */
  ghost function Measure(s: System): nat
    requires Shape(s)
  {
    5 * |s.flow.queue| + Sum(Weights(s))
  }

  /** Seen from any worker but `w`, nothing that counts has changed. */
  ghost predicate OnlyMoves(s: System, w: Tid, r: System)
    requires Shape(s) && Shape(r)
  {
    && r.owner == s.owner && w in s.owner
    && (forall x :: x in s.owner && x != w ==> ViewOf(r, x) == ViewOf(s, x))
    && (forall x :: x in s.owner && x != w ==> Count(r.routed, x) == Count(s.routed, x))
    && (forall x :: x in s.owner && x != w ==> Held(r.flow, x) == Held(s.flow, x))
  }

  lemma LighterByOne(s: System, w: Tid, r: System)
    requires Shape(s) && Shape(r) && OnlyMoves(s, w, r) && r.flow.queue == s.flow.queue && Weight(r, w) < Weight(s, w)
    ensures Measure(r) < Measure(s)
  {
    hide Shape, Base, Held, ViewOf, Count;
    SumLess(Weights(r), Weights(s), w);
  }

  /** `r` is closer to the end, with the same parties and tasks. */
  ghost predicate Closer(s: System, r: System)
  {
    && Shape(s) && Shape(r) && Measure(r) < Measure(s)
    && r.owner == s.owner && r.channelSize == s.channelSize && r.flow.accepted == s.flow.accepted
  }

  lemma CloserByOne(s: System, w: Tid, r: System)
    requires Shape(s) && Shape(r) && OnlyMoves(s, w, r) && r.flow.queue == s.flow.queue && Weight(r, w) < Weight(s, w)
    requires r.channelSize == s.channelSize && r.flow.accepted == s.flow.accepted
    ensures Closer(s, r)
  {
    LighterByOne(s, w, r);
    hide Shape, Measure, Weight;
  }

  lemma NextShape(s: System, step: Action)
    requires Inv(s) && Enabled(s, step)
    ensures Shape(s) && Inv(Next(s, step)) && Shape(Next(s, step))
  {
    hide Inv, Next, Shape;
    StepKeeps(s, step);
    InvParts(s);
    InvParts(Next(s, step));
  }

  // ---------------------------------------------------- the worker's own steps

  /** What a worker's own step is for the weights: `w` itself may change. */
  lemma WorkerCloser(s: System, w: Tid, r: System)
    requires WorkerOnly(s, w, r) && Shape(s) && Shape(r)
    requires Base(ViewOf(r, w), Count(s.routed, w)) < Base(ViewOf(s, w), Count(s.routed, w))
    ensures Closer(s, r)
  {
    WorkerOthers(s, w, r);
    assert r.routed == s.routed && r.flow == s.flow && r.channelSize == s.channelSize;
    hide WorkerOnly, Shape, Base, ViewOf, Count, Held;
    CloserByOne(s, w, r);
  }

  lemma AwakeCloser(s: System, w: Tid)
    requires Inv(s) && Enabled(s, Awake(w))
    ensures Closer(s, Next(s, Awake(w)))
  {
    hide Inv, K.Inv, Loops, Shape, Apply, Closer;
    NextShape(s, Awake(w));
    ParkedFacts(s, w);
    InvParts(s);
    KernelAwake(s.kernel, w);
    var r := Next(s, Awake(w));
    assert ViewOf(r, w) == ViewOf(s, w).(status := Idle);
    WorkerCloser(s, w, r);
  }

  lemma ContinueCloser(s: System, w: Tid)
    requires Inv(s) && Enabled(s, Continue(w)) && s.kernel.Is(w, Paused)
    ensures Closer(s, Next(s, Continue(w)))
  {
    hide Inv, K.Inv, Loops, Shape, Apply, Closer;
    NextShape(s, Continue(w));
    AttachedFacts(s, w);
    InvParts(s);
    KernelStay(s.kernel, w);
    WorkerCloser(s, w, Next(s, Continue(w)));
  }

  lemma RestCloser(s: System, w: Tid)
    requires Inv(s) && Enabled(s, Rest(w))
    ensures Closer(s, Next(s, Rest(w)))
  {
    hide Inv, K.Inv, Loops, Shape, Apply, Closer;
    NextShape(s, Rest(w));
    AttachedFacts(s, w);
    InvParts(s);
    KernelRest(s.kernel, w);
    WorkerCloser(s, w, Next(s, Rest(w)));
  }

  lemma FlowViews(s: System, r: System, x: Tid)
    requires Shape(s) && Shape(r) && r == s.(flow := r.flow, afterTask := r.afterTask) && x in s.owner
    ensures ViewOf(r, x) == ViewOf(s, x)
  {
    TransitSame(s, r);
    hide InTransit;
  }

  lemma FlowCloser(s: System, w: Tid, r: System)
    requires Shape(s) && Shape(r) && r == s.(flow := r.flow, afterTask := r.afterTask) && w in s.owner
    requires Held(r.flow, w) < Held(s.flow, w) && r.flow.queue == s.flow.queue && r.flow.accepted == s.flow.accepted
    requires forall x :: x != w ==> Held(r.flow, x) == Held(s.flow, x)
    ensures Closer(s, r)
  {
    hide Shape, ViewOf, Held, Base, Count;
    forall x | x in s.owner ensures ViewOf(r, x) == ViewOf(s, x) { FlowViews(s, r, x); }
    CloserByOne(s, w, r);
  }

  lemma BeginCloser(s: System, w: Tid)
    requires Inv(s) && Enabled(s, Begin(w))
    ensures Closer(s, Next(s, Begin(w)))
  {
    hide Inv, Shape, Closer;
    NextShape(s, Begin(w));
    AttachedFacts(s, w);
    FlowCloser(s, w, Next(s, Begin(w)));
  }

  lemma EndCloser(s: System, w: Tid)
    requires Inv(s) && Enabled(s, End(w))
    ensures Closer(s, Next(s, End(w)))
  {
    hide Inv, Shape, Closer;
    NextShape(s, End(w));
    AttachedFacts(s, w);
    FlowCloser(s, w, Next(s, End(w)));
  }

  // --------------------------------------------------------------- the router

  lemma ForwardCloser(s: System)
    requires Inv(s) && Enabled(s, Forward)
    ensures Closer(s, Next(s, Forward))
  {
    hide Inv, Shape, Closer;
    NextShape(s, Forward);
    ForwardFacts(s);
    var r := Next(s, Forward);
    var w := s.routed[0].worker;
    assert Forwarded(s, r);
    hide Next;
    ForwardViews(s, r);
    assert forall x :: Count(s.routed, x) == Count(r.routed, x) + if x == w then 1 else 0;
    RoutedFacts(s, w);
    ForwardWeight(s, w, r);
    hide Forwarded;
    CloserByOne(s, w, r);
  }

  lemma ForwardViews(s: System, r: System)
    requires Forwarded(s, r) && Shape(s) && Shape(r)
    ensures r.owner == s.owner && r.flow == s.flow && r.channelSize == s.channelSize
    ensures forall x :: x in s.owner ==> ViewOf(r, x) == ViewOf(s, x)
  {
    hide ViewOf;
    forall x | x in s.owner ensures ViewOf(r, x) == ViewOf(s, x) { ForwardView(s, r, x); }
  }

  /** The worker has woken, and its server takes it to be blocked or is about to. */
  predicate Elsewhere(x: View)
  {
    && x.status.Runnable?
    && (x.state == SBlocked
        || (x.state == SRunning && x.switch.Pending? && x.switch.slot.Full? && !x.switch.slot.msg.event.Wait?))
  }

  /** A worker with a WAKE on its way is away, and there is only that one. */
  lemma RoutedFacts(s: System, w: Tid)
    requires Inv(s) && w in s.owner && InTransit(s, w) > 0
    ensures Shape(s) && InTransit(s, w) == 1
    ensures Elsewhere(ViewOf(s, w))
  {
    hide K.Inv, Positions, Messages, Queues, Loops;
    assert ViewOk(w, ViewOf(s, w));
  }

  lemma ForwardWeight(s: System, w: Tid, r: System)
    requires Shape(s) && Shape(r) && w in s.owner && w in r.owner && ViewOf(r, w) == ViewOf(s, w) && r.flow == s.flow
    requires Count(s.routed, w) == 1 && Count(r.routed, w) == 0
    requires Elsewhere(ViewOf(s, w))
    ensures Weight(r, w) < Weight(s, w)
  {
    hide Shape, ViewOf, Count;
  }

  lemma GatherWeight(s: System, r: System, w: Tid)
    requires Shape(s) && Shape(r) && s.routed == [] && w in s.owner && ViewOk(w, ViewOf(s, w))
    requires r == s.(kernel := r.kernel, routed := r.routed) && Gathered(s.kernel, r.kernel, r.routed)
    requires w in s.kernel.idle ==> s.kernel.Is(w, Idle)
    ensures Weight(r, w) == Weight(s, w) - if Taken(s.kernel, r.kernel, w) then 1 else 0
  {
    hide Gathered, ViewOf, Count, Held, Shape, Base, ViewOk;
    GatheredView(s, r, w);
    StatusOf(s, w);
    BaseGathered(w, ViewOf(s, w), ViewOf(r, w));
  }

  lemma BaseGathered(w: Tid, x: View, y: View)
    requires ViewOk(w, x) && y.state == x.state && y.switch == x.switch
    ensures y.status == x.status ==> Base(y, 0) == Base(x, 0)
    ensures x.status.Idle? && y.status.Runnable? ==> Base(y, 1) == Base(x, 0) - 1
  {
  }

  lemma FirstIsTaken(k: State, size: int)
    requires AllWoken(k) && k.idle != [] && size >= 2
    ensures Taken(k, Collect(k, size).0, k.idle[0])
  {
    assert KlibRuns.Listed(k);
    KlibRuns.CollectTakesPrefix(k, size);
    hide Collect;
    var r := Collect(k, size).0;
    var d := |k.idle| - |r.idle|;
    assert forall i :: 0 <= i < |r.idle| ==> r.idle[i] == k.idle[i + d];
  }

  lemma GatherWeights(s: System, r: System)
    requires Shape(s) && Shape(r) && Views(s) && s.routed == [] && s.kernel.idle != []
    requires r == s.(kernel := r.kernel, routed := r.routed) && Gathered(s.kernel, r.kernel, r.routed)
    requires forall w :: w in s.kernel.idle ==> s.kernel.Is(w, Idle) && w in s.owner
    requires Taken(s.kernel, r.kernel, s.kernel.idle[0])
    ensures Measure(r) < Measure(s)
  {
    hide Shape, Gathered, ViewOf, ViewOk, Weight;
    assert s.kernel.idle[0] in s.kernel.idle;
    forall w | w in s.owner ensures Weight(r, w) == Weight(s, w) - if Taken(s.kernel, r.kernel, w) then 1 else 0 {
      GatherWeight(s, r, w);
    }
    SumLess(Weights(r), Weights(s), s.kernel.idle[0]);
  }

  lemma GatherCloser(s: System)
    requires Inv(s) && Enabled(s, Gather) && s.kernel.idle != []
    ensures Closer(s, Next(s, Gather))
  {
    hide Inv, Shape, Views, Collect, Gathered, Measure;
    NextShape(s, Gather);
    IdleIsWoken(s);
    CollectWakes(s.kernel, ROUTER_EVENTS);
    FirstIsTaken(s.kernel, ROUTER_EVENTS);
    InvViews(s);
    GatherWeights(s, Next(s, Gather));
  }

  lemma InvViews(s: System)
    requires Inv(s)
    ensures Shape(s) && Views(s)
  {
    hide K.Inv, Shape, Views, Positions, Messages, Queues, Loops;
  }

  // -------------------------------------------------------------- the servers

  /** What has changed once a server is inside a switch it was ready for. */
  lemma Entered(s: System, v: Sid, w: Tid, t: System)
    requires Inv(s) && Ready(s, v, w, t)
    ensures var r := SwitchTo(t, v, w);
            && ServerMoved(s, w, r) && r.routed == t.routed && r.flow == t.flow && r.channelSize == s.channelSize
            && (forall x :: x in s.owner && x != w ==> InTransit(r, x) == InTransit(s, x))
            && r.pos[v] == Switched(w) && v in r.kernel.slots && r.kernel.slots[v] == Empty(w)
            && r.kernel.Is(w, Running) && r.servers[v].states[w] == SRunning
  {
    hide K.Inv, Inv, QueuesOk, Loops, Messages, InTransit, Apply;
    EnterFacts(s, v, w);
    KernelSwitch(s.kernel, v, w);
    var r := SwitchTo(t, v, w);
    TransitSame(t, r);
  }

  lemma MovedViewsSame(s: System, w: Tid, r: System)
    requires Shape(s) && Shape(r) && ServerMoved(s, w, r)
    requires forall x :: x in s.owner && x != w ==> InTransit(r, x) == InTransit(s, x)
    ensures r.owner == s.owner && w in s.owner
    ensures forall x :: x in s.owner && x != w ==> ViewOf(r, x) == ViewOf(s, x)
  {
    hide Shape, ViewOf, InTransit;
    forall x | x in s.owner && x != w ensures ViewOf(r, x) == ViewOf(s, x) {
      MovedOther(s, w, r, x);
    }
  }

  /** A worker inside a fresh switch. */
  lemma EnteredBase(r: System, v: Sid, w: Tid)
    requires Shape(r) && w in r.owner && r.owner[w] == v
    requires v in r.pos && r.pos[v] == Switched(w) && v in r.kernel.slots && r.kernel.slots[v] == Empty(w)
    requires v in r.servers && w in r.servers[v].states && r.servers[v].states[w] == SRunning && r.kernel.Is(w, Running)
    ensures Base(ViewOf(r, w), Count(r.routed, w)) == 2
  {
    hide InTransit;
  }

  lemma ReceiveCloser(s: System, v: Sid)
    requires Inv(s) && Enabled(s, Receive(v))
    ensures Closer(s, Next(s, Receive(v)))
  {
    hide Inv, QueuesOk, Loops, Messages, InTransit, Ready, Shape, SwitchTo, Closer, ServerMoved;
    NextShape(s, Receive(v));
    ReceiveFacts(s, v);
    var w := Channel(s, v)[0].worker;
    var t := s.(channels := s.channels[v := Channel(s, v)[1..]],
                servers := s.servers[v := OnWake(s.servers[v], w).server]);
    WakeReady(s, v, t);
    var r := Next(s, Receive(v));
    assert r == SwitchTo(t, v, w) by { assert s.odd + {} == s.odd; }
    hide Next;
    Entered(s, v, w, t);
    EnteredCloser(s, v, w, r);
  }

  /** Entering a switch to a worker that weighed more than one in a switch does. */
  lemma EnteredCloser(s: System, v: Sid, w: Tid, r: System)
    requires Shape(s) && Shape(r) && ServerMoved(s, w, r) && s.owner[w] == v
    requires forall x :: x in s.owner && x != w ==> InTransit(r, x) == InTransit(s, x)
    requires r.routed == s.routed && r.flow == s.flow && r.channelSize == s.channelSize
    requires r.pos[v] == Switched(w) && v in r.kernel.slots && r.kernel.slots[v] == Empty(w)
    requires r.kernel.Is(w, Running) && r.servers[v].states[w] == SRunning
    requires s.servers[v].states[w] == SBlocked
    ensures Closer(s, r)
  {
    hide Shape, InTransit;
    MovedViewsSame(s, w, r);
    EnteredBase(r, v, w);
    assert Base(ViewOf(s, w), Count(s.routed, w)) >= 4;
    hide ServerMoved, ViewOf, Base, Count, Held;
    CloserByOne(s, w, r);
  }

  lemma ReturnCloser(s: System, v: Sid)
    requires Inv(s) && Enabled(s, Return(v))
    ensures Closer(s, Next(s, Return(v)))
  {
    hide Inv, Next, K.Inv, Loops, Messages, InTransit, QueuesOk, Shape, Closer, ServerMoved;
    NextShape(s, Return(v));
    ReturnFacts(s, v);
    ReturnMoves(s, v);
    var r := Next(s, Return(v));
    TransitSame(s, r);
    ReturnedCloser(s, v, s.pos[v].worker, r);
  }

  lemma ReturnedCloser(s: System, v: Sid, w: Tid, r: System)
    requires Shape(s) && Shape(r) && ServerMoved(s, w, r) && s.owner[w] == v
    requires forall x :: x in s.owner ==> InTransit(r, x) == InTransit(s, x)
    requires r.routed == s.routed && r.flow == s.flow && r.channelSize == s.channelSize
    requires s.pos[v] == Switched(w) && r.pos[v] == Top && r.kernel.workers == s.kernel.workers
    requires v in s.kernel.slots && s.kernel.slots[v].Full? && s.servers[v].states[w] == SRunning
    requires r.servers[v].states[w] == if s.kernel.slots[v].msg.event.Wait? then SWaiting else SBlocked
    ensures Closer(s, r)
  {
    hide Shape, InTransit;
    MovedViewsSame(s, w, r);
    assert Base(ViewOf(r, w), Count(r.routed, w)) < Base(ViewOf(s, w), Count(s.routed, w));
    hide ServerMoved, ViewOf, Base, Count, Held;
    CloserByOne(s, w, r);
  }

  lemma ScheduleCloser(s: System, v: Sid)
    requires Inv(s) && Enabled(s, Schedule(v)) && s.servers[v].pending != [] && s.flow.queue != []
    ensures Closer(s, Next(s, Schedule(v)))
  {
    hide Inv, QueuesOk, Choose, Ready, SwitchTo, Shape, Closer, ServerMoved, InTransit;
    NextShape(s, Schedule(v));
    ServerFacts(s, v);
    ChooseKeepsQueues(s.servers[v], s.flow.queue);
    var c := Choose(s.servers[v], s.flow.queue);
    RunReady(s, v, c);
    ScheduleFacts(s, v, c.worker);
    var t := s.(servers := s.servers[v := c.server], flow := F.Assign(s.flow, c.worker));
    Entered(s, v, c.worker, t);
    var r := Next(s, Schedule(v));
    assert r == SwitchTo(t, v, c.worker);
    hide Next;
    StartedCloser(s, v, c.worker, r);
  }

  lemma StartedCloser(s: System, v: Sid, w: Tid, r: System)
    requires Shape(s) && Shape(r) && ServerMoved(s, w, r) && s.owner[w] == v && s.flow.queue != []
    requires forall x :: x in s.owner && x != w ==> InTransit(r, x) == InTransit(s, x)
    requires r.routed == s.routed && r.flow == F.Assign(s.flow, w) && r.channelSize == s.channelSize
    requires r.pos[v] == Switched(w) && v in r.kernel.slots && r.kernel.slots[v] == Empty(w)
    requires r.kernel.Is(w, Running) && r.servers[v].states[w] == SRunning
    ensures Closer(s, r)
  {
    hide Shape, InTransit;
    MovedViewsSame(s, w, r);
    EnteredBase(r, v, w);
    assert forall x :: x != w ==> Held(r.flow, x) == Held(s.flow, x);
    assert Held(r.flow, w) == Held(s.flow, w) + 2;
    hide ServerMoved, ViewOf, Base, Count, Held;
    assert forall x :: x in s.owner && x != w ==> Weight(r, x) == Weight(s, x);
    assert Weight(r, w) <= Weight(s, w) + 4;
    hide Weight;
    SumOneMore(Weights(r), Weights(s), w, 4);
  }

  // ---------------------------------------------------- there is always a step

  /** What comes from outside: a new task, or a worker that pauses or blocks. */
  predicate Disturbs(step: Action) { step.Submit? || step.Sleep? || step.Pause? }

  /** A step of some party that brings the end closer. */
  ghost predicate Useful(s: System, step: Action)
  {
    Enabled(s, step) && !Disturbs(step) && Closer(s, Next(s, step))
  }

  lemma SwitchedFacts(s: System, v: Sid)
    requires Inv(s) && v in s.pos && s.pos[v].Switched?
    ensures v in s.servers && v in s.kernel.slots
    ensures s.kernel.slots[v].Empty? ==>
              var w := s.kernel.slots[v].worker;
              && (s.kernel.Is(w, Running) || s.kernel.Is(w, Paused))
              && (w in s.afterTask ==> F.Inbox(s.flow, w) == [] && w !in s.flow.executing)
  {
    hide Views, Messages, Queues, K.IdleOk, K.WorkersOk, K.HistoryOk, F.Inv;
  }

  /** A server inside a switch: the switch returns, or its worker goes on. */
  lemma SwitchedUseful(s: System, v: Sid) returns (step: Action)
    requires Inv(s) && v in s.pos && s.pos[v].Switched?
    ensures Useful(s, step)
  {
    hide Inv, Next, Closer;
    SwitchedFacts(s, v);
    if s.kernel.slots[v].Full? {
      step := Return(v);
      ReturnCloser(s, v);
    } else {
      var w := s.kernel.slots[v].worker;
      if s.kernel.Is(w, Paused) {
        step := Continue(w);
        ContinueCloser(s, w);
      } else if w in s.flow.executing {
        step := End(w);
        EndCloser(s, w);
      } else if F.Inbox(s.flow, w) != [] {
        step := Begin(w);
        BeginCloser(s, w);
      } else {
        step := Rest(w);
        RestCloser(s, w);
      }
    }
  }

  lemma OwnerFacts(s: System, w: Tid)
    requires Inv(s) && w in s.owner
    ensures s.owner[w] in s.pos && s.owner[w] in s.servers
  {
    hide K.Inv, Views, Positions, Messages, Queues, Loops;
  }

  lemma ForwardUseful(s: System) returns (step: Action)
    requires Inv(s) && s.routed != [] && s.channelSize >= 1
    ensures Useful(s, step)
  {
    hide Inv, Next, Closer;
    ForwardFacts(s);
    var v := s.owner[s.routed[0].worker];
    OwnerFacts(s, s.routed[0].worker);
    if |Channel(s, v)| < s.channelSize {
      step := Forward;
      ForwardCloser(s);
    } else if s.pos[v].Top? {
      step := Receive(v);
      ReceiveCloser(s, v);
    } else {
      step := SwitchedUseful(s, v);
    }
  }

  /** A worker its server believes blocked, with the server in its loop. */
  lemma AwayUseful(s: System, w: Tid) returns (step: Action)
    requires Inv(s) && s.channelSize >= 1 && w in s.owner && s.owner[w] in s.pos && s.pos[s.owner[w]].Top?
    requires s.owner[w] in s.servers && w in s.servers[s.owner[w]].states && s.servers[s.owner[w]].states[w] == SBlocked
    ensures Useful(s, step)
  {
    hide Inv, Next, Closer;
    WorkerFacts(s, w);
    if s.kernel.Is(w, Blocked) {
      step := Awake(w);
      AwakeCloser(s, w);
    } else if s.routed != [] {
      step := ForwardUseful(s);
    } else if s.kernel.Is(w, Idle) {
      step := Gather;
      GatherCloser(s);
    } else {
      step := Receive(s.owner[w]);
      ReceiveCloser(s, s.owner[w]);
    }
  }

  lemma BusyUseful(s: System, w: Tid) returns (step: Action)
    requires Inv(s) && s.channelSize >= 1 && w in s.owner
    requires s.owner[w] in s.servers && w in s.servers[s.owner[w]].states && s.servers[s.owner[w]].states[w] != SWaiting
    ensures Useful(s, step)
  {
    hide Inv, Next, Closer;
    OwnerFacts(s, w);
    WorkerFacts(s, w);
    if s.pos[s.owner[w]].Switched? {
      step := SwitchedUseful(s, s.owner[w]);
    } else {
      step := AwayUseful(s, w);
    }
  }

  lemma QueueUseful(s: System, w: Tid) returns (step: Action)
    requires Inv(s) && s.channelSize >= 1 && w in s.owner && s.flow.queue != []
    ensures Useful(s, step)
  {
    hide Inv, Next, Closer;
    OwnerFacts(s, w);
    WorkerFacts(s, w);
    var v := s.owner[w];
    ServerFacts(s, v);
    if s.pos[v].Switched? {
      step := SwitchedUseful(s, v);
    } else if s.servers[v].pending != [] {
      step := Schedule(v);
      ScheduleCloser(s, v);
    } else {
      assert w !in s.servers[v].pending;
      step := BusyUseful(s, w);
    }
  }

  // ------------------------------------------------------------ who holds tasks

  ghost predicate Holders(s: System)
  {
    forall w :: Held(s.flow, w) > 0 ==> w in s.owner
  }

  lemma KernelFrame(s: System, step: KlibProtocol.Step)
    ensures var r := Kernel(s, step); r.flow == s.flow && r.owner == s.owner && r.servers == s.servers
  {
    hide Apply;
  }

  lemma ReactFrame(s: System, v: Sid, m: Msg)
    requires v in s.servers
    ensures var r := React(s, v, m); r.flow == s.flow && r.owner == s.owner
  {
    hide Apply, Handle;
  }

  lemma FlowStays(s: System, step: Action)
    requires Enabled(s, step) && !(step.Schedule? || step.Begin? || step.End? || step.Submit?)
    ensures Next(s, step).flow == s.flow && Next(s, step).owner == s.owner
  {
    hide Kernel, React, Collect, KlibProtocol.Apply;
    match step {
      case Return(v) =>
        var s1 := s.(pos := s.pos[v := Top]);
        KernelFrame(s1, SwitchReturn(v, SWITCH_EVENTS));
        ReactFrame(Kernel(s1, SwitchReturn(v, SWITCH_EVENTS)), v, s.kernel.slots[v].msg);
      case Receive(v) =>
        ReactFrame(s.(channels := s.channels[v := Channel(s, v)[1..]]), v, Channel(s, v)[0]);
      case Pause(w) => KernelFrame(s, KlibProtocol.Pause(w));
      case Sleep(w) => KernelFrame(s, SyscallPause(w));
      case Awake(w) => KernelFrame(s, ScheduleReturn(w, false));
      case Continue(w) => KernelFrame(s, ScheduleReturn(w, false));
      case Rest(w) => KernelFrame(s.(afterTask := s.afterTask - {w}), WaitStep(w, false));
      case _ =>
    }
  }

  /** Only a worker that is scheduled gets a task. */
  lemma HoldersStep(s: System, step: Action)
    requires Inv(s) && Enabled(s, step) && Holders(s)
    ensures Holders(Next(s, step))
  {
    hide Inv, KlibProtocol.Apply;
    match step {
      case Schedule(v) => ScheduleHolders(s, v);
      case Begin(w) => AttachedFacts(s, w);
      case End(w) => AttachedFacts(s, w);
      case Submit(x) =>
        assert forall w :: Held(Next(s, step).flow, w) == Held(s.flow, w);
      case _ =>
        hide Next;
        FlowStays(s, step);
    }
  }

  lemma ScheduleHolders(s: System, v: Sid)
    requires Inv(s) && Enabled(s, Schedule(v)) && Holders(s)
    ensures Holders(Next(s, Schedule(v)))
  {
    hide Inv, Apply, QueuesOk, Choose;
    ServerFacts(s, v);
    ChooseKeepsQueues(s.servers[v], s.flow.queue);
    var c := Choose(s.servers[v], s.flow.queue);
    if c.Run? { ScheduleFacts(s, v, c.worker); }
  }

  // ---------------------------------------------------------------- the result

  predicate Undisturbed(steps: seq<Action>) { forall i :: 0 <= i < |steps| ==> !Disturbs(steps[i]) }

  predicate AllDone(s: System, tasks: set<TaskId>) { forall x :: x in tasks ==> x in s.flow.done }

  /** A task that is not done is queued or held by a worker. */
  lemma DoneUnlessHeld(s: System)
    requires Inv(s) && s.flow.queue == [] && forall w :: Held(s.flow, w) == 0
    ensures AllDone(s, s.flow.accepted)
  {
    hide K.Inv, Shape, Views, Positions, Messages, Queues;
    forall x | x in s.flow.accepted ensures x in s.flow.done {
      var p :| F.At(s.flow, x, p);
      assert forall w :: F.Inbox(s.flow, w) == [] && w !in s.flow.executing by {
        forall w ensures F.Inbox(s.flow, w) == [] && w !in s.flow.executing { assert Held(s.flow, w) == 0; }
      }
      assert p.Finished?;
    }
  }

  lemma HolderIsBusy(s: System, w: Tid)
    requires Inv(s) && w in s.owner && Held(s.flow, w) > 0
    ensures s.owner[w] in s.servers && w in s.servers[s.owner[w]].states && s.servers[s.owner[w]].states[w] != SWaiting
  {
    hide Inv;
    WorkerFacts(s, w);
    if s.servers[s.owner[w]].states[w] == SWaiting { ScheduleFacts(s, s.owner[w], w); }
  }

  /** Unless everything is done, some useful step is possible. */
  lemma FindUseful(s: System, any: Tid) returns (step: Action)
    requires Inv(s) && Holders(s) && s.channelSize >= 1 && any in s.owner
    requires s.flow.queue != [] || exists w :: Held(s.flow, w) > 0
    ensures Useful(s, step)
  {
    hide Inv, Useful;
    if s.flow.queue != [] {
      step := QueueUseful(s, any);
    } else {
      var w :| Held(s.flow, w) > 0;
      hide Held;
      HolderIsBusy(s, w);
      step := BusyUseful(s, w);
    }
  }

  /** The run is as long as the measure at most. */
  lemma {:induction false} Finish(s: System, any: Tid) returns (steps: seq<Action>)
    requires Inv(s) && Shape(s) && Holders(s) && s.channelSize >= 1 && any in s.owner
    ensures Legal(s, steps) && Undisturbed(steps) && |steps| <= Measure(s)
    ensures AllDone(Exec(s, steps), s.flow.accepted)
    decreases Measure(s)
  {
    hide Inv, Shape, Measure, Next, Enabled, AllDone;
    if s.flow.queue == [] && forall w :: Held(s.flow, w) == 0 {
      steps := [];
      DoneUnlessHeld(s);
    } else {
      var step := FindUseful(s, any);
      NextShape(s, step);
      HoldersStep(s, step);
      var rest := Finish(Next(s, step), any);
      steps := [step] + rest;
      assert steps[1..] == rest;
    }
  }

  lemma {:induction false} RunHolders(s: System, steps: seq<Action>)
    requires Inv(s) && Holders(s) && Legal(s, steps)
    ensures Inv(Exec(s, steps)) && Holders(Exec(s, steps))
    decreases |steps|
  {
    hide Inv, Next, Enabled, Holders;
    if steps != [] {
      StepKeeps(s, steps[0]);
      HoldersStep(s, steps[0]);
      RunHolders(Next(s, steps[0]), steps[1..]);
    }
  }

  lemma ReachableHolders(s: System)
    requires Reachable(s)
    ensures Inv(s) && Holders(s)
  {
    hide Inv;
    var s0, steps :| Initial(s0) && Legal(s0, steps) && Exec(s0, steps) == s;
    InitialInv(s0);
    assert Holders(s0);
    hide Initial, Holders;
    RunHolders(s0, steps);
  }

  /** From every state of every run, with at least one worker and channels that
      hold at least one event, the parties can complete every task accepted so
      far without a new one, a pause or a blocking. No interleaving of kernel, router,
      servers and workers leads into a dead end. */
  lemma NoDeadEnd(s: System)
    requires Reachable(s) && s.channelSize >= 1 && s.owner != map[]
    ensures exists steps :: Legal(s, steps) && Undisturbed(steps) && AllDone(Exec(s, steps), s.flow.accepted)
  {
    hide Inv, Legal, AllDone, Exec;
    ReachableHolders(s);
    InvParts(s);
    var any :| any in s.owner;
    var steps := Finish(s, any);
  }

  /** One server with one worker that has registered, run once and waited: the
      results above are about something. */
  const SMALLEST: System :=
    System(State(map[1 := Worker(32, Waiting, Wake, 0, false, false)], [], map[], map[1 := [Out(Wake), In, Out(Wait)]]),
           map[1 := 0], map[0 := Server(map[1 := SWaiting], [1], [], 1)], map[0 := Top], map[], 1, [],
           F.State([], 1, map[], map[], [], [], {}, {}), {}, {})

  lemma SmallestHistory()
    ensures K.ModeAfter([Out(Wake), In, Out(Wait)]) == K.Parked
  {
    assert [Out(Wake), In, Out(Wait)] == ([Out(Wake)] + [In]) + [Out(Wait)] && [Out(Wake)] == [] + [Out(Wake)];
    K.ModeAfterSnoc([Out(Wake)] + [In], Out(Wait));
    K.ModeAfterSnoc([Out(Wake)], In);
    K.ModeAfterSnoc([], Out(Wake));
  }

  lemma SmallestKernel()
    ensures K.Inv(SMALLEST.kernel)
  {
    SmallestHistory();
    assert K.ModeAfter([]) == K.Gone;
    hide K.ModeAfter;
    var h := SMALLEST.kernel.history;
    assert forall t {:trigger K.Logged(h, t)} :: K.Logged(h, t) == if t == 1 then [Out(Wake), In, Out(Wait)] else [];
  }

  lemma SmallestServer()
    ensures QueuesOk(Server(map[1 := SWaiting], [1], [], 1))
  {
    assert Busy(map[1 := SWaiting]) == {};
    assert |map[1 := SWaiting]| == 1;
  }

  lemma SmallestIsInitial()
    ensures Initial(SMALLEST) && Reachable(SMALLEST) && SMALLEST.channelSize >= 1 && SMALLEST.owner != map[]
  {
    SmallestKernel();
    SmallestServer();
    hide K.Inv, QueuesOk;
    assert 1 in SMALLEST.owner;
    assert Initial(SMALLEST);
    hide Initial;
    assert Legal(SMALLEST, []) && Exec(SMALLEST, []) == SMALLEST;
  }
}
