/** What every step of the whole machine keeps. */
module SchedulerSafety {
  import opened Events
  import opened Lists
  import opened KlibProtocol
  import opened Scheduler
  import opened SchedulerSystem
  import K = KlibSafety
  import F = TaskFlow

  // ------------------------------------------------------------- counting

  lemma {:induction false} CountSnoc(ms: seq<Msg>, m: Msg, w: Tid)
    ensures Count(ms + [m], w) == Count(ms, w) + if m.worker == w then 1 else 0
  {
    if ms == [] {
      assert ([] + [m])[1..] == [];
    } else {
      CountSnoc(ms[1..], m, w);
      assert (ms + [m])[1..] == ms[1..] + [m];
    }
  }

  // ------------------------------------------- one worker changes, others don't

  ghost predicate SameElsewhere<T>(a: map<Sid, T>, b: map<Sid, T>, v: Sid)
  {
    forall u :: u != v ==> (u in a <==> u in b) && (u in a ==> a[u] == b[u])
  }

  lemma OtherSwitch(s: System, w: Tid, r: System, x: Tid)
    requires r.owner == s.owner && w in s.owner && x in s.owner && x != w
    requires SameElsewhere(s.pos, r.pos, s.owner[w]) && SameElsewhere(s.kernel.slots, r.kernel.slots, s.owner[w])
    requires s.owner[w] in s.pos && (s.pos[s.owner[w]] == Top || s.pos[s.owner[w]] == Switched(w))
    requires s.owner[w] in r.pos && (r.pos[s.owner[w]] == Top || r.pos[s.owner[w]] == Switched(w))
    ensures SwitchOf(r, x) == SwitchOf(s, x)
  {
    var v := s.owner[x];
    if v != s.owner[w] {
      assert v in s.pos <==> v in r.pos;
      assert v in s.kernel.slots <==> v in r.kernel.slots;
    }
  }

  lemma ViewsFromOthers(s: System, w: Tid, r: System)
    requires Shape(s) && Shape(r) && Views(s) && r.owner == s.owner && w in s.owner
    requires forall x :: x in s.owner && x != w ==> ViewOf(r, x) == ViewOf(s, x)
    requires ViewOk(w, ViewOf(r, w))
    ensures Views(r)
  {
    hide ViewOf, ViewOk, Shape;
  }

  lemma SlotGivesServer(k: State, v: Sid, w: Tid)
    requires K.Inv(k) && v in k.slots && k.slots[v] == Empty(w)
    ensures w in k.workers && k.workers[w].server == v
  {
    hide K.IdleOk, K.WorkersOk, K.HistoryOk;
  }

  lemma ParkedFacts(s: System, w: Tid)
    requires Inv(s) && w in s.kernel.workers
    ensures w in s.owner && s.owner[w] in s.pos && Plain(s.kernel.workers[w])
    ensures Shape(s) && ViewOk(w, ViewOf(s, w)) && K.Inv(s.kernel)
    ensures s.owner[w] in s.servers && w in s.servers[s.owner[w]].states
  {
    hide K.Inv, Queues, Loops, Positions;
  }

  /** A kernel RUNNING or PAUSED worker is the one its own server waits for. */
  lemma AttachedFacts(s: System, w: Tid)
    requires Inv(s) && s.kernel.Executes(w)
    ensures w in s.owner
    ensures var v := s.owner[w];
            && v in s.pos && s.pos[v] == Switched(w) && v in s.kernel.slots && s.kernel.slots[v] == Empty(w)
            && s.kernel.workers[w].server == v && v in s.servers && w in s.servers[v].states
            && s.servers[v].states[w] == SRunning && InTransit(s, w) == 0
    ensures Plain(s.kernel.workers[w])
  {
    hide Inv, K.Inv;
    ParkedFacts(s, w);
    hide Shape, InTransit;
    assert s.kernel.slots[s.owner[w]] == Empty(w);
    SlotGivesServer(s.kernel, s.owner[w], w);
  }

  /** A worker does something on its own: the kernel's record of it changes, and
      the slot of its server may be filled. */
  ghost predicate WorkerOnly(s: System, w: Tid, r: System)
  {
    && w in s.owner && w in s.kernel.workers && w in r.kernel.workers
    && r == s.(kernel := r.kernel, afterTask := r.afterTask)
    && r.kernel.workers == s.kernel.workers[w := r.kernel.workers[w]] && Plain(r.kernel.workers[w])
    && r.kernel.slots.Keys == s.kernel.slots.Keys && SameElsewhere(s.kernel.slots, r.kernel.slots, s.owner[w])
    && s.owner[w] in s.pos && (s.pos[s.owner[w]] == Switched(w) || r.kernel.slots == s.kernel.slots)
  }

  lemma ShapeSame(s: System, r: System)
    requires Shape(s) && r.owner == s.owner && r.servers == s.servers && r.pos == s.pos
    requires r.kernel.workers.Keys == s.kernel.workers.Keys
    ensures Shape(r)
  {
  }

  lemma PositionsSame(s: System, r: System)
    requires Positions(s) && r.owner == s.owner && r.pos == s.pos && r.kernel.slots.Keys == s.kernel.slots.Keys
    ensures Positions(r)
  {
    assert forall v :: v in r.kernel.slots <==> v in s.kernel.slots;
  }

  lemma MessagesSame(s: System, r: System)
    requires Messages(s) && r.owner == s.owner && r.routed == s.routed && r.channels == s.channels
    requires forall x :: x in r.kernel.workers ==>
               Plain(r.kernel.workers[x]) || (x in s.kernel.workers && r.kernel.workers[x] == s.kernel.workers[x])
    ensures Messages(r)
  {
    assert forall v :: Channel(r, v) == Channel(s, v);
    hide Plain;
  }

  lemma WorkerRest(s: System, w: Tid, r: System)
    requires WorkerOnly(s, w, r) && Shape(s) && Positions(s) && Messages(s)
    ensures Shape(r) && Positions(r) && Messages(r)
  {
    hide Shape, Positions, Messages, Plain;
    ShapeSame(s, r);
    PositionsSame(s, r);
    MessagesSame(s, r);
  }

  lemma WorkerOthers(s: System, w: Tid, r: System)
    requires WorkerOnly(s, w, r) && Shape(s) && Shape(r)
    ensures r.owner == s.owner && w in s.owner
    ensures forall x :: x in s.owner && x != w ==> ViewOf(r, x) == ViewOf(s, x)
  {
    assert forall x :: x in s.owner && x != w ==> r.kernel.workers[x] == s.kernel.workers[x];
    assert forall v :: Channel(r, v) == Channel(s, v);
    forall x | x in s.owner && x != w ensures ViewOf(r, x) == ViewOf(s, x) {
      assert InTransit(r, x) == InTransit(s, x);
      if s.pos[s.owner[w]] == Switched(w) { OtherSwitch(s, w, r, x); }
    }
  }

  lemma WorkerViews(s: System, w: Tid, r: System)
    requires WorkerOnly(s, w, r) && Shape(s) && Shape(r) && Views(s)
    requires ViewOk(w, ViewOf(r, w))
    ensures Views(r)
  {
    WorkerOthers(s, w, r);
    hide ViewOf, ViewOk, Shape, WorkerOnly;
    ViewsFromOthers(s, w, r);
  }

  lemma WorkerInv(s: System, w: Tid, r: System)
    requires Inv(s) && WorkerOnly(s, w, r) && K.Inv(r.kernel) && Loops(r)
    requires Shape(r) ==> ViewOk(w, ViewOf(r, w))
    ensures Inv(r)
  {
    hide K.Inv, Queues, Loops, Views, Shape, Positions, Messages, ViewOk, ViewOf;
    WorkerRest(s, w, r);
    WorkerViews(s, w, r);
  }

  // -------------------------------------------------------- the worker's steps

  lemma LoopsSame(s: System, w: Tid, r: System)
    requires Loops(s) && r == s.(kernel := r.kernel) && w in r.kernel.workers
    requires r.kernel.workers == s.kernel.workers[w := r.kernel.workers[w]] && !r.kernel.workers[w].status.Waiting?
    ensures Loops(r)
  {
    assert forall x :: r.kernel.Is(x, Waiting) ==> s.kernel.Is(x, Waiting);
  }

  lemma InvParts(s: System)
    requires Inv(s)
    ensures K.Inv(s.kernel) && Shape(s) && Loops(s) && s.odd == {}
    ensures forall w :: w in s.kernel.workers ==> w in s.owner
  {
    hide K.Inv, Views, Positions, Messages, Queues, Loops;
  }

  /** What a kernel step of worker `w` leaves behind. */
  ghost predicate KernelDid(k: State, step: KlibProtocol.Step, w: Tid, x: Worker, slots: map<Sid, Slot>)
  {
    && Apply(k, step).Live? && K.Inv(Apply(k, step).state)
    && Apply(k, step).state.workers == k.workers[w := x]
    && Apply(k, step).state.slots == slots
  }

  lemma KernelStay(k: State, w: Tid)
    requires K.Inv(k) && k.Executes(w)
    ensures KernelDid(k, KlibProtocol.Pause(w), w, k.workers[w].(status := Paused), k.slots)
    ensures KernelDid(k, ScheduleReturn(w, false), w, k.workers[w].(status := Running), k.slots)
  {
    hide K.Inv;
    K.StepKeeps(k, KlibProtocol.Pause(w));
    K.StepKeeps(k, ScheduleReturn(w, false));
  }

  lemma KernelSleep(k: State, w: Tid)
    requires K.Inv(k) && k.Is(w, Paused)
    ensures KernelDid(k, SyscallPause(w), w, k.workers[w].(status := Blocked),
                      k.slots[k.workers[w].server := Full(Msg(w, Block))])
  {
    hide K.Inv;
    K.StepKeeps(k, SyscallPause(w));
  }

  lemma KernelAwake(k: State, w: Tid)
    requires K.Inv(k) && k.Is(w, Blocked)
    ensures KernelDid(k, ScheduleReturn(w, false), w, k.workers[w].(status := Idle, event := Wake), k.slots)
  {
    hide K.Inv;
    K.StepKeeps(k, ScheduleReturn(w, false));
  }

  lemma KernelRest(k: State, w: Tid)
    requires K.Inv(k) && k.Executes(w)
    ensures KernelDid(k, WaitStep(w, false), w, k.workers[w].(status := Waiting, timer := false, timedOut := false),
                      k.slots[k.workers[w].server := Full(Msg(w, Wait))])
  {
    hide K.Inv;
    K.StepKeeps(k, WaitStep(w, false));
  }

  /** Steps of an attached worker that do not end its switch. */
  lemma StayKeeps(s: System, step: Action)
    requires Inv(s) && Enabled(s, step) && (step.Pause? || step.Continue?)
    ensures Inv(Next(s, step))
  {
    hide Inv, K.Inv, Loops, Shape, Apply;
    AttachedFacts(s, step.w);
    InvParts(s);
    KernelStay(s.kernel, step.w);
    var r := Next(s, step);
    LoopsSame(s, step.w, r);
    WorkerInv(s, step.w, r);
  }

  lemma SleepKeeps(s: System, w: Tid)
    requires Inv(s) && Enabled(s, Sleep(w))
    ensures Inv(Next(s, Sleep(w)))
  {
    hide Inv, K.Inv, Loops, Shape, Apply;
    AttachedFacts(s, w);
    InvParts(s);
    KernelSleep(s.kernel, w);
    var r := Next(s, Sleep(w));
    LoopsSame(s, w, r);
    WorkerInv(s, w, r);
  }

  lemma AwakeKeeps(s: System, w: Tid)
    requires Inv(s) && Enabled(s, Awake(w))
    ensures Inv(Next(s, Awake(w)))
  {
    hide Inv, K.Inv, Loops, Shape, Apply;
    ParkedFacts(s, w);
    InvParts(s);
    KernelAwake(s.kernel, w);
    var r := Next(s, Awake(w));
    LoopsSame(s, w, r);
    if Shape(r) {
      assert ViewOf(r, w) == ViewOf(s, w).(status := Idle);
    }
    WorkerInv(s, w, r);
  }

  lemma RestLoops(s: System, w: Tid, r: System)
    requires Loops(s) && r == s.(kernel := r.kernel, afterTask := s.afterTask - {w})
    requires w !in s.flow.executing && (w in s.afterTask || F.Inbox(s.flow, w) == [])
    requires w in r.kernel.workers && r.kernel.workers == s.kernel.workers[w := r.kernel.workers[w]]
    ensures Loops(r)
  {
    assert forall x :: x != w && r.kernel.Is(x, Waiting) ==> s.kernel.Is(x, Waiting);
  }

  lemma RestKeeps(s: System, w: Tid)
    requires Inv(s) && Enabled(s, Rest(w))
    ensures Inv(Next(s, Rest(w)))
  {
    hide Inv, K.Inv, Loops, Shape, Apply;
    AttachedFacts(s, w);
    InvParts(s);
    KernelRest(s.kernel, w);
    var r := Next(s, Rest(w));
    RestLoops(s, w, r);
    WorkerInv(s, w, r);
  }

  // ---------------------------------------------------------------- the tasks

  lemma FlowInv(s: System, r: System)
    requires Inv(s) && r == s.(flow := r.flow, afterTask := r.afterTask) && Loops(r)
    ensures Inv(r)
  {
    hide K.Inv, Queues, Loops, Positions, Messages;
    ShapeSame(s, r);
    PositionsSame(s, r);
    MessagesSame(s, r);
    assert Views(s);
    forall w | w in s.owner ensures ViewOk(w, ViewOf(r, w)) {
      assert ViewOf(r, w) == ViewOf(s, w);
      hide ViewOf, Shape;
    }
  }

  lemma BeginLoops(s: System, w: Tid)
    requires Loops(s) && Enabled(s, Begin(w))
    ensures Loops(s.(flow := F.Begin(s.flow, w)))
  {
    F.BeginKeeps(s.flow, w);
    hide F.Inv;
    var f := F.Begin(s.flow, w);
    assert forall x :: x != w ==> F.Inbox(f, x) == F.Inbox(s.flow, x);
  }

  lemma EndLoops(s: System, w: Tid)
    requires Loops(s) && Enabled(s, End(w))
    ensures Loops(s.(flow := F.End(s.flow, w), afterTask := s.afterTask + {w}))
  {
    F.EndKeeps(s.flow, w);
    hide F.Inv;
    assert forall x :: F.Inbox(F.End(s.flow, w), x) == F.Inbox(s.flow, x);
  }

  lemma SubmitLoops(s: System, x: TaskId)
    requires Loops(s) && Enabled(s, Submit(x))
    ensures Loops(s.(flow := F.Submit(s.flow, x)))
  {
    F.SubmitKeeps(s.flow, x);
    hide F.Inv;
    assert forall w :: F.Inbox(F.Submit(s.flow, x), w) == F.Inbox(s.flow, w);
  }

  lemma FlowKeeps(s: System, step: Action)
    requires Inv(s) && Enabled(s, step) && (step.Begin? || step.End? || step.Submit?)
    ensures Inv(Next(s, step))
  {
    hide Inv, K.Inv, Loops, Shape;
    InvParts(s);
    match step {
      case Begin(w) => BeginLoops(s, w);
      case End(w) => EndLoops(s, w);
      case Submit(x) => SubmitLoops(s, x);
    }
    FlowInv(s, Next(s, step));
  }

  // --------------------------------------------------------------- the router

  predicate Taken(k: State, r: State, w: Tid) { w in k.idle && w !in r.idle }

  ghost predicate Gathered(k: State, r: State, ms: seq<Msg>)
  {
    && r.slots == k.slots && r.workers.Keys == k.workers.Keys
    && (forall w :: w in r.idle ==> w in k.idle)
    && (forall w :: w in k.workers ==>
          r.workers[w] == if Taken(k, r, w) then k.workers[w].(status := Runnable) else k.workers[w])
    && (forall w :: Count(ms, w) == if Taken(k, r, w) then 1 else 0)
    && (forall m :: m in ms ==> m.event.Wake? && m.worker in k.workers)
  }

  predicate AllWoken(k: State)
  {
    NoDup(k.idle) && forall w :: w in k.idle ==> w in k.workers && k.workers[w].event.Wake?
  }

  /** If only woken workers are on the list, collection turns each one it takes
      RUNNABLE and reports exactly one WAKE for it. */
  lemma {:induction false} CollectWakes(k: State, size: int)
    requires AllWoken(k)
    ensures Gathered(k, Collect(k, size).0, Collect(k, size).1)
    decreases |k.idle|
  {
    hide AllWoken, Collect, TakeOne;
    if size > 1 && k.idle != [] {
      hide Gathered;
      WokenTurn(k, size);
      CollectWakes(TakeOne(k), size - 1);
      var (r, ms) := Collect(TakeOne(k), size - 1);
      GatheredOn(k, k.idle[0], TakeOne(k), r, ms);
    } else {
      NothingCollected(k, size);
    }
  }

  lemma NothingCollected(k: State, size: int)
    requires size <= 1 || k.idle == []
    ensures Collect(k, size) == (k, [])
  {
  }

  /** One turn of the loop over a list of woken workers. */
  lemma WokenTurn(k: State, size: int)
    requires AllWoken(k) && size > 1 && k.idle != []
    ensures var t := k.idle[0]; var k1 := TakeOne(k);
            && t in k.idle && t in k.workers && AllWoken(k1)
            && k1.workers == k.workers[t := k.workers[t].(status := Runnable)] && k1.slots == k.slots
            && (forall w :: w in k1.idle <==> w in k.idle && w != t)
            && var (r, ms) := Collect(k1, size - 1); Collect(k, size) == (r, [Msg(t, Wake)] + ms)
  {
    var t := k.idle[0];
    assert t in k.idle;
    assert forall w :: w in k.idle[1..] <==> w in k.idle && w != t;
    assert Owed(k.workers[t]) == [Wake];
    assert Reports(t, [Wake]) == [Msg(t, Wake)];
  }

  lemma GatheredOn(k: State, t: Tid, k1: State, r: State, ms: seq<Msg>)
    requires Gathered(k1, r, ms) && t in k.idle && t in k.workers
    requires k1.workers == k.workers[t := k.workers[t].(status := Runnable)] && k1.slots == k.slots
    requires forall w :: w in k1.idle <==> w in k.idle && w != t
    ensures Gathered(k, r, [Msg(t, Wake)] + ms)
  {
    var all := [Msg(t, Wake)] + ms;
    assert all[1..] == ms;
    assert forall w :: Count(all, w) == (if t == w then 1 else 0) + Count(ms, w);
    assert forall w :: Taken(k, r, w) <==> w == t || Taken(k1, r, w);
  }

  lemma IdleIsWoken(s: System)
    requires Inv(s)
    ensures AllWoken(s.kernel)
    ensures forall w :: w in s.kernel.idle ==> s.kernel.Is(w, Idle) && w in s.owner
  {
    hide Queues, Loops, Positions, K.SlotsOk, K.WorkersOk, K.HistoryOk;
    forall w | w in s.kernel.idle
      ensures s.kernel.Is(w, Idle) && w in s.owner && s.kernel.workers[w].event.Wake?
    {
      assert K.OnList(s.kernel.workers, w);
      assert w in s.owner && ViewOk(w, ViewOf(s, w));
      assert Plain(s.kernel.workers[w]);
    }
  }

  lemma GatherView(s: System, r: System, w: Tid)
    requires Shape(s) && Shape(r) && s.routed == [] && w in s.owner && ViewOk(w, ViewOf(s, w))
    requires r == s.(kernel := r.kernel, routed := r.routed) && Gathered(s.kernel, r.kernel, r.routed)
    requires w in s.kernel.idle ==> s.kernel.Is(w, Idle)
    ensures ViewOk(w, ViewOf(r, w))
  {
    hide Gathered, ViewOf, ViewOk, Shape, Count;
    GatheredView(s, r, w);
    StatusOf(s, w);
    TakenIsOk(w, ViewOf(s, w), ViewOf(r, w));
  }

  lemma StatusOf(s: System, w: Tid)
    requires Shape(s) && w in s.owner
    ensures w in s.kernel.workers && ViewOf(s, w).status == s.kernel.workers[w].status
  {
    hide SwitchOf, InTransit;
  }

  lemma TakenIsOk(w: Tid, x: View, y: View)
    requires ViewOk(w, x)
    requires y == x || (x.status.Idle? && y == x.(status := Runnable, transit := x.transit + 1))
    ensures ViewOk(w, y)
  {
  }

  lemma GatheredView(s: System, r: System, w: Tid)
    requires Shape(s) && Shape(r) && s.routed == [] && w in s.owner
    requires r == s.(kernel := r.kernel, routed := r.routed) && Gathered(s.kernel, r.kernel, r.routed)
    ensures var taken := Taken(s.kernel, r.kernel, w);
            && Count(s.routed, w) == 0 && Count(r.routed, w) == (if taken then 1 else 0)
            && ViewOf(r, w) == if taken then ViewOf(s, w).(status := Runnable, transit := ViewOf(s, w).transit + 1)
                               else ViewOf(s, w)
  {
    hide Gathered, Taken;
    GatheredFor(s.kernel, r.kernel, r.routed, w);
    assert InTransit(r, w) == InTransit(s, w) + Count(r.routed, w);
    assert SwitchOf(r, w) == SwitchOf(s, w);
    hide SwitchOf, InTransit;
    StatusOf(s, w);
    StatusOf(r, w);
  }

  lemma GatheredFor(k: State, r: State, ms: seq<Msg>, w: Tid)
    requires Gathered(k, r, ms) && w in k.workers
    ensures r.slots == k.slots && Count(ms, w) == if Taken(k, r, w) then 1 else 0
    ensures w in r.workers && r.workers[w].status == if Taken(k, r, w) then Runnable else k.workers[w].status
  {
    hide Count, Taken;
  }

  lemma GatherViews(s: System, r: System)
    requires Shape(s) && Views(s) && Shape(r) && s.routed == []
    requires r == s.(kernel := r.kernel, routed := r.routed) && Gathered(s.kernel, r.kernel, r.routed)
    requires forall w :: w in s.kernel.idle ==> s.kernel.Is(w, Idle)
    ensures Views(r)
  {
    hide Shape, Gathered, ViewOf, ViewOk;
    forall w | w in s.owner ensures ViewOk(w, ViewOf(r, w)) {
      GatherView(s, r, w);
    }
  }

  lemma SameWaiting(s: System, r: System)
    requires Loops(s) && r.flow == s.flow && r.afterTask == s.afterTask
    requires forall w :: r.kernel.Is(w, Waiting) ==> s.kernel.Is(w, Waiting)
    ensures Loops(r)
  {
    hide F.Inv;
  }

  lemma GatherMessages(s: System, r: System)
    requires Messages(s) && s.owner.Keys == s.kernel.workers.Keys
    requires r == s.(kernel := r.kernel, routed := r.routed) && Gathered(s.kernel, r.kernel, r.routed)
    ensures Messages(r)
  {
    assert forall v :: Channel(r, v) == Channel(s, v);
    forall w | w in r.kernel.workers ensures Plain(r.kernel.workers[w]) {
      assert Plain(s.kernel.workers[w]);
    }
    hide Plain, Channel;
  }

  lemma GatherRest(s: System, r: System)
    requires Shape(s) && Positions(s) && Messages(s) && Loops(s)
    requires r == s.(kernel := r.kernel, routed := r.routed) && Gathered(s.kernel, r.kernel, r.routed)
    ensures Shape(r) && Positions(r) && Messages(r) && Loops(r)
  {
    hide Positions, Messages, Loops;
    GatherMessages(s, r);
    hide Shape;
    ShapeSame(s, r);
    PositionsSame(s, r);
    assert forall w :: r.kernel.Is(w, Waiting) ==> s.kernel.Is(w, Waiting);
    SameWaiting(s, r);
  }

  lemma GatherKeeps(s: System)
    requires Inv(s) && Enabled(s, Gather)
    ensures Inv(Next(s, Gather))
  {
    hide K.Inv, Shape, Views, Positions, Messages, Queues, Loops;
    IdleIsWoken(s);
    CollectWakes(s.kernel, ROUTER_EVENTS);
    K.CollectKeeps(s.kernel, ROUTER_EVENTS);
    var r := Next(s, Gather);
    GatherRest(s, r);
    GatherViews(s, r);
  }

  lemma ForwardFacts(s: System)
    requires Inv(s) && s.routed != []
    ensures s.routed[0].worker in s.owner && s.routed[0].event.Wake?
  {
    hide K.Inv, Shape, Views, Positions, Queues, Loops;
    assert s.routed[0] in s.routed;
  }

  ghost predicate Forwarded(s: System, r: System)
  {
    && s.routed != [] && s.routed[0].worker in s.owner
    && var v := s.owner[s.routed[0].worker];
       r == s.(routed := s.routed[1..], channels := s.channels[v := Channel(s, v) + [s.routed[0]]])
  }

  lemma ForwardView(s: System, r: System, x: Tid)
    requires Forwarded(s, r) && Shape(s) && Shape(r) && x in s.owner
    ensures ViewOf(r, x) == ViewOf(s, x)
  {
    var m := s.routed[0];
    CountSnoc(Channel(s, s.owner[m.worker]), m, x);
    assert InTransit(r, x) == InTransit(s, x);
    assert SwitchOf(r, x) == SwitchOf(s, x);
  }

  lemma ForwardMessages(s: System, r: System)
    requires Forwarded(s, r) && Messages(s)
    ensures Messages(r)
  {
    var m := s.routed[0];
    assert m in s.routed;
    assert forall x :: x in r.routed ==> x in s.routed;
    assert forall u, x :: x in Channel(r, u) ==> x in Channel(s, u) || (x == m && u == s.owner[m.worker]);
  }

  lemma ForwardKeeps(s: System)
    requires Inv(s) && Enabled(s, Forward)
    ensures Inv(Next(s, Forward))
  {
    hide K.Inv, Queues, Views, ViewOk, ViewOf, Shape, Positions, Messages, Loops;
    ForwardFacts(s);
    var r := Next(s, Forward);
    assert Forwarded(s, r);
    hide Next, Enabled;
    ShapeSame(s, r);
    PositionsSame(s, r);
    SameWaiting(s, r);
    ForwardMessages(s, r);
    forall x | x in s.owner ensures ViewOf(r, x) == ViewOf(s, x) {
      ForwardView(s, r, x);
    }
    SameViews(s, r);
  }

  lemma SameViews(s: System, r: System)
    requires Shape(s) && Shape(r) && Views(s) && r.owner == s.owner
    requires forall x :: x in s.owner ==> ViewOf(r, x) == ViewOf(s, x)
    ensures Views(r)
  {
    hide ViewOf, ViewOk, Shape;
  }

  // -------------------------------------------------------------- the servers

  /** The server of worker `w` enters or leaves a switch to `w` and changes its
      state for `w`; the kernel's record changes for `w` only. */
  ghost predicate ServerMoved(s: System, w: Tid, r: System)
  {
    && w in s.owner && s.owner[w] in s.servers && s.owner[w] in s.pos && w in s.kernel.workers
    && var v := s.owner[w];
       && r.owner == s.owner && v in r.servers && r.servers == s.servers[v := r.servers[v]]
       && w in s.servers[v].states && w in r.servers[v].states
       && r.servers[v].states == s.servers[v].states[w := r.servers[v].states[w]]
       && v in r.pos && r.pos == s.pos[v := r.pos[v]]
       && (s.pos[v] == Top || s.pos[v] == Switched(w)) && (r.pos[v] == Top || r.pos[v] == Switched(w))
       && w in r.kernel.workers && r.kernel.workers == s.kernel.workers[w := r.kernel.workers[w]]
       && SameElsewhere(s.kernel.slots, r.kernel.slots, v)
       && (v in r.kernel.slots <==> r.pos[v] == Switched(w))
       && Plain(r.kernel.workers[w])
       && r.odd == s.odd
  }

  lemma MovedShape(s: System, w: Tid, r: System)
    requires Shape(s) && ServerMoved(s, w, r)
    ensures Shape(r)
  {
    hide Shape;
    MovedKeys(s, w, r);
    hide ServerMoved;
    KeysShape(s, r);
  }

  lemma MovedKeys(s: System, w: Tid, r: System)
    requires ServerMoved(s, w, r)
    ensures r.owner == s.owner && r.servers.Keys == s.servers.Keys && r.pos.Keys == s.pos.Keys
    ensures r.kernel.workers.Keys == s.kernel.workers.Keys
    ensures forall u :: u in s.servers ==> r.servers[u].states.Keys == s.servers[u].states.Keys
  {
    hide SameElsewhere, Plain;
  }

  lemma KeysShape(s: System, r: System)
    requires Shape(s) && r.owner == s.owner && r.servers.Keys == s.servers.Keys && r.pos.Keys == s.pos.Keys
    requires r.kernel.workers.Keys == s.kernel.workers.Keys
    requires forall u :: u in s.servers ==> r.servers[u].states.Keys == s.servers[u].states.Keys
    ensures Shape(r)
  {
  }

  lemma MovedPositions(s: System, w: Tid, r: System)
    requires Positions(s) && ServerMoved(s, w, r)
    ensures Positions(r)
  {
    var v := s.owner[w];
    forall u ensures u in r.kernel.slots <==> u in r.pos && r.pos[u].Switched? {
      if u != v { assert u in s.kernel.slots <==> u in r.kernel.slots; }
    }
    hide SameElsewhere;
  }

  lemma MovedOther(s: System, w: Tid, r: System, x: Tid)
    requires Shape(s) && Shape(r) && ServerMoved(s, w, r) && x in s.owner && x != w
    requires InTransit(r, x) == InTransit(s, x)
    ensures ViewOf(r, x) == ViewOf(s, x)
  {
    hide InTransit;
    assert SameElsewhere(s.pos, r.pos, s.owner[w]);
    OtherSwitch(s, w, r, x);
    hide SameElsewhere, SwitchOf;
    assert r.kernel.workers[x] == s.kernel.workers[x];
    var u := s.owner[x];
    assert u in s.servers && x in s.servers[u].states;
    assert r.servers[u].states[x] == s.servers[u].states[x];
  }

  lemma MovedViews(s: System, w: Tid, r: System)
    requires Shape(s) && Shape(r) && Views(s) && ServerMoved(s, w, r)
    requires forall x :: x in s.owner && x != w ==> InTransit(r, x) == InTransit(s, x)
    requires ViewOk(w, ViewOf(r, w))
    ensures Views(r)
  {
    hide ViewOk, InTransit, SwitchOf, Views, Shape, ViewOf;
    forall x | x in s.owner && x != w ensures ViewOf(r, x) == ViewOf(s, x) {
      MovedOther(s, w, r, x);
    }
    ViewsFromOthers(s, w, r);
  }

  lemma ServerInv(s: System, w: Tid, r: System)
    requires Inv(s) && ServerMoved(s, w, r) && K.Inv(r.kernel) && QueuesOk(r.servers[s.owner[w]])
    requires Messages(r) && Loops(r)
    requires forall x :: x in s.owner && x != w ==> InTransit(r, x) == InTransit(s, x)
    requires Shape(r) ==> ViewOk(w, ViewOf(r, w))
    ensures Inv(r)
  {
    hide K.Inv, QueuesOk, Shape, Views, ViewOk, ViewOf, Positions, Messages, Loops;
    MovedShape(s, w, r);
    MovedPositions(s, w, r);
    MovedViews(s, w, r);
    assert Queues(r.servers);
  }

  // Entering a switch.

  lemma KernelSwitch(k: State, v: Sid, w: Tid)
    requires K.Inv(k) && v !in k.slots && (k.Is(w, Runnable) || k.Is(w, Waiting))
    ensures KernelDid(k, SwitchFromServer(v, w, SWITCH_EVENTS), w,
                      k.workers[w].(status := Running, server := v, timer := false), k.slots[v := Empty(w)])
  {
    hide K.Inv;
    K.StepKeeps(k, SwitchFromServer(v, w, SWITCH_EVENTS));
  }

  /** `t` is `s` with the bookkeeping of a switch to `w` done: the worker is taken
      to be Running, no WAKE for it is under way, and nobody else notices. */
  ghost predicate Ready(s: System, v: Sid, w: Tid, t: System)
  {
    && v in s.pos && s.pos[v] == Top && w in s.owner && s.owner[w] == v
    && (s.kernel.Is(w, Runnable) || s.kernel.Is(w, Waiting))
    && t == s.(servers := t.servers, flow := t.flow, channels := t.channels)
    && v in s.servers && v in t.servers && t.servers == s.servers[v := t.servers[v]] && QueuesOk(t.servers[v])
    && w in s.servers[v].states && t.servers[v].states == s.servers[v].states[w := SRunning]
    && Messages(t) && Loops(Started(t, w))
    && (forall x :: x in s.owner && x != w ==> InTransit(t, x) == InTransit(s, x))
    && InTransit(t, w) == 0
  }

  function Started(t: System, w: Tid): System
    requires w in t.kernel.workers
  {
    t.(kernel := t.kernel.Put(w, t.kernel.workers[w].(status := Running)))
  }

  lemma EnteredInv(s: System, v: Sid, w: Tid, t: System, r: System)
    requires Inv(s) && Ready(s, v, w, t) && v !in s.kernel.slots && Plain(s.kernel.workers[w])
    requires r == t.(pos := t.pos[v := Switched(w)], kernel := r.kernel) && K.Inv(r.kernel)
    requires r.kernel.workers == s.kernel.workers[w := s.kernel.workers[w].(status := Running, server := v,
             timer := false)]
    requires r.kernel.slots == s.kernel.slots[v := Empty(w)]
    ensures Inv(r)
  {
    hide K.Inv, QueuesOk, Loops, Messages, Inv, ViewOk, Shape, Views, Positions, SwitchOf, InTransit;
    assert ServerMoved(s, w, r);
    assert forall x :: x in s.owner ==> InTransit(r, x) == InTransit(t, x) by { TransitSame(t, r); }
    MessagesSame(t, r);
    SameWaiting(Started(t, w), r);
    EnteredOk(r, v, w);
    ServerInv(s, w, r);
  }

  lemma TransitSame(s: System, r: System)
    requires r.owner == s.owner && r.routed == s.routed && r.channels == s.channels
    ensures forall x :: x in s.owner ==> InTransit(r, x) == InTransit(s, x)
  {
    assert forall u :: Channel(r, u) == Channel(s, u);
  }

  /** A server starts a switch to a worker it has found Waiting, or taken a WAKE
      for: the switch succeeds, and the worker runs. */
  lemma EnterInv(s: System, v: Sid, w: Tid, t: System)
    requires Inv(s) && Ready(s, v, w, t)
    ensures Inv(SwitchTo(t, v, w))
  {
    hide K.Inv, Inv, QueuesOk, Loops, Messages, InTransit, Apply;
    EnterFacts(s, v, w);
    KernelSwitch(s.kernel, v, w);
    EnteredInv(s, v, w, t, SwitchTo(t, v, w));
  }

  lemma EnterFacts(s: System, v: Sid, w: Tid)
    requires Inv(s) && v in s.pos && s.pos[v] == Top && w in s.kernel.workers
    ensures v !in s.kernel.slots && K.Inv(s.kernel) && Plain(s.kernel.workers[w])
  {
    hide K.Inv, QueuesOk, Loops, Shape, Views;
  }

  lemma EnteredOk(r: System, v: Sid, w: Tid)
    requires w in r.owner && r.owner[w] == v && InTransit(r, w) == 0
    requires v in r.pos && r.pos[v] == Switched(w) && v in r.kernel.slots && r.kernel.slots[v] == Empty(w)
    requires v in r.servers && w in r.servers[v].states && r.servers[v].states[w] == SRunning
    requires r.kernel.Is(w, Running)
    ensures Shape(r) ==> ViewOk(w, ViewOf(r, w))
  {
    hide Shape;
  }

  // try_schedule_tasks

  lemma ScheduleFacts(s: System, v: Sid, w: Tid)
    requires Inv(s) && v in s.servers && w in s.servers[v].states && s.servers[v].states[w] == SWaiting
    ensures w in s.owner && s.owner[w] == v && s.kernel.Is(w, Waiting) && InTransit(s, w) == 0
    ensures Free(s.flow, s.afterTask, w) && Loops(s) && Messages(s)
  {
    hide K.Inv, Queues, Positions, F.Inv;
    assert ViewOk(w, ViewOf(s, w));
  }

  lemma AssignLoops(s: System, t: System, w: Tid)
    requires Loops(s) && w in s.kernel.workers && Free(s.flow, s.afterTask, w) && s.flow.queue != []
    requires t == s.(servers := t.servers, flow := F.Assign(s.flow, w))
    ensures Loops(Started(t, w))
  {
    F.AssignKeeps(s.flow, w);
    hide F.Inv;
    var r := Started(t, w);
    assert forall x :: x != w ==> F.Inbox(r.flow, x) == F.Inbox(s.flow, x);
    assert forall x :: r.kernel.Is(x, Waiting) ==> x != w && s.kernel.Is(x, Waiting);
  }

  lemma RunReady(s: System, v: Sid, c: Choice)
    requires Inv(s) && v in s.servers && v in s.pos && s.pos[v] == Top && s.flow.queue != []
    requires c == Choose(s.servers[v], s.flow.queue) && c.Run?
    ensures Ready(s, v, c.worker, s.(servers := s.servers[v := c.server], flow := F.Assign(s.flow, c.worker)))
  {
    hide Inv, QueuesOk, Choose;
    ServerFacts(s, v);
    ChooseKeepsQueues(s.servers[v], s.flow.queue);
    ScheduleFacts(s, v, c.worker);
    var t := s.(servers := s.servers[v := c.server], flow := F.Assign(s.flow, c.worker));
    AssignLoops(s, t, c.worker);
    MessagesSame(s, t);
    TransitSame(s, t);
    hide Loops, Messages, InTransit;
  }

  /** A turn that only rotates `pending`. */
  ghost predicate Rotated(s: System, v: Sid, r: System)
  {
    && v in s.servers && v in r.servers && r == s.(servers := s.servers[v := r.servers[v]])
    && r.servers[v].states == s.servers[v].states
  }

  lemma RotateShape(s: System, v: Sid, r: System)
    requires Rotated(s, v, r) && Shape(s)
    ensures Shape(r)
  {
    assert r.servers.Keys == s.servers.Keys;
    assert forall u :: u in s.servers ==> r.servers[u].states == s.servers[u].states;
  }

  lemma RotateView(s: System, v: Sid, r: System, x: Tid)
    requires Rotated(s, v, r) && Shape(s) && Shape(r) && x in s.owner
    ensures ViewOf(r, x) == ViewOf(s, x)
  {
    TransitSame(s, r);
    hide InTransit;
    var u := s.owner[x];
    assert u in s.servers && r.servers[u].states == s.servers[u].states;
  }

  lemma RotateInv(s: System, v: Sid, r: System)
    requires Inv(s) && Rotated(s, v, r) && QueuesOk(r.servers[v])
    ensures Inv(r)
  {
    hide K.Inv, QueuesOk, Loops, Messages, Positions, Shape, Views, ViewOk, ViewOf;
    assert Queues(r.servers);
    hide Queues;
    RotateShape(s, v, r);
    PositionsSame(s, r);
    MessagesSame(s, r);
    SameWaiting(s, r);
    forall x | x in s.owner ensures ViewOf(r, x) == ViewOf(s, x) {
      RotateView(s, v, r, x);
    }
    SameViews(s, r);
  }

  lemma ServerFacts(s: System, v: Sid)
    requires Inv(s) && v in s.servers
    ensures QueuesOk(s.servers[v]) && s.odd == {}
  {
    hide K.Inv, Shape, Views, Positions, Messages, Loops, QueuesOk;
  }

  lemma ScheduleKeeps(s: System, v: Sid)
    requires Inv(s) && Enabled(s, Schedule(v))
    ensures Inv(Next(s, Schedule(v)))
  {
    hide Inv, QueuesOk, Choose, Ready, SwitchTo;
    ServerFacts(s, v);
    ChooseKeepsQueues(s.servers[v], s.flow.queue);
    var c := Choose(s.servers[v], s.flow.queue);
    match c {
      case NoWorker =>
      case NoTask(server, odd) =>
        assert s.odd + odd == s.odd;
        RotateInv(s, v, Next(s, Schedule(v)));
      case Run(server, w, _) =>
        RunReady(s, v, c);
        EnterInv(s, v, w, s.(servers := s.servers[v := server], flow := F.Assign(s.flow, w)));
    }
  }

  // run_event_loop

  lemma ReceiveFacts(s: System, v: Sid)
    requires Inv(s) && Enabled(s, Receive(v))
    ensures var m := Channel(s, v)[0];
            && m.event.Wake? && m.worker in s.owner && s.owner[m.worker] == v
            && m.worker in s.servers[v].states && s.servers[v].states[m.worker] == SBlocked
            && s.kernel.Is(m.worker, Runnable) && InTransit(s, m.worker) == 1
    ensures QueuesOk(s.servers[v]) && s.odd == {} && Loops(s) && Messages(s)
  {
    hide K.Inv, Loops, Positions, QueuesOk;
    var m := Channel(s, v)[0];
    assert m in Channel(s, v);
    hide Messages;
    assert ViewOk(m.worker, ViewOf(s, m.worker));
    assert SwitchOf(s, m.worker) == NoSwitch;
  }

  lemma PopTransit(s: System, v: Sid, t: System)
    requires t.owner == s.owner && t.routed == s.routed && Channel(s, v) != []
    requires t.channels == s.channels[v := Channel(s, v)[1..]]
    ensures forall x :: x in s.owner ==>
              InTransit(t, x) == InTransit(s, x) - if s.owner[x] == v && x == Channel(s, v)[0].worker then 1 else 0
  {
    assert forall u :: u != v ==> Channel(t, u) == Channel(s, u);
  }

  lemma PopMessages(s: System, v: Sid, t: System)
    requires Messages(s) && Channel(s, v) != [] && t.owner == s.owner && t.routed == s.routed && t.kernel == s.kernel
    requires t.channels == s.channels[v := Channel(s, v)[1..]]
    ensures Messages(t)
  {
    assert forall u, m :: m in Channel(t, u) ==> m in Channel(s, u);
  }

  lemma WakeReady(s: System, v: Sid, t: System)
    requires Inv(s) && Enabled(s, Receive(v))
    requires var w := Channel(s, v)[0].worker;
             t == s.(channels := s.channels[v := Channel(s, v)[1..]],
                     servers := s.servers[v := OnWake(s.servers[v], w).server])
    ensures Ready(s, v, Channel(s, v)[0].worker, t)
  {
    hide Inv;
    ReceiveFacts(s, v);
    var w := Channel(s, v)[0].worker;
    BlockAndWakeKeepQueues(s.servers[v], w);
    PopTransit(s, v, t);
    PopMessages(s, v, t);
    hide QueuesOk, Messages, InTransit;
    assert Loops(Started(t, w)) by {
      assert forall x :: Started(t, w).kernel.Is(x, Waiting) ==> s.kernel.Is(x, Waiting);
      SameWaiting(s, Started(t, w));
    }
  }

  lemma ReceiveKeeps(s: System, v: Sid)
    requires Inv(s) && Enabled(s, Receive(v))
    ensures Inv(Next(s, Receive(v)))
  {
    hide Inv, QueuesOk, Loops, Messages, InTransit, Ready;
    ReceiveFacts(s, v);
    var m := Channel(s, v)[0];
    var t := s.(channels := s.channels[v := Channel(s, v)[1..]],
                servers := s.servers[v := OnWake(s.servers[v], m.worker).server]);
    WakeReady(s, v, t);
    EnterInv(s, v, m.worker, t);
    hide SwitchTo;
    assert Next(s, Receive(v)) == SwitchTo(t, v, m.worker) by { assert s.odd + {} == s.odd; }
  }

  // A switch returns.

  lemma KernelReturn(k: State, v: Sid)
    requires K.Inv(k) && v in k.slots && k.slots[v].Full?
    ensures Apply(k, SwitchReturn(v, SWITCH_EVENTS)) == Live(k.(slots := k.slots - {v}))
    ensures K.Inv(k.(slots := k.slots - {v}))
  {
    K.FreeSlotKeeps(k, v);
    assert Collect(k.(slots := k.slots - {v}), 1) == (k.(slots := k.slots - {v}), []);
  }

  /** The event of a returning switch is BLOCK or WAIT, for the worker the server
      had switched to. */
  lemma ReturnFacts(s: System, v: Sid)
    requires Inv(s) && Enabled(s, Return(v))
    ensures var m := s.kernel.slots[v].msg; var w := s.pos[v].worker;
            && m.worker == w && w in s.owner && s.owner[w] == v && s.pos[v] == Switched(w)
            && w in s.kernel.workers && w in s.servers[v].states && s.servers[v].states[w] == SRunning
            && ((m.event.Wait? && s.kernel.Is(w, Waiting) && InTransit(s, w) == 0)
                || (m.event.Block? && Away(s.kernel.workers[w].status, InTransit(s, w))))
            && Plain(s.kernel.workers[w])
    ensures QueuesOk(s.servers[v]) && K.Inv(s.kernel) && s.odd == {} && Loops(s) && Messages(s)
  {
    hide K.Inv, Loops, QueuesOk;
    var w := s.pos[v].worker;
    assert w in s.owner && s.owner[w] == v;
    hide Positions;
    assert ViewOk(w, ViewOf(s, w));
    assert SwitchOf(s, w) == Pending(s.kernel.slots[v]);
  }

  lemma ReturnedInv(s: System, v: Sid, w: Tid, r: System)
    requires Inv(s) && ServerMoved(s, w, r) && s.owner[w] == v && K.Inv(r.kernel) && QueuesOk(r.servers[v])
    requires r == s.(kernel := r.kernel, pos := s.pos[v := Top], servers := r.servers)
    requires r.kernel.workers == s.kernel.workers && r.kernel.slots == s.kernel.slots - {v}
    requires r.servers[v].states[w] == SBlocked ==> Away(s.kernel.workers[w].status, InTransit(s, w))
    requires r.servers[v].states[w] == SWaiting ==> s.kernel.Is(w, Waiting) && InTransit(s, w) == 0
    requires r.servers[v].states[w] == SBlocked || r.servers[v].states[w] == SWaiting
    requires Loops(s) && Messages(s)
    ensures Inv(r)
  {
    hide K.Inv, Inv, QueuesOk, Loops, Messages;
    TransitSame(s, r);
    MessagesSame(s, r);
    assert forall x :: r.kernel.Is(x, Waiting) ==> s.kernel.Is(x, Waiting);
    SameWaiting(s, r);
    hide InTransit, Shape;
    assert SwitchOf(r, w) == NoSwitch;
    ServerInv(s, w, r);
  }

  lemma ReturnShape(s: System, v: Sid)
    requires Enabled(s, Return(v)) && s.odd == {}
    requires Apply(s.kernel, SwitchReturn(v, SWITCH_EVENTS)) == Live(s.kernel.(slots := s.kernel.slots - {v}))
    requires var h := Handle(s.servers[v], s.kernel.slots[v].msg); h.switchTo == None && h.odd == {}
    ensures Next(s, Return(v)) == s.(kernel := s.kernel.(slots := s.kernel.slots - {v}), pos := s.pos[v := Top],
                                     servers := s.servers[v := Handle(s.servers[v], s.kernel.slots[v].msg).server])
  {
    hide Apply, Handle;
    assert s.odd + {} == s.odd;
  }

  lemma ReturnKeeps(s: System, v: Sid)
    requires Inv(s) && Enabled(s, Return(v))
    ensures Inv(Next(s, Return(v)))
  {
    hide Inv, K.Inv, Loops, Messages, InTransit, Apply, QueuesOk, Next, ServerMoved, Handle;
    ReturnFacts(s, v);
    KernelReturn(s.kernel, v);
    ReturnMoves(s, v);
    ReturnedInv(s, v, s.pos[v].worker, Next(s, Return(v)));
  }

  /** The server takes the worker to be Waiting or Blocked, as the event says. */
  lemma HandleReturn(server: Server, m: Msg)
    requires QueuesOk(server) && m.worker in server.states && server.states[m.worker] == SRunning
    requires m.event.Wait? || m.event.Block?
    ensures var h := Handle(server, m);
            && h.switchTo == None && h.odd == {} && QueuesOk(h.server)
            && h.server.states == server.states[m.worker := if m.event.Wait? then SWaiting else SBlocked]
  {
    BlockAndWakeKeepQueues(server, m.worker);
    WaitKeepsQueues(server, m.worker);
    hide QueuesOk;
  }

  /** A returning switch, in the terms of the invariant. */
  lemma ReturnMoves(s: System, v: Sid)
    requires Inv(s) && Enabled(s, Return(v))
    ensures var w := s.pos[v].worker; var r := Next(s, Return(v));
            && ServerMoved(s, w, r) && QueuesOk(r.servers[v])
            && r == s.(kernel := r.kernel, pos := s.pos[v := Top], servers := r.servers)
            && r.kernel == s.kernel.(slots := s.kernel.slots - {v})
            && r.servers[v].states[w] == if s.kernel.slots[v].msg.event.Wait? then SWaiting else SBlocked
  {
    hide Inv, K.Inv, Loops, Messages, InTransit, Apply, QueuesOk;
    ReturnFacts(s, v);
    KernelReturn(s.kernel, v);
    HandleReturn(s.servers[v], s.kernel.slots[v].msg);
    ReturnShape(s, v);
    hide Next, Handle;
  }

  /** Every step of every party keeps the invariant, so no branch that should not
      happen ever does. */
  lemma StepKeeps(s: System, step: Action)
    requires Inv(s) && Enabled(s, step)
    ensures Inv(Next(s, step))
  {
    hide Inv, Next;
    match step {
      case Schedule(v) => ScheduleKeeps(s, v);
      case Return(v) => ReturnKeeps(s, v);
      case Receive(v) => ReceiveKeeps(s, v);
      case Gather => GatherKeeps(s);
      case Forward => ForwardKeeps(s);
      case Pause(_) => StayKeeps(s, step);
      case Continue(_) => StayKeeps(s, step);
      case Sleep(w) => SleepKeeps(s, w);
      case Awake(w) => AwakeKeeps(s, w);
      case Begin(_) => FlowKeeps(s, step);
      case End(_) => FlowKeeps(s, step);
      case Submit(_) => FlowKeeps(s, step);
      case Rest(w) => RestKeeps(s, w);
    }
  }
}
