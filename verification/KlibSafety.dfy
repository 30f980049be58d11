/** What every run of the klib protocol keeps. */
module KlibSafety {
  import opened Events
  import opened Lists
  import opened KlibProtocol

  type Workers = map<Tid, Worker>
  type History = map<Tid, seq<Act>>

  // ---------------------------------------------------------- event grammar

  /** The life of a worker as user space can follow it. */
  datatype Mode = Gone | Ready | On | Asleep | Parked | Broken

  function Next(m: Mode, a: Act): Mode
  {
    match m
    case Gone => if a == Out(Wake) then Ready else Broken
    case Ready => if a == In then On else Broken
    case Parked => if a == In then On else if a == Out(Timeout) then Ready else Broken
    case Asleep => if a == Out(Wake) then Ready else Broken
    case Broken => Broken
    case On =>
      match a
      case Out(Block) => Asleep
      case Out(Wait) => Parked
      case Out(Preempt) => Ready
      case Out(Exit) => Gone
      case _ => Broken
  }

  function ModeAfter(h: seq<Act>): Mode
  {
    if h == [] then Gone else Next(ModeAfter(h[..|h| - 1]), h[|h| - 1])
  }

  predicate Fits(w: Worker, m: Mode)
  {
    match w.status
    case Running | Paused => m.On?
    case Blocked => m.Asleep?
    case Waiting => m.Parked?
    case Idle => if w.event.Wait? then m.Parked? else m.Ready?
    case IdleTimeout => m.Ready?
    case Runnable => m.Ready? || m.Parked?
  }

  // -------------------------------------------------------------- invariant

  predicate OnList(ws: Workers, t: Tid) { t in ws && (ws[t].status.Idle? || ws[t].status.IdleTimeout?) }

  predicate Attached(ws: Workers, t: Tid) { t in ws && (ws[t].status.Running? || ws[t].status.Paused?) }

  /** A worker is on the idle list, once, exactly while it is IDLE. */
  ghost predicate IdleOk(ws: Workers, idle: seq<Tid>)
  {
    NoDup(idle) && forall t :: t in idle <==> OnList(ws, t)
  }

  /** The workers in RUNNING or PAUSED are one-to-one with the servers whose slot
      is still empty. */
  ghost predicate SlotsOk(ws: Workers, slots: map<Sid, Slot>)
  {
    && (forall t :: Attached(ws, t) ==> ws[t].server in slots && slots[ws[t].server] == Empty(t))
    && (forall v :: v in slots && slots[v].Empty? ==>
          Attached(ws, slots[v].worker) && ws[slots[v].worker].server == v)
    && (forall v :: v in slots && slots[v].Full? ==> Switched(slots[v].msg.event))
  }

  /** The events that end a switch. */
  predicate Switched(e: Event) { e.Block? || e.Wait? || e.Preempt? || e.Exit? }

  predicate WorkerOk(w: Worker)
  {
    && (w.status.Idle? ==> w.event.Wake? || w.event.Wait? || w.event.Timeout?)
    && (w.status.IdleTimeout? ==> w.event.Wait? && w.timedOut)
    && (w.timer ==> !w.timedOut && (w.status.Waiting? || w.status.Runnable? || (w.status.Idle? && w.event.Wait?)))
    && (w.status.Waiting? ==> !w.timedOut)
    && ValidId(w.id)
  }

  ghost predicate WorkersOk(ws: Workers) { forall t :: t in ws ==> WorkerOk(ws[t]) }

  function Logged(h: History, t: Tid): seq<Act> { if t in h then h[t] else [] }

  ghost predicate HistoryOk(ws: Workers, h: History)
  {
    && (forall t {:trigger Logged(h, t)} :: t in ws ==> Fits(ws[t], ModeAfter(Logged(h, t))))
    && (forall t {:trigger Logged(h, t)} :: t !in ws ==> ModeAfter(Logged(h, t)) == Gone)
  }

  ghost predicate Inv(s: State)
  {
    && IdleOk(s.workers, s.idle)
    && SlotsOk(s.workers, s.slots)
    && WorkersOk(s.workers)
    && HistoryOk(s.workers, s.history)
  }

  ghost predicate Good(o: Outcome) { o.Live? && Inv(o.state) }

  // -------------------------------------------------- one relation at a time

  lemma ModeAfterSnoc(h: seq<Act>, a: Act)
    ensures ModeAfter(h + [a]) == Next(ModeAfter(h), a)
  {
    assert (h + [a])[..|h|] == h;
  }

  /** The two maps agree except on `t`. */
  ghost predicate Only(ws: Workers, t: Tid, ws2: Workers)
  {
    forall x :: x != t ==> (x in ws <==> x in ws2) && (x in ws ==> ws[x] == ws2[x])
  }

  /** Worker `t` does `a`, and lands where `ws2` says. */
  lemma HistoryStep(ws: Workers, h: History, t: Tid, a: Act, ws2: Workers)
    requires HistoryOk(ws, h) && Only(ws, t, ws2)
    requires t in ws2 ==> Fits(ws2[t], Next(ModeAfter(Logged(h, t)), a))
    requires t !in ws2 ==> Next(ModeAfter(Logged(h, t)), a) == Gone
    ensures HistoryOk(ws2, h[t := Logged(h, t) + [a]])
  {
    ModeAfterSnoc(Logged(h, t), a);
    hide ModeAfter, Next, Fits;
    var h2 := h[t := Logged(h, t) + [a]];
    assert forall x {:trigger Logged(h2, x)} :: x != t ==> Logged(h2, x) == Logged(h, x);
  }

  /** Worker `t` changes without doing anything that shows. */
  lemma HistorySame(ws: Workers, h: History, t: Tid, ws2: Workers)
    requires HistoryOk(ws, h) && t in ws && t in ws2 && Only(ws, t, ws2)
    requires forall m :: Fits(ws[t], m) ==> Fits(ws2[t], m)
    ensures HistoryOk(ws2, h)
  {
    hide ModeAfter, Fits;
  }

  lemma IdlePush(ws: Workers, idle: seq<Tid>, t: Tid, ws2: Workers)
    requires IdleOk(ws, idle) && !OnList(ws, t) && OnList(ws2, t)
    requires forall x :: x != t ==> (OnList(ws, x) <==> OnList(ws2, x))
    ensures IdleOk(ws2, idle + [t])
  {
    assert forall x :: x in idle + [t] <==> x in idle || x == t;
  }

  lemma IdleSame(ws: Workers, idle: seq<Tid>, ws2: Workers)
    requires IdleOk(ws, idle) && forall x :: OnList(ws, x) <==> OnList(ws2, x)
    ensures IdleOk(ws2, idle)
  {
  }

  lemma IdlePop(ws: Workers, idle: seq<Tid>, ws2: Workers)
    requires IdleOk(ws, idle) && idle != []
    requires forall x :: OnList(ws2, x) <==> OnList(ws, x) && x != idle[0]
    ensures IdleOk(ws2, idle[1..])
  {
    assert idle[0] in idle;
    assert forall x :: x in idle[1..] <==> x in idle && x != idle[0];
  }

  /** Only worker `t` differs, and neither version of it is attached. */
  lemma SlotsSame(ws: Workers, slots: map<Sid, Slot>, t: Tid, ws2: Workers)
    requires SlotsOk(ws, slots)
    requires Only(ws, t, ws2)
    requires Attached(ws, t) <==> Attached(ws2, t)
    requires Attached(ws, t) ==> ws[t].server == ws2[t].server
    ensures SlotsOk(ws2, slots)
  {
    assert forall x :: Attached(ws, x) <==> Attached(ws2, x);
  }

  /** Worker `t` stops running and its server's slot is filled. */
  lemma SlotsFill(ws: Workers, slots: map<Sid, Slot>, t: Tid, e: Event, ws2: Workers)
    requires SlotsOk(ws, slots) && Attached(ws, t) && !Attached(ws2, t) && Switched(e)
    requires Only(ws, t, ws2)
    ensures SlotsOk(ws2, slots[ws[t].server := Full(Msg(t, e))])
  {
    assert forall x :: x != t ==> (Attached(ws, x) <==> Attached(ws2, x));
  }

  /** Worker `n` starts running for a server outside any switch. */
  lemma SlotsOpen(ws: Workers, slots: map<Sid, Slot>, n: Tid, v: Sid, ws2: Workers)
    requires SlotsOk(ws, slots) && !Attached(ws, n) && Attached(ws2, n) && v !in slots && ws2[n].server == v
    requires Only(ws, n, ws2)
    ensures SlotsOk(ws2, slots[v := Empty(n)])
  {
    assert forall x :: x != n ==> (Attached(ws, x) <==> Attached(ws2, x));
  }

  /** Worker `n` takes over the server of worker `t`. */
  lemma SlotsPass(ws: Workers, slots: map<Sid, Slot>, t: Tid, n: Tid, ws2: Workers)
    requires SlotsOk(ws, slots) && Attached(ws, t) && !Attached(ws, n) && t != n
    requires !Attached(ws2, t) && Attached(ws2, n) && ws2[n].server == ws[t].server
    requires forall x :: x != n && x != t ==> (x in ws <==> x in ws2) && (x in ws ==> ws[x] == ws2[x])
    ensures SlotsOk(ws2, slots[ws[t].server := Empty(n)])
  {
    assert forall x :: x != n && x != t ==> (Attached(ws, x) <==> Attached(ws2, x));
  }

  // ------------------------------------------------------------------ steps

  lemma ModeOf(s: State, t: Tid)
    requires Inv(s)
    ensures t in s.workers ==> WorkerOk(s.workers[t]) && Fits(s.workers[t], ModeAfter(Logged(s.history, t)))
    ensures t !in s.workers ==> ModeAfter(Logged(s.history, t)) == Gone
    ensures Attached(s.workers, t) ==>
              var v := s.workers[t].server; v in s.slots && s.slots[v] == Empty(t)
  {
  }

  /** Worker `t` reports `e` and joins the idle list. */
  lemma ListInv(s: State, t: Tid, e: Event, r: State)
    requires Inv(s) && t in r.workers && Only(s.workers, t, r.workers)
    requires !OnList(s.workers, t) && OnList(r.workers, t) && !Attached(s.workers, t)
    requires WorkerOk(r.workers[t]) && Fits(r.workers[t], Next(ModeAfter(Logged(s.history, t)), Out(e)))
    requires r.idle == s.idle + [t] && r.slots == s.slots
             && r.history == s.history[t := Logged(s.history, t) + [Out(e)]]
    ensures Inv(r)
  {
    hide ModeAfter, Next, Fits, WorkerOk;
    HistoryStep(s.workers, s.history, t, Out(e), r.workers);
    hide HistoryOk;
    SlotsSame(s.workers, s.slots, t, r.workers);
    hide SlotsOk;
    IdlePush(s.workers, s.idle, t, r.workers);
  }

  /** Worker `t` reports `e` to its server, which ends the switch. */
  lemma FillInv(s: State, t: Tid, e: Event, r: State)
    requires Inv(s) && Attached(s.workers, t) && Only(s.workers, t, r.workers) && Switched(e)
    requires !OnList(r.workers, t) && !Attached(r.workers, t)
    requires t in r.workers ==>
            WorkerOk(r.workers[t]) && Fits(r.workers[t], Next(ModeAfter(Logged(s.history, t)), Out(e)))
    requires t !in r.workers ==> Next(ModeAfter(Logged(s.history, t)), Out(e)) == Gone
    requires r.idle == s.idle && r.slots == s.slots[s.workers[t].server := Full(Msg(t, e))]
    requires r.history == s.history[t := Logged(s.history, t) + [Out(e)]]
    ensures Inv(r)
  {
    hide ModeAfter, Next, Fits, WorkerOk;
    HistoryStep(s.workers, s.history, t, Out(e), r.workers);
    hide HistoryOk;
    SlotsFill(s.workers, s.slots, t, e, r.workers);
    hide SlotsOk;
    IdleSame(s.workers, s.idle, r.workers);
  }

  /** The same for the outcome of EventToServer. */
  lemma FillOutcome(s: State, t: Tid, e: Event, ws2: Workers)
    requires Inv(s) && Attached(s.workers, t) && Only(s.workers, t, ws2) && Switched(e)
    requires !OnList(ws2, t) && !Attached(ws2, t)
    requires t in ws2 ==> WorkerOk(ws2[t]) && Fits(ws2[t], Next(On, Out(e)))
    requires t !in ws2 ==> e.Exit?
    ensures Good(EventToServer(s.(workers := ws2), s.workers[t].server, t, e))
  {
    hide Inv;
    ModeOf(s, t);
    hide ModeAfter;
    FillInv(s, t, e, EventToServer(s.(workers := ws2), s.workers[t].server, t, e).state);
  }

  lemma FillKeeps(s: State, step: Step)
    requires Inv(s) && CanAct(s, step)
    requires step.Unregister? || step.WaitStep? || step.SyscallPause? || (step.ScheduleReturn? && step.late)
    requires Attached(s.workers, step.t) && (step.SyscallPause? ==> s.Is(step.t, Paused))
    ensures Good(Apply(s, step))
  {
    hide Inv, EventToServer;
    var t := step.t;
    var w := s.workers[t];
    ModeOf(s, t);
    match step {
      case Unregister(_) => FillOutcome(s, t, Exit, s.workers - {t});
      case WaitStep(_, timed) =>
        FillOutcome(s, t, Wait, s.workers[t := w.(status := Waiting, timer := timed, timedOut := false)]);
      case SyscallPause(_) => FillOutcome(s, t, Block, s.workers[t := w.(status := Blocked)]);
      case ScheduleReturn(_, _) => FillOutcome(s, t, Preempt, s.workers[t := w.(status := Runnable)]);
    }
  }

  lemma ListKeeps(s: State, step: Step)
    requires Inv(s) && CanAct(s, step)
    requires (step.Register? && ValidId(step.id) && step.t !in s.workers)
          || (step.ScheduleReturn? && s.Is(step.t, Blocked))
          || (step.TimerFires? && s.Is(step.t, Waiting))
    ensures Good(Apply(s, step))
  {
    hide Inv;
    var t := step.t;
    ModeOf(s, t);
    hide ModeAfter;
    ListInv(s, t, if step.TimerFires? then Timeout else Wake, Apply(s, step).state);
  }

  /** Worker `t` changes in a way that nobody sees. */
  lemma SilentInv(s: State, t: Tid, w: Worker)
    requires Inv(s) && t in s.workers && WorkerOk(w) && w.server == s.workers[t].server
    requires forall m :: Fits(s.workers[t], m) ==> Fits(w, m)
    requires OnList(s.workers, t) <==> w.status.Idle? || w.status.IdleTimeout?
    requires Attached(s.workers, t) <==> w.status.Running? || w.status.Paused?
    ensures Inv(s.Put(t, w))
  {
    hide ModeAfter, Fits;
    var ws2 := s.workers[t := w];
    HistorySame(s.workers, s.history, t, ws2);
    hide HistoryOk;
    SlotsSame(s.workers, s.slots, t, ws2);
    hide SlotsOk;
    IdleSame(s.workers, s.idle, ws2);
  }

  lemma SilentKeeps(s: State, step: Step)
    requires Inv(s) && CanAct(s, step)
    requires step.Pause? || (step.ScheduleReturn? && !step.late && !s.Is(step.t, Blocked))
          || (step.TimerFires? && s.Is(step.t, Runnable))
    ensures Good(Apply(s, step))
  {
    hide Inv;
    ModeOf(s, step.t);
    hide ModeAfter;
    SilentInv(s, step.t, Apply(s, step).state.workers[step.t]);
  }

  /** Worker `t` does `a` where it is: on the list or attached as before. */
  lemma InPlaceInv(s: State, t: Tid, a: Act, r: State)
    requires Inv(s) && t in r.workers && Only(s.workers, t, r.workers)
    requires OnList(s.workers, t) <==> OnList(r.workers, t)
    requires !Attached(s.workers, t) && !Attached(r.workers, t)
    requires WorkerOk(r.workers[t]) && Fits(r.workers[t], Next(ModeAfter(Logged(s.history, t)), a))
    requires r.idle == s.idle && r.slots == s.slots && r.history == s.history[t := Logged(s.history, t) + [a]]
    ensures Inv(r)
  {
    hide ModeAfter, Next, Fits, WorkerOk;
    HistoryStep(s.workers, s.history, t, a, r.workers);
    hide HistoryOk;
    SlotsSame(s.workers, s.slots, t, r.workers);
    hide SlotsOk;
    IdleSame(s.workers, s.idle, r.workers);
  }

  /** The timer fires for a swapped-out worker that is still on the list. */
  lemma LateTimerKeeps(s: State, t: Tid)
    requires Inv(s) && CanAct(s, TimerFires(t)) && s.Is(t, Idle)
    ensures Good(Apply(s, TimerFires(t)))
  {
    hide Inv;
    ModeOf(s, t);
    hide ModeAfter;
    InPlaceInv(s, t, Out(Timeout), Apply(s, TimerFires(t)).state);
  }

  lemma InInv(s: State, n: Tid, v: Sid, r: State)
    requires Inv(s) && v !in s.slots && n in r.workers && Only(s.workers, n, r.workers)
    requires !OnList(s.workers, n) && !OnList(r.workers, n)
    requires !Attached(s.workers, n) && Attached(r.workers, n) && r.workers[n].server == v
    requires WorkerOk(r.workers[n]) && Fits(r.workers[n], Next(ModeAfter(Logged(s.history, n)), In))
    requires r.idle == s.idle && r.slots == s.slots[v := Empty(n)]
    requires r.history == s.history[n := Logged(s.history, n) + [In]]
    ensures Inv(r)
  {
    hide ModeAfter, Next, Fits, WorkerOk;
    HistoryStep(s.workers, s.history, n, In, r.workers);
    hide HistoryOk;
    SlotsOpen(s.workers, s.slots, n, v, r.workers);
    hide SlotsOk;
    IdleSame(s.workers, s.idle, r.workers);
  }

  lemma SwitchInKeeps(s: State, n: Tid, v: Sid)
    requires Inv(s) && v !in s.slots && (s.Is(n, Runnable) || s.Is(n, Waiting))
    ensures Inv(SwitchIn(s, n, v))
  {
    hide Inv;
    ModeOf(s, n);
    hide ModeAfter;
    InInv(s, n, v, SwitchIn(s, n, v));
  }

  /** A swap is the worker's own WAIT on the list followed by the other's
      switch-in to the same server. */
  lemma PassInv(s: State, t: Tid, n: Tid, mid: State, r: State)
    requires Inv(s) && t != n && n in s.workers && t in mid.workers && n in r.workers
    requires Only(s.workers, t, mid.workers) && Only(mid.workers, n, r.workers)
    requires Attached(s.workers, t) && OnList(mid.workers, t) && WorkerOk(mid.workers[t])
    requires !OnList(s.workers, n) && !Attached(s.workers, n)
    requires Attached(r.workers, n) && r.workers[n].server == s.workers[t].server && WorkerOk(r.workers[n])
    requires Fits(mid.workers[t], Next(ModeAfter(Logged(s.history, t)), Out(Wait)))
    requires Fits(r.workers[n], Next(ModeAfter(Logged(s.history, n)), In))
    requires mid.history == s.history[t := Logged(s.history, t) + [Out(Wait)]]
    requires r.history == mid.history[n := Logged(mid.history, n) + [In]]
    requires r.idle == s.idle + [t] && r.slots == s.slots[s.workers[t].server := Empty(n)]
    ensures Inv(r)
  {
    hide ModeAfter, Next, Fits, WorkerOk;
    HistoryStep(s.workers, s.history, t, Out(Wait), mid.workers);
    HistoryStep(mid.workers, mid.history, n, In, r.workers);
    hide HistoryOk;
    SlotsPass(s.workers, s.slots, t, n, r.workers);
    hide SlotsOk;
    IdlePush(s.workers, s.idle, t, mid.workers);
    IdleSame(mid.workers, r.idle, r.workers);
  }

  lemma PassKeeps(s: State, t: Tid, n: Tid, timed: bool)
    requires Inv(s) && s.Executes(t) && s.Is(n, Runnable)
    ensures Good(Apply(s, SwitchFromWorker(t, n, timed)))
  {
    hide Inv;
    ModeOf(s, t);
    ModeOf(s, n);
    hide ModeAfter;
    var w := s.workers[t].(status := Idle, timer := timed, timedOut := false);
    var mid := EventIdle(s.Put(t, w), t, Wait);
    assert mid.workers == s.workers[t := w.(event := Wait)];
    var r := SwitchIn(mid, n, s.workers[t].server);
    assert Apply(s, SwitchFromWorker(t, n, timed)) == Live(r);
    hide Apply;
    PassInv(s, t, n, mid, r);
  }

  lemma TakeOneKeeps(s: State)
    requires Inv(s) && s.idle != [] && s.idle[0] in s.workers
    ensures Inv(TakeOne(s))
  {
    var t := s.idle[0];
    assert t in s.idle && OnList(s.workers, t);
    var ws2 := TakeOne(s).workers;
    ModeOf(s, t);
    hide ModeAfter;
    HistorySame(s.workers, s.history, t, ws2);
    hide HistoryOk;
    SlotsSame(s.workers, s.slots, t, ws2);
    hide SlotsOk;
    IdlePop(s.workers, s.idle, ws2);
  }

  lemma {:induction false} CollectKeeps(s: State, size: int)
    requires Inv(s)
    ensures Inv(Collect(s, size).0)
    decreases |s.idle|
  {
    hide Inv;
    if size > 1 && s.idle != [] && s.idle[0] in s.workers {
      TakeOneKeeps(s);
      CollectKeeps(TakeOne(s), size - |Owed(s.workers[s.idle[0]])|);
    }
  }

  lemma FreeSlotKeeps(s: State, v: Sid)
    requires Inv(s) && v in s.slots && s.slots[v].Full?
    ensures Inv(s.(slots := s.slots - {v}))
  {
    hide HistoryOk, IdleOk;
  }

  /** Every step that a thread can take keeps the invariant, and none of them
      writes through a stale pointer or over an unread event. */
  lemma StepKeeps(s: State, step: Step)
    requires Inv(s) && CanAct(s, step)
    ensures Good(Apply(s, step))
  {
    hide Inv;
    match step {
      case Register(t, id) =>
        if ValidId(id) && t !in s.workers { ListKeeps(s, step); }
      case Unregister(t) =>
        if t in s.workers { FillKeeps(s, step); }
      case WaitStep(t, timed) => FillKeeps(s, step);
      case SwitchFromServer(v, n, size) =>
        if size > 0 && (s.Is(n, Runnable) || s.Is(n, Waiting)) { SwitchInKeeps(s, n, v); }
      case SwitchFromWorker(t, n, timed) =>
        if s.Is(n, Runnable) { PassKeeps(s, t, n, timed); }
      case Pause(t) => SilentKeeps(s, step);
      case SyscallPause(t) =>
        if s.Is(t, Paused) { FillKeeps(s, step); }
      case ScheduleReturn(t, late) =>
        if s.Is(t, Blocked) { ListKeeps(s, step); }
        else if late { FillKeeps(s, step); }
        else { SilentKeeps(s, step); }
      case TimerFires(t) =>
        ModeOf(s, t);
        if s.Is(t, Waiting) { ListKeeps(s, step); }
        else if s.Is(t, Idle) { LateTimerKeeps(s, t); }
        else { SilentKeeps(s, step); }
      case CollectStep(size) => CollectKeeps(s, size);
      case SwitchReturn(v, size) =>
        if v in s.slots && s.slots[v].Full? {
          FreeSlotKeeps(s, v);
          CollectKeeps(s.(slots := s.slots - {v}), size - 1);
        }
    }
  }
}
