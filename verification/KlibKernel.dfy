/** The klib itself: the calls and hooks that change its tables in place, each
    proved to take the step of the protocol it stands for. */
module KlibKernel {
  import opened Buffers
  import opened Events
  import opened KlibProtocol
  import opened KlibSafety
  import opened KlibRuns
  import opened KlibBuffer
  import opened KlibLoop

  const EAGAIN := 11
  const EINTR := 4
  const EINVAL := 22
  const ETIMEDOUT := 110
  const ERESTARTSYS := 512
  const ESRCH := 3

  /** A blocking call either goes (back) to sleep or returns a value. */
  datatype Answer = Sleeps | Returns(value: int)

  /** What a step does to a state in order. */
  lemma StepGood(s: State, step: Step)
    ensures Inv(s) && CanAct(s, step) ==> Apply(s, step).Live? && Inv(Apply(s, step).state)
  {
    hide Inv, CanAct, Apply;
    if Inv(s) && CanAct(s, step) { StepKeeps(s, step); }
  }

  /** Every filled slot holds the encoding of its event, with the id that the
      worker had when it reported. */
  ghost predicate SlotWords(slots: map<Sid, Slot>, words: map<Sid, bv64>, senders: map<Sid, bv64>)
  {
    forall v :: v in slots && slots[v].Full? ==>
      v in words && v in senders && ValidId(senders[v]) && words[v] == Encode(senders[v], slots[v].msg.event)
  }

  lemma IdOk(ws: Workers, t: Tid)
    requires AlignedIds(ws) && t in ws
    ensures ValidId(ws[t].id)
  {
  }

  lemma SlotPut(slots: map<Sid, Slot>, words: map<Sid, bv64>, senders: map<Sid, bv64>, v: Sid, m: Msg, id: bv64)
    requires SlotWords(slots, words, senders) && ValidId(id)
    ensures SlotWords(slots[v := Full(m)], words[v := Encode(id, m.event)], senders[v := id])
  {
    hide ValidId;
  }

  lemma SlotIs(slots: map<Sid, Slot>, words: map<Sid, bv64>, senders: map<Sid, bv64>, v: Sid)
    requires SlotWords(slots, words, senders) && v in slots && slots[v].Full?
    ensures v in words && v in senders && ValidId(senders[v])
    ensures words[v] == Encode(senders[v], slots[v].msg.event)
  {
    hide ValidId;
  }

  /** The buffer of a returning switch decodes to the event and what was collected. */
  lemma SwitchDecodes(s: State, id: bv64, e: Event, was: seq<bv64>, faults: set<nat>, now: State, buf: seq<bv64>)
    requires AlignedIds(s.workers) && ValidId(id) && |was| >= 1 && Writable(0, |was|, faults)
    requires Collected(s, |was| - 1, was[0 := Encode(id, e)], 1, faults, now, buf)
    ensures var (r, ms) := Collect(s, |was| - 1);
            now == r && Decode(buf) == [Report(id, e)] + ToReports(s.workers, ms)
  {
    hide Collect, Collected, Decode, AlignedIds, ValidId, ToReports;
    var front, first := [Report(id, e)], was[0 := Encode(id, e)];
    assert first[..1] == EncodeAll(front);
    CollectedIsDecoded(s, front, first, faults, now, buf);
  }

  class Kernel {
    var workers: map<Tid, Worker>
    var idle: seq<Tid>
    var slots: map<Sid, Slot>
    var words: map<Sid, bv64>
    ghost var senders: map<Sid, bv64>
    ghost var history: map<Tid, seq<Act>>
    var wild: bool
    var wakeIdleServer: bool

    ghost function Abs(): State reads this { State(workers, idle, slots, history) }

    ghost predicate Valid() reads this
    {
      AlignedIds(workers) && (wild || SlotWords(slots, words, senders))
    }

    /** The kernel is where `o` says. */
    ghost predicate At(o: Outcome) reads this
    {
      match o
      case Wild => wild
      case Live(s) => Abs() == s && !wild
    }

    constructor ()
      ensures Valid() && Abs() == INITIAL && !wild && !wakeIdleServer
    {
      workers, idle, slots, words, senders, history := map[], [], map[], map[], map[], map[];
      wild, wakeIdleServer := false, false;
    }

    // -------------------------------------------------------------- helpers

    static method CompareAndSwap(w: Worker, seen: Status, next: Status) returns (ok: bool, r: Worker)
      ensures ok <==> w.status == seen
      ensures r == if ok then w.(status := next) else w
    {
      ok, r := w.status == seen, w;
      if ok { r := w.(status := next); }
    }

    ghost method Note(t: Tid, a: Act)
      modifies this`history
      ensures history == old(history)[t := Logged(old(history), t) + [a]]
    {
      history := history[t := Logged(history, t) + [a]];
    }

    method EventToIdle(t: Tid, w: Worker, e: Event)
      requires Valid() && ValidId(w.id)
      modifies this`workers, this`idle, this`history
      ensures Abs() == EventIdle(old(Abs()).Put(t, w), t, e)
      ensures Valid()
    {
      ghost var ws: map<Tid, Worker> := workers[t := w];
      workers := workers[t := w.(event := e)];
      idle := idle + [t];
      Note(t, Out(e));
      assert ws[t := w.(event := e)] == workers;
    }

    /** Writes through the worker's slot pointer. */
    method EventToSlot(t: Tid, w: Worker, e: Event)
      requires Valid()
      requires !wild && ValidId(w.id)
      modifies this`slots, this`words, this`senders, this`history, this`wild
      ensures At(EventToServer(old(Abs()), w.server, t, e))
      ensures words == old(words)[w.server := Encode(w.id, e)] && senders == old(senders)[w.server := w.id]
      ensures Valid()
    {
      hide AlignedIds, SlotWords, ValidId;
      SlotPut(slots, words, senders, w.server, Msg(t, e), w.id);
      words := words[w.server := Encode(w.id, e)];
      senders := senders[w.server := w.id];
      if w.server in slots && slots[w.server].Empty? {
        slots := slots[w.server := Full(Msg(t, e))];
        Note(t, Out(e));
      } else {
        wild := true;
      }
    }

    // ---------------------------------------------------------------- hooks

    method TimeoutHandler(t: Tid)
      requires Valid()
      requires t in workers && !wild
      modifies this`workers, this`idle, this`history
      ensures At(Apply(old(Abs()), TimerFires(t)))
      ensures old(Inv(Abs()) && CanAct(Abs(), TimerFires(t))) ==> Inv(Abs())
      ensures Valid()
    {
      hide Inv, CanAct;
      StepGood(Abs(), TimerFires(t));
      var w := workers[t].(timer := false);
      var waiting, swapped;
      waiting, w := CompareAndSwap(w, Waiting, Idle);
      if waiting {
        w := w.(timedOut := true);
        EventToIdle(t, w, Timeout);
      } else {
        swapped, w := CompareAndSwap(w, Idle, IdleTimeout);
        if swapped {
          w := w.(timedOut := true);
          Note(t, Out(Timeout));
        }
        workers := workers[t := w];
      }
    }

    method WorkerPause(t: Tid, inSyscall: bool)
      requires Valid()
      requires t in workers && !wild
      modifies this`workers
      ensures inSyscall ==> At(Apply(old(Abs()), Pause(t)))
      ensures !inSyscall ==> Abs() == old(Abs()) && !wild
      ensures old(Inv(Abs()) && CanAct(Abs(), Pause(t))) ==> Inv(Abs())
      ensures Valid()
    {
      hide Inv, CanAct;
      StepGood(Abs(), Pause(t));
      if inSyscall { workers := workers[t := workers[t].(status := Paused)]; }
    }

    method SyscallPauseHook(t: Tid)
      requires Valid()
      requires !wild
      modifies this`workers, this`slots, this`words, this`senders, this`history, this`wild
      ensures At(Apply(old(Abs()), SyscallPause(t)))
      ensures words == if old(Abs()).Is(t, Paused) then
                         old(words)[old(workers[t].server) := Encode(old(workers[t].id), Block)]
                       else old(words)
      ensures old(Inv(Abs()) && CanAct(Abs(), SyscallPause(t))) ==> Inv(Abs())
      ensures Valid()
    {
      hide Inv, CanAct;
      StepGood(Abs(), SyscallPause(t));
      if t in workers {
        var blocked, w := CompareAndSwap(workers[t], Paused, Blocked);
        if blocked {
          workers := workers[t := w];
          EventToSlot(t, w, Block);
        }
      }
    }

    method ScheduleReturnHook(t: Tid, late: bool)
      requires Valid()
      requires t in workers && !wild
      modifies this`workers, this`idle, this`slots, this`words, this`senders, this`history, this`wild
      ensures At(Apply(old(Abs()), ScheduleReturn(t, late)))
      ensures words == if late && !old(Abs()).Is(t, Blocked) then
                         old(words)[old(workers[t].server) := Encode(old(workers[t].id), Preempt)]
                       else old(words)
      ensures old(Inv(Abs()) && CanAct(Abs(), ScheduleReturn(t, late))) ==> Inv(Abs())
      ensures Valid()
    {
      hide Inv, CanAct;
      StepGood(Abs(), ScheduleReturn(t, late));
      var woken, w := CompareAndSwap(workers[t], Blocked, Idle);
      if woken {
        EventToIdle(t, w, Wake);
      } else if late {
        workers := workers[t := w.(status := Runnable)];
        EventToSlot(t, w, Preempt);
      } else {
        workers := workers[t := w.(status := Running)];
      }
    }

    // -------------------------------------------------------- registration

    method RegisterWorker(t: Tid, id: bv64) returns (a: Answer)
      requires Valid()
      requires !wild
      modifies this`workers, this`idle, this`history
      ensures At(Apply(old(Abs()), Register(t, id)))
      ensures a == if ValidId(id) && t !in old(workers) then Sleeps else Returns(-EINVAL)
      ensures old(Inv(Abs()) && CanAct(Abs(), Register(t, id))) ==> Inv(Abs())
      ensures Valid()
      ensures a.Returns? ==> Abs() == old(Abs())
    {
      hide Inv, CanAct;
      StepGood(Abs(), Register(t, id));
      if id & EVENT_MASK != 0 || t in workers { return Returns(-EINVAL); }
      EventToIdle(t, Worker(id, Idle, Wake, 0, false, false), Wake);
      return Sleeps;
    }

    method UnregisterWorker(t: Tid) returns (a: Answer)
      requires Valid()
      requires !wild
      modifies this`workers, this`slots, this`words, this`senders, this`history, this`wild
      ensures At(Apply(old(Abs()), Unregister(t)))
      ensures a == Returns(0)
      ensures words == if t in old(workers) then old(words)[old(workers[t].server) := Encode(old(workers[t].id), Exit)]
                       else old(words)
      ensures old(Inv(Abs()) && CanAct(Abs(), Unregister(t))) ==> Inv(Abs())
      ensures Valid()
    {
      hide Inv, CanAct;
      StepGood(Abs(), Unregister(t));
      if t in workers {
        var w := workers[t];
        workers := workers - {t};
        EventToSlot(t, w, Exit);
      }
      return Returns(0);
    }

    // ------------------------------------------------------ wait and switch

    method WorkerWait(t: Tid, next: nat, timeout: nat, events: bool, size: nat) returns (a: Answer)
      requires Valid()
      requires t in workers && !wild
      modifies this`workers, this`slots, this`words, this`senders, this`history, this`wild
      ensures next != 0 || events || size != 0 ==> a == Returns(-EINVAL) && Abs() == old(Abs()) && !wild
      ensures next == 0 && !events && size == 0 ==> a == Sleeps && At(Apply(old(Abs()), WaitStep(t, timeout != 0)))
      ensures words == if a == Sleeps then old(words)[old(workers[t].server) := Encode(old(workers[t].id), Wait)]
                       else old(words)
      ensures old(Inv(Abs()) && CanAct(Abs(), WaitStep(t, timeout != 0))) ==> Inv(Abs())
      ensures Valid()
      ensures a.Returns? ==> Abs() == old(Abs())
    {
      hide Inv, CanAct;
      StepGood(Abs(), WaitStep(t, timeout != 0));
      if next != 0 || events || size != 0 { return Returns(-EINVAL); }
      var w := workers[t].(status := Waiting, timer := timeout != 0, timedOut := false);
      workers := workers[t := w];
      EventToSlot(t, w, Wait);
      return Sleeps;
    }

    /** The part of the switch common to servers and workers; `w` is the target
        already claimed. */
    method Resume(next: Tid, w: Worker, v: Sid)
      requires Valid()
      requires next in workers && w == workers[next].(status := Running)
      modifies this`workers, this`slots, this`history
      ensures next in workers
      ensures Abs() == SwitchIn(old(Abs()), next, v)
      ensures Valid()
    {
      workers := workers[next := w.(server := v, timer := false)];
      slots := slots[v := Empty(next)];
      Note(next, In);
    }

    method SetIdle(t: Tid)
      requires Valid()
      requires t in workers
      modifies this`workers
      ensures Abs() == old(Abs()).Put(t, old(workers[t]).(status := Idle))
      ensures Valid()
    {
      workers := workers[t := workers[t].(status := Idle)];
    }

    /** `thread` says whether the tid names a thread at all. */
    method ServerSwitch(v: Sid, next: Tid, thread: bool, timeout: nat, size: nat) returns (a: Answer)
      requires Valid()
      requires !wild
      modifies this`workers, this`slots, this`history
      ensures !thread ==> a == Returns(-ESRCH) && Abs() == old(Abs()) && !wild
      ensures thread && (next !in old(workers) || timeout != 0 || size == 0) ==>
              a == Returns(-EINVAL) && Abs() == old(Abs()) && !wild
      ensures thread && next in old(workers) && timeout == 0 && size > 0 ==>
                && At(Apply(old(Abs()), SwitchFromServer(v, next, size)))
                && a == if old(Abs()).Is(next, Runnable) || old(Abs()).Is(next, Waiting) then Sleeps
                   else Returns(-EINVAL)
      ensures old(Inv(Abs()) && CanAct(Abs(), SwitchFromServer(v, next, size))) ==> Inv(Abs())
      ensures Valid()
      ensures a.Returns? ==> Abs() == old(Abs())
    {
      hide Inv, CanAct;
      StepGood(Abs(), SwitchFromServer(v, next, size));
      if !thread { return Returns(-ESRCH); }
      if next !in workers || timeout != 0 || size <= 0 { return Returns(-EINVAL); }
      var ok, w := CompareAndSwap(workers[next], Runnable, Running);
      if !ok {
        ok, w := CompareAndSwap(w, Waiting, Running);
        if !ok { return Returns(-EINVAL); }
      }
      Resume(next, w, v);
      return Sleeps;
    }

    method WorkerSwitch(t: Tid, next: Tid, thread: bool, timeout: nat) returns (a: Answer)
      requires Valid()
      requires t in workers && !wild
      modifies this`workers, this`idle, this`slots, this`history
      ensures !thread ==> a == Returns(-ESRCH) && Abs() == old(Abs()) && !wild
      ensures thread ==> At(Apply(old(Abs()), SwitchFromWorker(t, next, timeout != 0)))
      ensures thread ==> a == if old(Abs()).Is(next, Runnable) then Sleeps else Returns(-EINVAL)
      ensures old(Inv(Abs()) && CanAct(Abs(), SwitchFromWorker(t, next, timeout != 0))) ==> Inv(Abs())
      ensures Valid()
      ensures a.Returns? ==> Abs() == old(Abs())
    {
      hide Inv, CanAct, SwitchIn, AlignedIds, SlotWords;
      StepGood(Abs(), SwitchFromWorker(t, next, timeout != 0));
      if !thread { return Returns(-ESRCH); }
      if next !in workers { return Returns(-EINVAL); }
      var ok, _ := CompareAndSwap(workers[next], Runnable, Running);
      if !ok { return Returns(-EINVAL); }
      IdOk(workers, t);
      var w := workers[t].(status := Idle, timer := timeout != 0, timedOut := false);
      EventToIdle(t, w, Wait);
      Resume(next, workers[next].(status := Running), w.server);
      // A worker that names itself as the target ends up IDLE.
      if t == next { SetIdle(t); }
      return Sleeps;
    }

    /** The wake command; `sleeper` says whether a server sleeps in its wait. The pending
        wake lasts until that server looks, and is taken back if there is none. */
    method WakeCommand(extra: bool, sleeper: bool) returns (rv: int)
      modifies this`wakeIdleServer
      ensures Abs() == old(Abs()) && (old(Valid()) ==> Valid())
      ensures wakeIdleServer == if extra then old(wakeIdleServer) else sleeper
      ensures rv == if extra then -EINVAL else if sleeper then 0 else -EAGAIN
    {
      if extra { return -EINVAL; }
      wakeIdleServer := true;
      if !sleeper && wakeIdleServer {
        wakeIdleServer := false;
        return -EAGAIN;
      }
      return 0;
    }

    // ----------------------------------------------------------- collection

    /** Writes what one worker is owed from word `i`, until a write faults. */
    static method WriteOwed(w: Worker, events: array<bv64>, i: nat, faults: set<nat>) returns (n: nat, ok: bool)
      requires Bounded(events.Length, i, 2, faults)
      modifies events
      ensures n <= |Owed(w)| && i + n <= events.Length && (ok <==> n == |Owed(w)|)
      ensures (forall j :: i <= j < i + n ==> j !in faults) && (!ok ==> i + n in faults)
      ensures events[..] == Splice(old(events[..]), i, OwedWords(w, n))
    {
      n := 0;
      ok := PutUser(events, i, faults, Encode(w.id, w.event));
      if !ok { return; }
      n := 1;
      if w.event == Wait {
        var counted, _ := CompareAndSwap(w, Idle, IdleTimeout);
        if !counted {
          ok := PutUser(events, i + 1, faults, Encode(w.id, Timeout));
          if !ok { return; }
          n := 2;
        }
      }
    }

    /** One turn of the loop: the first worker is reported and, unless a write
        faults, taken off the list. */
    method CollectOne(events: array<bv64>, i: nat, faults: set<nat>) returns (k: nat, ok: bool)
      requires Valid()
      requires HasFirst(Abs()) && Bounded(events.Length, i, 2, faults)
      modifies this`workers, this`idle, events
      ensures Writes(old(Abs()), i, faults, k) && i + k <= events.Length && (ok <==> k == |Turn(old(Abs()))|)
      ensures Abs() == if ok then TakeOne(old(Abs())) else old(Abs())
      ensures events[..] == Splice(old(events[..]), i, OwedWords(old(workers[idle[0]]), k))
      ensures Valid()
    {
      var t := idle[0];
      k, ok := WriteOwed(workers[t], events, i, faults);
      if ok {
        workers := workers[t := workers[t].(status := Runnable)];
        idle := idle[1..];
      }
    }

    /** The loop: `n` words are written and `sz` are left. */
    method CollectLoop(events: array<bv64>, at: nat, size: int, faults: set<nat>) returns (rv: int, n: nat, sz: int)
      requires Valid()
      requires Listed(Abs()) && Bounded(events.Length, at, size, faults)
      modifies this`workers, this`idle, events
      ensures Ended(old(Abs()), size, old(events[..]), at, faults, Abs(), sz, n, rv, events[..])
      ensures n <= if size < 0 then 0 else size
      ensures Valid()
    {
      hide Midway, Ended, Ahead, CollectInto, Words, OwedWords, Splice, FirstReports;
      hide TakeOne, Turn, CountOf, Bounded, Writes, Listed, Owed;
      ghost var s, was, written := Abs(), events[..], [];
      CollectIntoFits(s, size, at, faults);
      rv, n, sz := 0, 0, size;
      MidwayStart(s, size, was, at, faults);
      while sz > 1
        invariant Valid() && |written| == n == rv
        invariant Midway(s, size, was, at, faults, Abs(), sz, written, events[..])
        decreases |idle|
      {
        ghost var now, buf := Abs(), events[..];
        MidwayFacts(s, size, was, at, faults, now, sz, written, buf);
        if idle == [] { break; }
        var k, ok := CollectOne(events, at + n, faults);
        if !ok {
          MidwayFault(s, size, was, at, faults, now, sz, written, buf, k);
          EndedCounts(s, size, was, at, faults, now, sz - k, n + k, if rv == 0 then -EFAULT else rv + k, events[..]);
          return if rv == 0 then -EFAULT else rv + k, n + k, sz - k;
        }
        MidwayTurn(s, size, was, at, faults, now, sz, written, buf);
        written := written + FirstReports(now, k);
        rv, n, sz := rv + k, n + k, sz - k;
      }
      MidwayEnd(s, size, was, at, faults, Abs(), sz, written, events[..]);
      EndedCounts(s, size, was, at, faults, Abs(), sz, n, rv, events[..]);
    }

    method GetEvents(events: array<bv64>, at: nat, size: int, faults: set<nat>) returns (rv: int)
      requires Valid()
      requires Listed(Abs()) && Bounded(events.Length, at, size, faults)
      modifies this`workers, this`idle, events
      ensures rv == CountOf(CollectInto(old(Abs()), size, at, faults), old(idle)) <= if size < 0 then 0 else size
      ensures rv < 0 <==> FaultsFirst(old(Abs()), size, at, faults)
      ensures rv < 0 ==> rv == -EFAULT
      ensures Collected(old(Abs()), size, old(events[..]), at, faults, Abs(), events[..])
      ensures Valid()
    {
      hide CollectInto, Words, Splice;
      ghost var words := Words(workers, CollectInto(Abs(), size, at, faults).reports);
      ghost var was := events[..];
      FailsIffFaultsFirst(Abs(), size, at, faults);
      var n, sz;
      rv, n, sz := CollectLoop(events, at, size, faults);
      if sz > 0 && at + n !in faults { SpliceTwice(was, at, words, [0]); SpliceOne(events[..], at + n, 0); }
      if sz > 0 {
        var _ := PutUser(events, at + n, faults, 0);
      }
      assert words + [] == words;
    }

    /** The wait of a server with a timeout of 1: it polls. */
    method ServerPoll(events: array<bv64>, size: nat, faults: set<nat>) returns (rv: int)
      requires Valid()
      requires Listed(Abs()) && Bounded(events.Length, 0, size, faults)
      modifies this`workers, this`idle, events
      ensures size < 2 ==> rv == -EINVAL && Abs() == old(Abs()) && events[..] == old(events[..])
      ensures size >= 2 ==> Collected(old(Abs()), size, old(events[..]), 0, faults, Abs(), events[..])
      ensures size >= 2 ==>
                rv == if old(idle) == [] then -ETIMEDOUT
                      else if FaultsFirst(old(Abs()), size, 0, faults) then -EFAULT else 0
      ensures size >= 2 && Writable(0, size, faults) && events.Length == size ==>
                Decode(events[..]) == ToReports(old(workers), Collect(old(Abs()), size).1)
      ensures Valid()
    {
      hide CollectInto, Collected, Collect, Decode, Listed;
      if size < 2 { return -EINVAL; }
      ghost var s, was := Abs(), events[..];
      ZeroMeansEmpty(s, size, 0, faults);
      rv := GetEvents(events, 0, size, faults);
      if Writable(0, size, faults) && events.Length == size {
        assert was[..0] == EncodeAll([]);
        CollectedIsDecoded(s, [], was, faults, Abs(), events[..]);
      }
      if rv > 0 { return 0; }
      return if rv == 0 then -ETIMEDOUT else rv;
    }

    /** One run of the action of a server's blocking wait. It goes to sleep if and
        only if nobody is listed and no wake-up is pending. */
    method ServerWaitAction(timedOut: bool, nullify: bool, timeout: nat, events: array<bv64>, size: nat,
        faults: set<nat>)
      returns (a: Answer)
      requires Valid()
      requires size >= 2 && Listed(Abs()) && Bounded(events.Length, 0, size, faults)
      modifies this`workers, this`idle, this`wakeIdleServer, events
      ensures a.Sleeps? <==> !timedOut && !nullify && old(idle) == [] && !old(wakeIdleServer)
      ensures timedOut ==> a == Returns(-ETIMEDOUT)
      ensures !timedOut && nullify ==> a == Returns(if timeout != 0 then -EINTR else -ERESTARTSYS)
      ensures timedOut || nullify ==> Abs() == old(Abs()) && events[..] == old(events[..])
      ensures !timedOut && !nullify ==>
                && Collected(old(Abs()), size, old(events[..]), 0, faults, Abs(), events[..])
                && (a.Returns? ==> a.value == if FaultsFirst(old(Abs()), size, 0, faults) then -EFAULT else 0)
      ensures wakeIdleServer == (old(wakeIdleServer) && (timedOut || nullify || old(idle) != []))
      ensures Valid()
    {
      hide CollectInto, Collected;
      if timedOut { return Returns(-ETIMEDOUT); }
      if nullify { return Returns(if timeout != 0 then -EINTR else -ERESTARTSYS); }
      ZeroMeansEmpty(Abs(), size, 0, faults);
      var rv := GetEvents(events, 0, size, faults);
      if rv == 0 {
        var pending := wakeIdleServer;
        if pending { wakeIdleServer := false; }
        if !pending { return Sleeps; }
      }
      return Returns(if rv > 0 then 0 else rv);
    }

    /** The word of a filled slot goes first. If it cannot be written, the worker's
        event is gone. */
    method ReturnSlot(v: Sid, events: array<bv64>, size: nat, faults: set<nat>) returns (rv: int)
      requires Valid() && !wild && v in slots && slots[v].Full?
      requires size >= 1 && Listed(Abs()) && Bounded(events.Length, 0, size, faults)
      modifies this`workers, this`idle, this`slots, events
      ensures Valid() && v in words
      ensures 0 in faults ==>
                rv == -EFAULT && Abs() == old(Abs()).(slots := old(slots) - {v}) && events[..] == old(events[..])
      ensures 0 !in faults ==>
                && events.Length > 0 && rv == (if FaultsFirst(old(Abs()), size - 1, 1, faults) then -EFAULT else 0)
                && Collected(old(Abs()).(slots := old(slots) - {v}), size - 1, old(events[..])[0 := words[v]], 1,
                             faults, Abs(), events[..])
    {
      hide CollectInto, Collected, ValidId;
      slots := slots - {v};
      var ok := PutUser(events, 0, faults, words[v]);
      if !ok { return -EFAULT; }
      if size > 1 {
        rv := GetEvents(events, 1, size - 1, faults);
        return if rv > 0 then 0 else rv;
      }
      NoRoom(Abs(), events[..], faults);
      return 0;
    }

    /** One run of the action of a server's context switch. */
    method SwitchAction(v: Sid, events: array<bv64>, size: nat, faults: set<nat>) returns (a: Answer)
      requires Valid()
      requires size >= 1 && v in slots && !wild && Listed(Abs()) && Bounded(events.Length, 0, size, faults)
      modifies this`workers, this`idle, this`slots, events
      ensures old(slots[v]).Empty? ==> a == Sleeps && Abs() == old(Abs()) && events[..] == old(events[..])
      ensures old(slots[v]).Full? && 0 in faults ==>
                && a == Returns(-EFAULT) && Abs() == old(Abs()).(slots := old(slots) - {v})
                && events[..] == old(events[..])
      ensures old(slots[v]).Full? && 0 !in faults ==>
                && events.Length > 0 && v in words
                && a == Returns(if FaultsFirst(old(Abs()), size - 1, 1, faults) then -EFAULT else 0)
                && Collected(old(Abs()).(slots := old(slots) - {v}), size - 1, old(events[..])[0 := words[v]], 1,
                             faults, Abs(), events[..])
      ensures old(slots[v]).Full? && Writable(0, size, faults) && events.Length == size ==>
                && v in senders
                && var (r, ms) := Collect(old(Abs()).(slots := old(slots) - {v}), size - 1);
                   && Abs() == r
                   && Decode(events[..]) == [Report(senders[v], old(slots[v]).msg.event)] + ToReports(old(workers), ms)
      ensures Valid()
    {
      hide CollectInto, Collected, Collect, Decode, Listed, Bounded, ValidId, AlignedIds, ToReports;
      if slots[v].Empty? { return Sleeps; }
      ghost var s, was := Abs().(slots := slots - {v}), events[..];
      SlotIs(slots, words, senders, v);
      ghost var e := slots[v].msg.event;
      var rv := ReturnSlot(v, events, size, faults);
      if Writable(0, size, faults) && events.Length == size {
        SwitchDecodes(s, senders[v], e, was, faults, Abs(), events[..]);
      }
      return Returns(rv);
    }
  }
}
