/** Idle servers and the threads that wake them, at the grain of the Linux code:
    one step is one section under `umcg_lock` or one atomic access to a status.
    A worker that becomes idle first puts itself on the worker list and wakes a
    server in a second section; a server that runs out of work looks at the
    worker list and puts itself on the server list in one section. */
module LinuxWakeup {
  import opened Lists

  type Tid = nat

  datatype Status = Running | Idle | Attached

  /** Where a server is: in user space, between marking itself IDLE and the
      enqueue, in the idle loop, past an expired timeout but before or after its
      section, or collecting events. */
  datatype Position = User | Entering | InLoop | Expired | OffList | Collecting

  /** Where a waking thread is: between its enqueue and its wake, or between
      taking a server off the list and storing that server's status. */
  datatype Waker = Enqueued | Popped(server: Tid)

  datatype State = State(
    status: map<Tid, Status>,
    pos: map<Tid, Position>,
    idleWorkers: seq<Tid>,
    idleServers: seq<Tid>,
    wakers: map<Tid, Waker>,
    killed: bool)
  {
    predicate At(t: Tid, p: Position) { t in pos && pos[t] == p }

    predicate Is(t: Tid, st: Status) { t in status && status[t] == st }

    function Move(t: Tid, st: Status, p: Position): State
    {
      this.(status := status[t := st], pos := pos[t := p])
    }
  }

  const INITIAL := State(map[], map[], [], [], map[], false)

  datatype Step =
    | Register(t: Tid)       // umcg_register_server
    | StartWait(t: Tid)      // umcg_wait marks the server IDLE
    | EnterList(t: Tid)      // umcg_enqueue_idle_server
    | LeaveLoop(t: Tid)      // umcg_idle_loop sees RUNNING
    | Expire(t: Tid)         // umcg_idle_loop sees its timeout and not RUNNING
    | LeaveList(t: Tid)      // the section of umcg_process_timedout_server
    | StoreExpired(t: Tid)   // its status store
    | Dequeue(t: Tid)        // umcg_dequeue_idle_worker
    | Return(t: Tid)         // back to user space
    | Attach(t: Tid)         // umcg_ctx_switch from a server
    | Detach(t: Tid)         // umcg_wake_server
    | Enqueue(w: Tid)        // umcg_enqueue_idle_worker
    | Pop(w: Tid)            // the section of umcg_wake_idle_server
    | PopOnCommand(w: Tid)   // the same from umcg_wake, with no enqueue before
    | Store(w: Tid)          // its status store

  predicate Enabled(s: State, step: Step)
  {
    !s.killed &&
    match step
    case Register(t) => t !in s.pos
    case StartWait(t) => s.At(t, User)
    case EnterList(t) => s.At(t, Entering)
    case LeaveLoop(t) => s.At(t, InLoop) && s.Is(t, Running)
    case Expire(t) => s.At(t, InLoop) && s.Is(t, Idle)
    case LeaveList(t) => s.At(t, Expired)
    case StoreExpired(t) => s.At(t, OffList)
    case Dequeue(t) => s.At(t, Collecting) && s.idleWorkers != []
    case Return(t) => s.At(t, Collecting)
    case Attach(t) => s.At(t, User) && s.Is(t, Running)
    case Detach(t) => s.Is(t, Attached)
    case Enqueue(w) => w !in s.wakers && w !in s.idleWorkers
    case Pop(w) => w in s.wakers && s.wakers[w].Enqueued?
    case PopOnCommand(w) => w !in s.wakers && s.idleServers != []
    case Store(w) => w in s.wakers && s.wakers[w].Popped? && s.wakers[w].server in s.pos
  }

  function TakeServer(s: State, w: Tid): State
    requires s.idleServers != []
  {
    s.(idleServers := s.idleServers[1..], wakers := s.wakers[w := Popped(s.idleServers[0])])
  }

  function Apply(s: State, step: Step): State
    requires Enabled(s, step)
  {
    match step
    case Register(t) => s.Move(t, Running, User)
    case StartWait(t) => s.Move(t, Idle, Entering)
    case EnterList(t) =>
      if s.idleWorkers != [] then
        if s.Is(t, Idle) then s.Move(t, Running, InLoop) else s.(killed := true)
      else if t in s.idleServers then s.(killed := true)
      else s.(pos := s.pos[t := InLoop], idleServers := [t] + s.idleServers)
    case LeaveLoop(t) => s.(pos := s.pos[t := Collecting])
    case Expire(t) => s.(pos := s.pos[t := Expired])
    case LeaveList(t) => s.(pos := s.pos[t := OffList], idleServers := Without(s.idleServers, t))
    case StoreExpired(t) => s.Move(t, Running, Collecting)
    case Dequeue(t) => s.(idleWorkers := s.idleWorkers[1..])
    case Return(t) => s.(pos := s.pos[t := User])
    case Attach(t) => s.Move(t, Attached, InLoop)
    case Detach(t) => s.(status := s.status[t := Running])
    case Enqueue(w) => s.(idleWorkers := [w] + s.idleWorkers, wakers := s.wakers[w := Enqueued])
    case Pop(w) => if s.idleServers == [] then s.(wakers := s.wakers - {w}) else TakeServer(s, w)
    case PopOnCommand(w) => TakeServer(s, w)
    case Store(w) => s.(status := s.status[s.wakers[w].server := Running], wakers := s.wakers - {w})
  }

  predicate Legal(s: State, steps: seq<Step>)
    decreases |steps|
  {
    steps == [] || (Enabled(s, steps[0]) && Legal(Apply(s, steps[0]), steps[1..]))
  }

  function Exec(s: State, steps: seq<Step>): State
    requires Legal(s, steps)
    decreases |steps|
  {
    if steps == [] then s else Exec(Apply(s, steps[0]), steps[1..])
  }

  ghost predicate Reachable(s: State)
  {
    exists steps :: Legal(INITIAL, steps) && Exec(INITIAL, steps) == s
  }

  // -------------------------------------------------- no wakeup gets lost

  predicate WakeDue(s: State, w: Tid) { w in s.wakers && s.wakers[w] == Enqueued }

  predicate Wakes(wakers: map<Tid, Waker>, w: Tid, t: Tid) { w in wakers && wakers[w] == Popped(t) }

  predicate Asleep(status: map<Tid, Status>, pos: map<Tid, Position>, t: Tid)
  {
    t in pos && pos[t] == InLoop && t in status && status[t] == Idle
  }

  /** Work is waiting only while some server is off its list or a wake is due. */
  ghost predicate Watched(s: State)
  {
    s.idleWorkers != [] && s.pos.Keys != {} ==>
      (exists w :: WakeDue(s, w)) || (exists t :: t in s.pos && t !in s.idleServers)
  }

  /** A sleeping server is on the list or about to be woken. */
  ghost predicate Findable(s: State)
  {
    forall t :: Asleep(s.status, s.pos, t) ==> t in s.idleServers || exists w :: Wakes(s.wakers, w, t)
  }

  ghost predicate Inv(s: State)
  {
    && s.status.Keys == s.pos.Keys
    && NoDup(s.idleServers)
    && (forall t :: t in s.idleServers ==> t in s.pos)
    && Watched(s) && Findable(s)
  }

  lemma WatchedStep(s: State, step: Step)
    requires Inv(s) && Enabled(s, step)
    ensures Watched(Apply(s, step))
  {
    var r := Apply(s, step);
    if r.idleWorkers != [] && r.pos.Keys != {} {
      match step {
        case Register(t) =>
          assert t in r.pos && t !in r.idleServers;
        case LeaveList(t) =>
          assert t in r.pos && t !in r.idleServers;
        case Enqueue(w) =>
          assert WakeDue(r, w);
        case Pop(w) =>
          WatchedPop(s, w);
        case PopOnCommand(w) =>
          WatchedTake(s, w);
        case _ =>
          Unchanged(s, r);
      }
    }
  }

  lemma Unchanged(s: State, r: State)
    requires Watched(s) && s.pos.Keys == r.pos.Keys
    requires s.idleWorkers == [] ==> r.idleWorkers == []
    requires r.idleServers == s.idleServers || r.idleWorkers == []
    requires forall w :: WakeDue(s, w) ==> WakeDue(r, w)
    ensures Watched(r)
  {
    if r.idleWorkers != [] && r.pos.Keys != {} {
      if w :| WakeDue(s, w) {
        assert WakeDue(r, w);
      } else {
        var t :| t in s.pos && t !in s.idleServers;
        assert t in r.pos && t !in r.idleServers;
      }
    }
  }

  lemma WatchedTake(s: State, w: Tid)
    requires Inv(s) && s.idleServers != [] && w !in s.wakers
    ensures Watched(TakeServer(s, w))
  {
    var r := TakeServer(s, w);
    if r.idleWorkers != [] && r.pos.Keys != {} {
      if x :| WakeDue(s, x) {
        assert WakeDue(r, x);
      } else {
        var t :| t in s.pos && t !in s.idleServers;
        assert t in r.pos && t !in r.idleServers;
      }
    }
  }

  /** The heart of the matter: a thread that stops being due has taken a server
      off the list, or found none on it. */
  lemma WatchedPop(s: State, w: Tid)
    requires Inv(s) && WakeDue(s, w) && !s.killed
    ensures Watched(Apply(s, Pop(w)))
  {
    var r := Apply(s, Pop(w));
    if r.idleWorkers != [] && r.pos.Keys != {} {
      if s.idleServers == [] {
        var t :| t in r.pos.Keys;
        assert t in r.pos && t !in r.idleServers;
      } else {
        var t := s.idleServers[0];
        assert t in s.idleServers && t in r.pos && t !in r.idleServers;
      }
    }
  }

  lemma FindableStep(s: State, step: Step)
    requires Inv(s) && Enabled(s, step)
    ensures Findable(Apply(s, step))
  {
    var r := Apply(s, step);
    forall t | Asleep(r.status, r.pos, t) ensures t in r.idleServers || exists w :: Wakes(r.wakers, w, t) {
      if step == EnterList(t) {
      } else {
        assert Asleep(s.status, s.pos, t);
        if t in s.idleServers {
          if t !in r.idleServers {
            assert step.Pop? || step.PopOnCommand?;
            assert Wakes(r.wakers, step.w, t);
          }
        } else {
          var w :| Wakes(s.wakers, w, t);
          assert step != Store(w) && step != PopOnCommand(w);
          assert Wakes(r.wakers, w, t);
        }
      }
    }
  }

  lemma StepKeeps(s: State, step: Step)
    requires Inv(s) && Enabled(s, step)
    ensures Inv(Apply(s, step))
  {
    WatchedStep(s, step);
    FindableStep(s, step);
    if step.LeaveList? { WithoutNoDup(s.idleServers, step.t); }
    hide Watched, Findable;
  }

  lemma {:induction false} ExecKeeps(s: State, steps: seq<Step>)
    requires Inv(s) && Legal(s, steps)
    ensures Inv(Exec(s, steps))
    decreases |steps|
  {
    hide Inv;
    if steps != [] {
      StepKeeps(s, steps[0]);
      ExecKeeps(Apply(s, steps[0]), steps[1..]);
    }
  }

  lemma ReachableInv(s: State)
    requires Reachable(s)
    ensures Inv(s)
  {
    var steps :| Legal(INITIAL, steps) && Exec(INITIAL, steps) == s;
    ExecKeeps(INITIAL, steps);
  }

  /** When work is waiting and every registered server is on the idle list, some
      thread is between its enqueue and its wake. */
  lemma NoLostWakeup(s: State)
    requires Reachable(s) && s.idleWorkers != [] && s.pos.Keys != {}
    requires forall t :: t in s.pos ==> t in s.idleServers
    ensures exists w :: WakeDue(s, w)
  {
    ReachableInv(s);
  }

  /** The same for what matters to the workload: even if every server is asleep
      and the lists are out of date, some thread is on its way to wake one. */
  lemma NoSleepWithWorkWaiting(s: State)
    requires Reachable(s) && s.idleWorkers != [] && s.pos.Keys != {}
    requires forall t :: t in s.pos ==> Asleep(s.status, s.pos, t)
    ensures (exists w :: WakeDue(s, w)) || (exists w, t :: t in s.pos && Wakes(s.wakers, w, t))
  {
    ReachableInv(s);
    if w :| WakeDue(s, w) {
    } else {
      var t :| t in s.pos && t !in s.idleServers;
      assert Asleep(s.status, s.pos, t);
      var w :| Wakes(s.wakers, w, t);
    }
  }

  // ------------------------------------------------------ both lists are stacks

  datatype Kind = IdleServers | IdleWorkers

  function ListOf(k: Kind, s: State): seq<Tid> { if k.IdleServers? then s.idleServers else s.idleWorkers }

  lemma StackStep(k: Kind, s: State, step: Step)
    requires Enabled(s, step)
    ensures Stacks(ListOf(k, s), ListOf(k, Apply(s, step)))
  {
    hide Rest;
    var list := ListOf(k, s);
    RestDrop(list, 0);
    assert list[0..] == list;
    if list != [] { RestDrop(list, 1); }
    if step.LeaveList? { RestWithout(s.idleServers, step.t); }
  }

  lemma {:induction false} ExecLast(s: State, steps: seq<Step>)
    requires Legal(s, steps) && steps != []
    ensures var (init, last) := (steps[..|steps| - 1], steps[|steps| - 1]);
            Legal(s, init) && Enabled(Exec(s, init), last) && Exec(s, steps) == Apply(Exec(s, init), last)
    decreases |steps|
  {
    hide Apply, Enabled;
    if |steps| == 1 {
      assert steps[..0] == [] && steps[1..] == [];
    } else {
      ExecLast(Apply(s, steps[0]), steps[1..]);
      assert steps[1..][..|steps| - 2] == steps[..|steps| - 1][1..];
    }
  }

  /** When `x` last went onto the list, counted in steps of the run. */
  ghost function Since(k: Kind, steps: seq<Step>, x: Tid): (n: nat)
    requires Legal(INITIAL, steps)
    ensures n <= |steps|
  {
    if steps == [] then 0
    else
      var init := steps[..|steps| - 1];
      ExecLast(INITIAL, steps);
      if x !in ListOf(k, Exec(INITIAL, init)) && x in ListOf(k, Exec(INITIAL, steps)) then |steps|
      else Since(k, init, x)
  }

  lemma NothingBefore(k: Kind, a: Tid, b: Tid)
    ensures !Before(ListOf(k, INITIAL), a, b)
  {
  }

  lemma {:induction false} ListIsStack(k: Kind, steps: seq<Step>, a: Tid, b: Tid)
    requires Legal(INITIAL, steps) && Before(ListOf(k, Exec(INITIAL, steps)), a, b)
    ensures Since(k, steps, a) > Since(k, steps, b)
    decreases |steps|
  {
    hide Apply, Enabled, Before, Stacks, ListOf;
    if steps == [] {
      NothingBefore(k, a, b);
    } else {
      ExecLast(INITIAL, steps);
      var q, r := Exec(INITIAL, steps[..|steps| - 1]), Exec(INITIAL, steps);
      StackStep(k, q, steps[|steps| - 1]);
      StackCases(ListOf(k, q), ListOf(k, r), a, b);
      hide Legal, Exec;
      if a in ListOf(k, q) { ListIsStack(k, steps[..|steps| - 1], a, b); }
    }
  }

  /** A waker takes the server that went onto the list last, and a collector the
      worker that did. */
  lemma TheLatestIsTaken(steps: seq<Step>, step: Step, x: Tid)
    requires Legal(INITIAL, steps) && Enabled(Exec(INITIAL, steps), step)
    requires step.Pop? || step.PopOnCommand? || step.Dequeue?
    requires x in ListOf(if step.Dequeue? then IdleWorkers else IdleServers, Exec(INITIAL, steps))
    ensures var (k, s, r) := (if step.Dequeue? then IdleWorkers else IdleServers, Exec(INITIAL, steps),
              Apply(Exec(INITIAL, steps), step));
            && ListOf(k, s) != [] && ListOf(k, r) == ListOf(k, s)[1..]
            && (!step.Dequeue? ==> step.w in r.wakers && r.wakers[step.w] == Popped(s.idleServers[0]))
            && (x != ListOf(k, s)[0] ==> Since(k, steps, x) < Since(k, steps, ListOf(k, s)[0]))
  {
    var k, s := if step.Dequeue? then IdleWorkers else IdleServers, Exec(INITIAL, steps);
    var list := ListOf(k, s);
    var j :| 0 <= j < |list| && list[j] == x;
    if x != list[0] {
      assert Before(list, list[0], x);
      ListIsStack(k, steps, list[0], x);
    }
  }

  // -------------------------------- the status store behind the second section

  ghost predicate Untimed(steps: seq<Step>) { forall i :: 0 <= i < |steps| ==> !steps[i].Expire? }

  /** Where a server is and what its status is, with or without timeouts. */
  ghost predicate Places(status: map<Tid, Status>, pos: map<Tid, Position>)
  {
    && status.Keys == pos.Keys
    && (forall t :: t in pos && status[t] == Attached ==> pos[t] == InLoop)
    && (forall t :: t in pos && (pos[t] == User || pos[t] == Collecting) ==> status[t] == Running)
  }

  ghost predicate Known(pos: map<Tid, Position>, list: seq<Tid>, wakers: map<Tid, Waker>)
  {
    && NoDup(list)
    && (forall t :: t in list ==> t in pos)
    && (forall w, t :: Wakes(wakers, w, t) ==> t in pos)
  }

  ghost predicate Shape(s: State) { Places(s.status, s.pos) && Known(s.pos, s.idleServers, s.wakers) }

  lemma KnownStep(s: State, step: Step)
    requires Known(s.pos, s.idleServers, s.wakers) && Enabled(s, step)
    ensures Known(Apply(s, step).pos, Apply(s, step).idleServers, Apply(s, step).wakers)
  {
    var r := Apply(s, step);
    if step.LeaveList? { WithoutNoDup(s.idleServers, step.t); }
    if s.idleServers != [] { assert s.idleServers[0] in s.idleServers; }
    assert forall t :: t in s.pos ==> t in r.pos;
    assert forall w, t :: Wakes(r.wakers, w, t) ==> Wakes(s.wakers, w, t) || t in s.idleServers;
  }

  lemma ShapeStep(s: State, step: Step)
    requires Shape(s) && Enabled(s, step)
    ensures Shape(Apply(s, step))
  {
    KnownStep(s, step);
    hide Known;
  }

  /** The late store cannot harm server `t`: if it is listed it sleeps; if it is
      popped it sleeps, is off the list, and one thread holds it; and if it is
      about to enter the list it is IDLE. */
  ghost predicate SafeFor(s: State, t: Tid)
  {
    && (t in s.idleServers ==> Asleep(s.status, s.pos, t))
    && (forall w :: Wakes(s.wakers, w, t) ==> Asleep(s.status, s.pos, t) && t !in s.idleServers)
    && (forall w, x :: Wakes(s.wakers, w, t) && Wakes(s.wakers, x, t) ==> w == x)
    && (s.At(t, Entering) ==> s.Is(t, Idle))
  }

  ghost predicate Safe(s: State) { !s.killed && forall t :: SafeFor(s, t) }

  /** A popped server is taken off the list. */
  lemma TakeSafe(s: State, w: Tid, t: Tid)
    requires Shape(s) && SafeFor(s, t) && s.idleServers != [] && (w !in s.wakers || s.wakers[w].Enqueued?)
    ensures SafeFor(TakeServer(s, w), t)
  {
    var r := TakeServer(s, w);
    var u := s.idleServers[0];
    assert u in s.idleServers;
    assert forall x :: x in r.idleServers <==> x in s.idleServers && x != u;
    assert forall x :: Wakes(r.wakers, x, t) <==> Wakes(s.wakers, x, t) || (x == w && u == t);
  }

  /** Only its own timeout can make a server unsafe. */
  lemma SafeStep(s: State, step: Step, t: Tid)
    requires Shape(s) && SafeFor(s, t) && Enabled(s, step) && step != Expire(t)
    ensures SafeFor(Apply(s, step), t)
  {
    var r := Apply(s, step);
    match step {
      case Pop(w) =>
        if s.idleServers != [] { TakeSafe(s, w, t); }
        else { assert forall x :: Wakes(r.wakers, x, t) ==> Wakes(s.wakers, x, t); }
      case PopOnCommand(w) => TakeSafe(s, w, t);
      case Store(w) =>
        assert Wakes(s.wakers, w, s.wakers[w].server);
        assert forall x :: Wakes(r.wakers, x, t) ==> Wakes(s.wakers, x, t) && x != w;
      case Enqueue(w) =>
        assert forall x :: Wakes(r.wakers, x, t) <==> Wakes(s.wakers, x, t);
      case _ =>
        assert r.wakers == s.wakers;
    }
  }

  /** A kill hits an unsafe server, and so does a store over ATTACHED. */
  lemma HarmIsUnsafe(s: State, step: Step)
    requires Shape(s) && Enabled(s, step) && Safe(s)
    ensures !Apply(s, step).killed
    ensures step.Store? ==> !s.Is(s.wakers[step.w].server, Attached)
  {
    if step.EnterList? {
      assert SafeFor(s, step.t);
    } else if step.Store? {
      assert SafeFor(s, s.wakers[step.w].server) && Wakes(s.wakers, step.w, s.wakers[step.w].server);
    }
  }

  lemma {:induction false} ShapeRun(s: State, steps: seq<Step>)
    requires Shape(s) && Legal(s, steps)
    ensures Shape(Exec(s, steps))
    decreases |steps|
  {
    if steps != [] {
      ShapeStep(s, steps[0]);
      hide Shape;
      ShapeRun(Apply(s, steps[0]), steps[1..]);
    }
  }

  lemma {:induction false} SafeForRun(s: State, steps: seq<Step>, t: Tid)
    requires Shape(s) && SafeFor(s, t) && Legal(s, steps) && Expire(t) !in steps
    ensures SafeFor(Exec(s, steps), t)
    decreases |steps|
  {
    hide Shape, SafeFor;
    if steps != [] {
      assert steps[0] in steps && forall x :: x in steps[1..] ==> x in steps;
      ShapeStep(s, steps[0]);
      SafeStep(s, steps[0], t);
      SafeForRun(Apply(s, steps[0]), steps[1..], t);
    }
  }

  /** A server that never times out itself: whatever the timeouts of the others do,
      the late status store finds it IDLE in its idle loop, and its own enqueue
      does not kill. */
  lemma StoreFindsTheUntimedServerAsleep(steps: seq<Step>, t: Tid)
    requires Legal(INITIAL, steps) && Expire(t) !in steps
    ensures var s := Exec(INITIAL, steps);
            && (forall w :: Wakes(s.wakers, w, t) ==> Asleep(s.status, s.pos, t))
            && (Enabled(s, EnterList(t)) ==> !Apply(s, EnterList(t)).killed)
  {
    SafeForRun(INITIAL, steps, t);
  }

  lemma {:induction false} SafeRun(s: State, steps: seq<Step>)
    requires Shape(s) && Safe(s) && Legal(s, steps) && Untimed(steps)
    ensures Safe(Exec(s, steps)) && Shape(Exec(s, steps))
    decreases |steps|
  {
    hide Shape, SafeFor;
    if steps != [] {
      ShapeStep(s, steps[0]);
      HarmIsUnsafe(s, steps[0]);
      forall t ensures SafeFor(Apply(s, steps[0]), t) { SafeStep(s, steps[0], t); }
      SafeRun(Apply(s, steps[0]), steps[1..]);
    }
  }

  // ------------------------------------------------ what an unsafe state leads to

  /** A thread is about to store RUNNING over the ATTACHED of server `t`. */
  predicate Overwrites(s: State, w: Tid) { Enabled(s, Store(w)) && s.Is(s.wakers[w].server, Attached) }

  ghost predicate Harm(s: State) { s.killed || exists w :: Overwrites(s, w) }

  /** `r` is reached from `s` without any further timeout. */
  ghost predicate Goes(s: State, r: State)
  {
    exists steps :: Legal(s, steps) && Untimed(steps) && Exec(s, steps) == r
  }

  lemma {:induction false} ExecSnoc(s: State, steps: seq<Step>, step: Step)
    requires Legal(s, steps) && Enabled(Exec(s, steps), step)
    ensures Legal(s, steps + [step]) && Exec(s, steps + [step]) == Apply(Exec(s, steps), step)
    decreases |steps|
  {
    hide Apply, Enabled;
    if steps == [] {
      assert Legal(Apply(s, step), []);
    } else {
      ExecSnoc(Apply(s, steps[0]), steps[1..], step);
      assert (steps + [step])[1..] == steps[1..] + [step];
    }
  }

  lemma Stay(s: State)
    ensures Goes(s, s)
  {
    assert Legal(s, []) && Untimed([]) && Exec(s, []) == s;
  }

  lemma Go(s: State, r: State, step: Step)
    requires Goes(s, r) && Shape(r) && Enabled(r, step) && !step.Expire?
    ensures Goes(s, Apply(r, step)) && Shape(Apply(r, step))
  {
    ShapeStep(r, step);
    hide Apply, Enabled, Shape;
    var steps :| Legal(s, steps) && Untimed(steps) && Exec(s, steps) == r;
    ExecSnoc(s, steps, step);
  }

  lemma Fresh(s: State) returns (w: Tid)
    ensures w !in s.wakers && w !in s.idleWorkers
  {
    w := Unused(s.wakers.Keys + set x | x in s.idleWorkers);
  }

  /** Work is put on the list for server `t` to find. */
  lemma EnteringKills(s: State, r: State, t: Tid)
    requires Goes(s, r) && Shape(r) && !r.killed && r.At(t, Entering) && !r.Is(t, Idle)
    ensures exists f :: Goes(s, f) && Harm(f)
  {
    hide Goes;
    var x := Fresh(r);
    Go(s, r, Enqueue(x));
    var r1 := Apply(r, Enqueue(x));
    Go(s, r1, EnterList(t));
    assert Apply(r1, EnterList(t)).killed;
  }

  /** A server in user space with a store still aimed at it: it attaches and the
      store hits ATTACHED. */
  lemma UserIsOverwritten(s: State, r: State, w: Tid, t: Tid)
    requires Goes(s, r) && Shape(r) && !r.killed && r.At(t, User) && Wakes(r.wakers, w, t)
    ensures Goes(s, Apply(r, Attach(t))) && Overwrites(Apply(r, Attach(t)), w)
  {
    hide Goes;
    Go(s, r, Attach(t));
  }

  /** Or it waits again, and the store makes its enqueue kill. */
  lemma UserIsKilled(s: State, r: State, w: Tid, t: Tid) returns (f: State)
    requires Goes(s, r) && Shape(r) && !r.killed && r.At(t, User) && Wakes(r.wakers, w, t)
    ensures Goes(s, f) && f.killed
  {
    hide Goes;
    Go(s, r, StartWait(t));
    var r1 := Apply(r, StartWait(t));
    var x := Fresh(r1);
    Go(s, r1, Enqueue(x));
    var r2 := Apply(r1, Enqueue(x));
    assert Wakes(r2.wakers, w, t);
    Go(s, r2, Store(w));
    var r3 := Apply(r2, Store(w));
    Go(s, r3, EnterList(t));
    f := Apply(r3, EnterList(t));
  }

  /** A server that is awake, neither entering the list nor attached, can get to
      user space on its own. */
  lemma ToUser(s: State, r: State, t: Tid) returns (f: State)
    requires Goes(s, r) && Shape(r) && !r.killed && t in r.pos && !Asleep(r.status, r.pos, t)
    requires r.pos[t] != Entering && r.status[t] != Attached
    ensures Goes(s, f) && Shape(f) && !f.killed && f.At(t, User) && f.wakers == r.wakers
  {
    hide Goes;
    f := r;
    if f.pos[t] == Expired {
      Go(s, f, LeaveList(t));
      f := Apply(f, LeaveList(t));
    }
    if f.pos[t] == OffList {
      Go(s, f, StoreExpired(t));
      f := Apply(f, StoreExpired(t));
    }
    if f.pos[t] == InLoop {
      Go(s, f, LeaveLoop(t));
      f := Apply(f, LeaveLoop(t));
    }
    if f.pos[t] == Collecting {
      Go(s, f, Return(t));
      f := Apply(f, Return(t));
    }
  }

  lemma PoppedAwakeHarms(s: State, r: State, w: Tid, t: Tid)
    requires Goes(s, r) && Shape(r) && !r.killed && Wakes(r.wakers, w, t) && !Asleep(r.status, r.pos, t)
    ensures exists f :: Goes(s, f) && Harm(f)
  {
    if r.pos[t] == Entering {
      hide Goes;
      if r.Is(t, Idle) {
        Go(s, r, Store(w));
        EnteringKills(s, Apply(r, Store(w)), t);
      } else {
        EnteringKills(s, r, t);
      }
    } else if r.status[t] == Attached {
      assert Overwrites(r, w);
    } else {
      var f := ToUser(s, r, t);
      UserIsOverwritten(s, f, w, t);
    }
  }

  /** Popping every server in front of it pops server `t`. */
  lemma {:induction false} ListedAwakeHarms(s: State, r: State, t: Tid)
    requires Goes(s, r) && Shape(r) && !r.killed && t in r.idleServers && !Asleep(r.status, r.pos, t)
    ensures exists f :: Goes(s, f) && Harm(f)
    decreases |r.idleServers|
  {
    hide Goes, Harm;
    var x := Fresh(r);
    Go(s, r, PopOnCommand(x));
    var r1 := Apply(r, PopOnCommand(x));
    if r.idleServers[0] == t {
      assert Wakes(r1.wakers, x, t);
      PoppedAwakeHarms(s, r1, x, t);
    } else {
      ListedAwakeHarms(s, r1, t);
    }
  }

  lemma UnsafeHarms(s: State, t: Tid)
    requires Shape(s) && !s.killed && !SafeFor(s, t)
    ensures exists f :: Goes(s, f) && Harm(f)
  {
    Stay(s);
    hide Goes, Harm;
    if t in s.idleServers && !Asleep(s.status, s.pos, t) {
      ListedAwakeHarms(s, s, t);
    } else if s.At(t, Entering) && !s.Is(t, Idle) {
      EnteringKills(s, s, t);
    } else {
      var w :| Wakes(s.wakers, w, t);
      if w' :| Wakes(s.wakers, w', t) && !Asleep(s.status, s.pos, t) {
        PoppedAwakeHarms(s, s, w', t);
      } else {
        var y, x :| Wakes(s.wakers, y, t) && (t in s.idleServers || (Wakes(s.wakers, x, t) && x != y));
        Go(s, s, Store(y));
        var r := Apply(s, Store(y));
        if t in s.idleServers { ListedAwakeHarms(s, r, t); }
        else {
          assert Wakes(r.wakers, x, t);
          PoppedAwakeHarms(s, r, x, t);
        }
      }
    }
  }

  lemma ReachableShape(s: State)
    requires Reachable(s)
    ensures Shape(s)
  {
    var steps :| Legal(INITIAL, steps) && Exec(INITIAL, steps) == s;
    ShapeRun(INITIAL, steps);
  }

  /** The exact condition: without any further timeout, a run can be continued to a
      kill or to a store over ATTACHED if and only if some server is unsafe. */
  lemma HarmIffUnsafe(s: State)
    requires Reachable(s)
    ensures (exists f :: Goes(s, f) && Harm(f)) <==> !Safe(s)
  {
    ReachableShape(s);
    if !Safe(s) {
      if s.killed {
        Stay(s);
        assert Harm(s);
      } else {
        var t :| !SafeFor(s, t);
        UnsafeHarms(s, t);
      }
    } else if f :| Goes(s, f) && Harm(f) {
      var steps :| Legal(s, steps) && Untimed(steps) && Exec(s, steps) == f;
      SafeRun(s, steps);
      var w :| Overwrites(f, w);
      HarmIsUnsafe(f, Store(w));
    }
  }

  /** A worker's report ends its server's stay in the idle loop. */
  lemma ReportEndsTheLoop(s: State, t: Tid)
    requires Reachable(s) && Enabled(s, Detach(t))
    ensures Enabled(Apply(s, Detach(t)), LeaveLoop(t))
  {
    ReachableShape(s);
  }

  /** Every timeout of a server opens that window: a server in its idle loop is
      listed or popped. */
  lemma EveryTimeoutIsUnsafe(s: State, t: Tid)
    requires Reachable(s) && Enabled(s, Expire(t))
    ensures !SafeFor(Apply(s, Expire(t)), t)
  {
    ReachableInv(s);
    assert Asleep(s.status, s.pos, t);
    if t !in s.idleServers {
      var w :| Wakes(s.wakers, w, t);
      assert Wakes(Apply(s, Expire(t)).wakers, w, t);
    }
  }

  lemma Reach(s: State, step: Step)
    requires Reachable(s) && Enabled(s, step)
    ensures Reachable(Apply(s, step))
  {
    hide Apply, Enabled;
    var steps :| Legal(INITIAL, steps) && Exec(INITIAL, steps) == s;
    ExecSnoc(INITIAL, steps, step);
  }

  /** A server asleep on the list. */
  lemma Listed() returns (s: State)
    ensures Reachable(s) && s == State(map[0 := Idle], map[0 := InLoop], [], [0], map[], false)
  {
    assert Reachable(INITIAL) by { assert Legal(INITIAL, []) && Exec(INITIAL, []) == INITIAL; }
    hide Reachable;
    Reach(INITIAL, Register(0));
    s := State(map[0 := Running], map[0 := User], [], [], map[], false);
    assert s == Apply(INITIAL, Register(0));
    Reach(s, StartWait(0));
    s := Apply(s, StartWait(0));
    Reach(s, EnterList(0));
    s := Apply(s, EnterList(0));
    assert s.idleServers == [0];
  }

  lemma {:induction false} ReachGoes(s: State, steps: seq<Step>)
    requires Reachable(s) && Legal(s, steps)
    ensures Reachable(Exec(s, steps))
    decreases |steps|
  {
    hide Reachable, Apply, Enabled;
    if steps != [] {
      Reach(s, steps[0]);
      ReachGoes(Apply(s, steps[0]), steps[1..]);
    }
  }

  /** It is popped, times out before its status is stored, and is back in user
      space. */
  lemma TimeoutBeforeTheStore() returns (s: State)
    ensures Reachable(s) && !s.killed && s.At(0, User) && Wakes(s.wakers, 1, 0)
  {
    var s0 := Listed();
    hide Reachable;
    Reach(s0, PopOnCommand(1));
    var s1 := Apply(s0, PopOnCommand(1));
    assert Wakes(s1.wakers, 1, 0) && Asleep(s1.status, s1.pos, 0);
    Reach(s1, Expire(0));
    var s2 := Apply(s1, Expire(0));
    ReachableShape(s2);
    Stay(s2);
    s := ToUser(s2, s2, 0);
    hide Apply, Enabled;
    var steps :| Legal(s2, steps) && Untimed(steps) && Exec(s2, steps) == s;
    ReachGoes(s2, steps);
  }

  /** So there is a run in which the enqueue of the server kills, and one in which
      ATTACHED is about to be overwritten. */
  lemma TimeoutsKillAndOverwrite() returns (k: State, r: State)
    ensures Reachable(k) && k.killed
    ensures Reachable(r) && Overwrites(r, 1)
  {
    var s := TimeoutBeforeTheStore();
    ReachableShape(s);
    Stay(s);
    k := UserIsKilled(s, s, 1, 0);
    UserIsOverwritten(s, s, 1, 0);
    r := Apply(s, Attach(0));
    var ks :| Legal(s, ks) && Untimed(ks) && Exec(s, ks) == k;
    ReachGoes(s, ks);
    Reach(s, Attach(0));
  }
}
