/** Legal runs that lead to where the Linux protocol stops being safe. */
module LinuxExamples {
  import opened Events
  import opened LinuxProtocol
  import opened LinuxRuns
  import opened LinuxOrder

  lemma {:induction false} ExecSnoc(s: State, steps: seq<Step>, step: Step, r: State)
    requires Legal(s, steps) && Exec(s, steps) == Live(r) && CanAct(r, step) && UserRule(r, step)
             && Apply(r, step).Live?
    ensures Legal(s, steps + [step]) && Exec(s, steps + [step]) == Apply(r, step)
    decreases |steps|
  {
    hide Apply, CanAct, UserRule;
    if steps == [] {
      assert Legal(Apply(r, step).state, []);
    } else {
      ExecSnoc(Apply(s, steps[0]).state, steps[1..], step, r);
      assert (steps + [step])[1..] == steps[1..] + [step];
    }
  }

  lemma Reach(s: State, step: Step, r: State)
    requires Reachable(s) && CanAct(s, step) && UserRule(s, step) && Apply(s, step) == Live(r)
    ensures Reachable(r)
  {
    hide Apply, CanAct, UserRule;
    var steps :| Legal(INITIAL, steps) && Exec(INITIAL, steps) == Live(s);
    ExecSnoc(INITIAL, steps, step, s);
  }

  /** A server 0 and the statuses of it and its worker 1. */
  function Pair(t: Status, w: Status): State { INITIAL.(status := map[0 := t, 1 := w]) }

  lemma Registered()
    ensures Reachable(Pair(SRunning, WBlocked))
  {
    assert Reachable(INITIAL) by { assert Legal(INITIAL, []) && Exec(INITIAL, []) == Live(INITIAL); }
    hide Reachable;
    var s := INITIAL.(status := map[0 := SRunning]);
    assert Apply(INITIAL, RegisterServer(0)) == Live(s);
    Reach(INITIAL, RegisterServer(0), s);
    assert Apply(s, RegisterWorker(1)) == Live(Pair(SRunning, WBlocked));
    Reach(s, RegisterWorker(1), Pair(SRunning, WBlocked));
  }

  lemma Entered()
    ensures Reachable(Pair(SRunning, WWaking).(idleWorkers := [1], inLoop := {0}))
  {
    Registered();
    hide Reachable;
    var s := Pair(SRunning, WWaking).(idleWorkers := [1]);
    assert Apply(Pair(SRunning, WBlocked), WorkerWake(1)) == Live(s);
    Reach(Pair(SRunning, WBlocked), WorkerWake(1), s);
    assert Apply(s, ServerWait(0, 2)) == Live(s.(inLoop := {0}));
    Reach(s, ServerWait(0, 2), s.(inLoop := {0}));
  }

  lemma Collected()
    ensures Reachable(Pair(SRunning, WRunnable).(credit := {1}))
  {
    Entered();
    hide Reachable;
    var s := Pair(SRunning, WWaking).(idleWorkers := [1], inLoop := {0});
    var s0 := s.(inLoop := {});
    var r := Pair(SRunning, WRunnable).(credit := {1});
    assert s.inLoop - {0} == {};
    assert CollectOne(s0) == Live(r);
    assert CollectIdle(r, 1) == Live(r);
    assert CollectIdle(s0, 2) == Live(r);
    assert Apply(s, Collect(0, 2)) == Live(r);
    Reach(s, Collect(0, 2), r);
  }

  const ATTACHED := Pair(SAttached, WRunning).(server := map[1 := 0], inLoop := {0})

  lemma Attached()
    ensures Reachable(ATTACHED)
  {
    Collected();
    hide Reachable;
    var s := Pair(SRunning, WRunnable).(credit := {1});
    assert Apply(s, SwitchFromServer(0, 1)) == Live(ATTACHED);
    Reach(s, SwitchFromServer(0, 1), ATTACHED);
  }

  /** A server woken with mail that may leave no room for it. */
  lemma MailWithoutRoom() returns (s: State)
    ensures Reachable(s) && CanAct(s, Collect(0, 0)) && 0 in s.mail
    ensures var o := Apply(s, Collect(0, 0)); o.Live? && Apply(o.state, ServerWait(0, 2)).Killed?
  {
    Attached();
    hide Reachable;
    s := Pair(SRunning, WBlocked).(mail := map[0 := Mail(1, Block)], inLoop := {0});
    assert Apply(ATTACHED, WorkerBlock(1)) == Live(s);
    Reach(ATTACHED, WorkerBlock(1), s);
  }

  /** A WAIT that a fault on the first word swallows: the server runs on, the
      worker is gone. */
  lemma SwallowedWait() returns (s: State)
    ensures Reachable(s) && s.Is(1, WRunnable) && s.lost == {1} && s.mail == map[] && s.credit == {}
  {
    Attached();
    hide Reachable;
    var r := Pair(SRunning, WRunnable).(mail := map[0 := Mail(1, Wait)], inLoop := {0}, waiting := {1});
    assert Apply(ATTACHED, WorkerWait(1, false)) == Live(r);
    Reach(ATTACHED, WorkerWait(1, false), r);
    s := Pair(SRunning, WRunnable).(waiting := {1}, lost := {1});
    assert r.inLoop - {0} == {} && r.mail - {0} == map[];
    assert Apply(r, LoseMail(0)) == Live(s);
    Reach(r, LoseMail(0), s);
  }

  /** A signal takes a server out of its switch and it goes back in with a
      timeout. */
  lemma TimedReentry()
    ensures Reachable(ATTACHED) && CanAct(ATTACHED, Reenter(0, Later))
    ensures !Survives(Apply(ATTACHED, Reenter(0, Later)))
  {
    Attached();
    ReentryIsSafeIffNoTimeoutWhileAttached(ATTACHED, 0, Later);
  }

  /** Servers 0 and 2 and worker 1. */
  function Trio(t: Status, u: Status, w: Status): State { INITIAL.(status := map[0 := t, 1 := w, 2 := u]) }

  lemma TwoServers()
    ensures Reachable(Trio(SRunning, SRunning, WBlocked))
  {
    Registered();
    hide Reachable;
    assert Apply(Pair(SRunning, WBlocked), RegisterServer(2)) == Live(Trio(SRunning, SRunning, WBlocked));
    Reach(Pair(SRunning, WBlocked), RegisterServer(2), Trio(SRunning, SRunning, WBlocked));
  }

  lemma BothIdle()
    ensures Reachable(Trio(SIdle, SIdle, WBlocked).(idleServers := [0, 2], inLoop := {0, 2}))
  {
    TwoServers();
    hide Reachable;
    var s := Trio(SRunning, SRunning, WBlocked);
    var r := Trio(SRunning, SIdle, WBlocked).(idleServers := [2], inLoop := {2});
    assert Apply(s, ServerWait(2, 2)) == Live(r);
    Reach(s, ServerWait(2, 2), r);
    var q := Trio(SIdle, SIdle, WBlocked).(idleServers := [0, 2], inLoop := {0, 2});
    assert Apply(r, ServerWait(0, 2)) == Live(q);
    Reach(r, ServerWait(0, 2), q);
  }

  lemma WokenAndUntold()
    ensures Reachable(Trio(SRunning, SIdle, WWaking).(idleWorkers := [1], idleServers := [2], inLoop := {2}))
  {
    BothIdle();
    hide Reachable;
    var s := Trio(SIdle, SIdle, WBlocked).(idleServers := [0, 2], inLoop := {0, 2});
    var r := Trio(SRunning, SIdle, WWaking).(idleWorkers := [1], idleServers := [2], inLoop := {0, 2});
    assert Apply(s, WorkerWake(1)) == Live(r);
    Reach(s, WorkerWake(1), r);
    var q := r.(inLoop := {2});
    assert r.inLoop - {0} == {2} && CollectIdle(q, 1) == Live(q);
    assert Apply(r, Collect(0, 1)) == Live(q);
    Reach(r, Collect(0, 1), q);
  }

  /** A server woken for a worker has no room to be told of it and unregisters: work
      stays listed with the only server asleep. */
  lemma AbandonedWork() returns (s: State)
    ensures Reachable(s) && CanAct(s, Unregister(0)) && Attended(s) && Abandons(s, Unregister(0))
    ensures !Attended(Apply(s, Unregister(0)).state)
  {
    WokenAndUntold();
    s := Trio(SRunning, SIdle, WWaking).(idleWorkers := [1], idleServers := [2], inLoop := {2});
    hide Reachable;
    assert Serves(s, 2) && Alert(s, 0);
    UnregisterAttended(s, 0);
  }

  const TIMED := Pair(SRunning, WRunnable).(waiting := {1}, credit := {1}, armed := {1})

  lemma TimedWait()
    ensures Reachable(TIMED)
  {
    Attached();
    hide Reachable;
    var r := TIMED.(mail := map[0 := Mail(1, Wait)], inLoop := {0}, credit := {});
    assert Apply(ATTACHED, WorkerWait(1, true)) == Live(r);
    Reach(ATTACHED, WorkerWait(1, true), r);
    assert r.inLoop - {0} == {} && r.mail - {0} == map[];
    assert CollectIdle(TIMED, 0) == Live(TIMED);
    assert Apply(r, Collect(0, 1)) == Live(TIMED);
    Reach(r, Collect(0, 1), TIMED);
  }

  /** A worker in a timed wait that user space knows of: the kernel lets the server
      switch to it, and that kills once its timer has fired. */
  lemma TimedWaitInHand()
    ensures Reachable(TIMED) && UserMode(TIMED, 0) && TIMED.Is(0, SRunning) && 1 in TIMED.credit && 1 in TIMED.armed
    ensures CanAct(TIMED, WorkerTimeout(1))
    ensures var o := Apply(TIMED, WorkerTimeout(1)); o.Live? && Apply(o.state, SwitchFromServer(0, 1)).Killed?
  {
    TimedWait();
    hide Reachable;
  }
}
