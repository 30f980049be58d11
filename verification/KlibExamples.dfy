/** Runs of the klib protocol into a collection that can tear and a switch whose
    event can be lost. */
module KlibExamples {
  import opened Events
  import opened KlibProtocol
  import opened KlibRuns
  import opened KlibBuffer
  import opened KlibFaults

  lemma {:induction false} ExecSnoc(s: State, steps: seq<Step>, step: Step, r: State)
    requires Legal(s, steps) && Exec(s, steps) == Live(r) && CanAct(r, step) && Apply(r, step).Live?
    ensures Legal(s, steps + [step]) && Exec(s, steps + [step]) == Apply(r, step)
    decreases |steps|
  {
    hide Apply, CanAct;
    if steps == [] {
      assert Legal(Apply(r, step).state, []);
    } else {
      ExecSnoc(Apply(s, steps[0]).state, steps[1..], step, r);
      assert (steps + [step])[1..] == steps[1..] + [step];
    }
  }

  lemma Reach(s: State, step: Step)
    requires Reachable(s) && CanAct(s, step) && Apply(s, step).Live?
    ensures Reachable(Apply(s, step).state)
  {
    hide Apply, CanAct;
    var steps :| Legal(INITIAL, steps) && Exec(INITIAL, steps) == Live(s);
    ExecSnoc(INITIAL, steps, step, s);
  }

  /** Two workers have registered. */
  lemma TwoRegistered() returns (s: State)
    ensures Reachable(s) && s.idle == [1, 2] && s.workers.Keys == {1, 2} && s.slots == map[]
    ensures s.Is(1, Idle) && s.Is(2, Idle) && s.workers[1].event == Wake && s.workers[2].event == Wake
  {
    assert Reachable(INITIAL) by { assert Legal(INITIAL, []) && Exec(INITIAL, []) == Live(INITIAL); }
    hide Reachable;
    Reach(INITIAL, Register(1, 32));
    var s1 := Apply(INITIAL, Register(1, 32)).state;
    assert s1.idle == [1] && s1.workers.Keys == {1};
    Reach(s1, Register(2, 64));
    s := Apply(s1, Register(2, 64)).state;
  }

  /** Both have been collected. */
  lemma TwoRunnable() returns (s: State)
    ensures Reachable(s) && s.idle == [] && s.workers.Keys == {1, 2} && s.slots == map[]
    ensures s.Is(1, Runnable) && s.Is(2, Runnable)
  {
    var s0 := TwoRegistered();
    hide Reachable;
    Reach(s0, CollectStep(4));
    var s1 := TakeOne(s0);
    s := TakeOne(s1);
    assert Collect(s, 2) == (s, []);
    CollectUnfolds(s1, 3);
    CollectUnfolds(s0, 4);
  }

  lemma OneRunning() returns (s: State)
    ensures Reachable(s) && s.idle == [] && s.Is(1, Running) && s.Is(2, Runnable)
    ensures s.slots == map[0 := Empty(1)] && s.workers[1].server == 0
  {
    var s0 := TwoRunnable();
    hide Reachable;
    Reach(s0, SwitchFromServer(0, 1, 2));
    s := Apply(s0, SwitchFromServer(0, 1, 2)).state;
  }

  /** Its wait has filled the slot, and the first word of the buffer cannot be
      written: the worker is forgotten. */
  lemma LostWait() returns (s: State)
    ensures Reachable(s) && s.Is(1, Waiting) && 0 in s.slots && s.slots[0] == Full(Msg(1, Wait))
    ensures Loses(s, Return(0, 2, {0}), Msg(1, Wait)) == 1
    ensures Do(s, Return(0, 2, {0})).Live? && Forgotten(Do(s, Return(0, 2, {0})).state, 1)
  {
    var s0 := OneRunning();
    hide Reachable;
    Reach(s0, WaitStep(1, false));
    s := Apply(s0, WaitStep(1, false)).state;
  }

  /** One of them has swapped to the other with a timeout. */
  lemma TimedSwap() returns (s: State)
    ensures Reachable(s) && s.idle == [1] && s.Is(1, Idle) && s.workers[1].event == Wait && s.workers[1].timer
  {
    var s0 := OneRunning();
    hide Reachable;
    Reach(s0, SwitchFromWorker(1, 2, true));
    s := Apply(s0, SwitchFromWorker(1, 2, true)).state;
  }

  /** Its timer has fired. */
  lemma TimedOutSwap() returns (s: State)
    ensures Reachable(s) && s.idle == [1] && s.Is(1, IdleTimeout) && s.workers[1].event == Wait
  {
    var s0 := TimedSwap();
    hide Reachable;
    Reach(s0, TimerFires(1));
    s := Apply(s0, TimerFires(1)).state;
  }

  /** The write tears if the second word of the buffer cannot be written. */
  lemma TornRun() returns (s: State)
    ensures Reachable(s) && TearsAt(s, 2, 0, {1}, 0)
    ensures CollectInto(s, 2, 0, {1}).stop.Torn?
  {
    s := TimedOutSwap();
    assert s.idle[..0] == [];
  }
}
