/** No livelock: how many steps that get somewhere any run can have, and where a
    run that has run out of them has got to. */
module SchedulerBound {
  import opened Lists
  import opened KlibProtocol
  import opened Scheduler
  import opened SchedulerSystem
  import opened SchedulerSafety
  import opened SchedulerRuns
  import opened SchedulerProgress
  import K = KlibSafety

  /** A turn that finds nothing to do. */
  predicate Idles(s: System, step: Action)
  {
    match step
    case Schedule(v) => v in s.servers && (s.servers[v].pending == [] || s.flow.queue == [])
    case Gather => s.kernel.idle == []
    case Continue(w) => s.kernel.Is(w, Running)
    case _ => false
  }

  predicate Works(s: System, step: Action) { !Disturbs(step) && !Idles(s, step) }

  // ------------------------------------------------------ what each step costs

  lemma WorkStep(s: System, step: Action)
    requires Inv(s) && Enabled(s, step) && Works(s, step)
    ensures Closer(s, Next(s, step))
  {
    hide Inv, Next, Closer;
    match step {
      case Schedule(v) => ScheduleCloser(s, v);
      case Return(v) => ReturnCloser(s, v);
      case Receive(v) => ReceiveCloser(s, v);
      case Gather => GatherCloser(s);
      case Forward => ForwardCloser(s);
      case Awake(w) => AwakeCloser(s, w);
      case Continue(w) => ContinueCloser(s, w);
      case Begin(w) => BeginCloser(s, w);
      case End(w) => EndCloser(s, w);
      case Rest(w) => RestCloser(s, w);
    }
  }

  lemma SameView(s: System, v: Sid, r: System, w: Tid)
    requires Shape(s) && Shape(r) && v in s.servers && v in r.servers && w in s.owner
    requires r == s.(servers := s.servers[v := r.servers[v]]) && r.servers[v].states == s.servers[v].states
    ensures ViewOf(r, w) == ViewOf(s, w)
  {
    TransitSame(s, r);
    hide InTransit;
  }

  lemma SameWeights(s: System, r: System)
    requires Shape(s) && Shape(r) && r.owner == s.owner && r.routed == s.routed
    requires forall w :: w in s.owner ==> ViewOf(r, w) == ViewOf(s, w) && Held(r.flow, w) == Held(s.flow, w)
    ensures Sum(Weights(r)) == Sum(Weights(s))
  {
    hide Count, Held, Base, Shape, ViewOf;
    assert Weights(r) == Weights(s);
  }

  lemma SameWeight(s: System, v: Sid, r: System)
    requires Shape(s) && Shape(r) && v in s.servers && v in r.servers
    requires r == s.(servers := s.servers[v := r.servers[v]]) && r.servers[v].states == s.servers[v].states
    ensures Measure(r) == Measure(s)
  {
    hide Count, Held, Base, Shape, ViewOf;
    forall w | w in s.owner ensures ViewOf(r, w) == ViewOf(s, w) { SameView(s, v, r, w); }
    SameWeights(s, r);
  }

  lemma IdleStep(s: System, step: Action)
    requires Inv(s) && Enabled(s, step) && Idles(s, step)
    ensures Shape(s) && Shape(Next(s, step)) && Measure(Next(s, step)) == Measure(s)
    ensures Next(s, step).flow == s.flow && Next(s, step).owner == s.owner
  {
    hide Inv, Shape, Measure, QueuesOk, Choose;
    NextShape(s, step);
    match step {
      case Schedule(v) =>
        ServerFacts(s, v);
        ChooseKeepsQueues(s.servers[v], s.flow.queue);
        if s.servers[v].pending == [] {
          assert Next(s, step) == s;
        } else {
          SameWeight(s, v, Next(s, step));
        }
      case Gather => assert Next(s, step) == s;
      case Continue(w) =>
        assert s.kernel.workers[w := s.kernel.workers[w].(status := Running)] == s.kernel.workers;
        assert Next(s, step) == s;
    }
  }

  /** A worker's step that weighs on nobody else. */
  lemma WorkerFarther(s: System, w: Tid, r: System, d: nat)
    requires WorkerOnly(s, w, r) && Shape(s) && Shape(r)
    requires Base(ViewOf(r, w), Count(s.routed, w)) <= Base(ViewOf(s, w), Count(s.routed, w)) + d
    ensures Measure(r) <= Measure(s) + d
  {
    WorkerOthers(s, w, r);
    assert r.routed == s.routed && r.flow == s.flow;
    hide WorkerOnly, Shape, Base, ViewOf, Count, Held;
    SumOneMore(Weights(r), Weights(s), w, d);
  }

  lemma PauseFarther(s: System, w: Tid)
    requires Inv(s) && Enabled(s, Action.Pause(w))
    ensures Shape(s) && Shape(Next(s, Action.Pause(w))) && Measure(Next(s, Action.Pause(w))) <= Measure(s) + 1
  {
    hide Inv, K.Inv, Loops, Shape, Apply, Measure;
    NextShape(s, Action.Pause(w));
    AttachedFacts(s, w);
    InvParts(s);
    KernelStay(s.kernel, w);
    WorkerFarther(s, w, Next(s, Action.Pause(w)), 1);
  }

  lemma SleepFarther(s: System, w: Tid)
    requires Inv(s) && Enabled(s, Sleep(w))
    ensures Shape(s) && Shape(Next(s, Sleep(w))) && Measure(Next(s, Sleep(w))) <= Measure(s) + 5
  {
    hide Inv, K.Inv, Loops, Shape, Apply, Measure;
    NextShape(s, Sleep(w));
    AttachedFacts(s, w);
    InvParts(s);
    KernelSleep(s.kernel, w);
    WorkerFarther(s, w, Next(s, Sleep(w)), 5);
  }

  lemma SubmitFarther(s: System, x: TaskId)
    requires Inv(s) && Enabled(s, Submit(x))
    ensures Shape(s) && Shape(Next(s, Submit(x))) && Measure(Next(s, Submit(x))) <= Measure(s) + 5
  {
    hide Inv, Shape;
    NextShape(s, Submit(x));
    var r := Next(s, Submit(x));
    forall w | w in s.owner ensures ViewOf(r, w) == ViewOf(s, w) { FlowViews(s, r, w); }
    assert forall w :: Held(r.flow, w) == Held(s.flow, w);
    hide ViewOf, Held, Weights;
    SameWeights(s, r);
  }

  lemma DisturbingStep(s: System, step: Action)
    requires Inv(s) && Enabled(s, step) && Disturbs(step)
    ensures Shape(s) && Shape(Next(s, step)) && Measure(Next(s, step)) <= Measure(s) + 5
  {
    hide Inv, Shape, Next, Measure;
    match step {
      case Submit(x) => SubmitFarther(s, x);
      case Sleep(w) => SleepFarther(s, w);
      case Pause(w) => PauseFarther(s, w);
    }
  }

  // -------------------------------------------------------------- whole runs

  /** The steps of the run that get somewhere. */
  function Work(s: System, steps: seq<Action>): nat
    requires Legal(s, steps)
    decreases |steps|
  {
    if steps == [] then 0 else One(Works(s, steps[0])) + Work(Next(s, steps[0]), steps[1..])
  }

  function Disturbances(steps: seq<Action>): nat
  {
    if steps == [] then 0 else One(Disturbs(steps[0])) + Disturbances(steps[1..])
  }

  lemma StepCost(s: System, step: Action)
    requires Inv(s) && Enabled(s, step)
    ensures Inv(Next(s, step)) && Shape(s) && Shape(Next(s, step))
    ensures Measure(Next(s, step)) + One(Works(s, step)) <= Measure(s) + 5 * One(Disturbs(step))
  {
    hide Inv, Shape, Next, Measure, Idles, Disturbs;
    NextShape(s, step);
    if Disturbs(step) {
      DisturbingStep(s, step);
    } else if Idles(s, step) {
      IdleStep(s, step);
    } else {
      WorkStep(s, step);
    }
  }

  lemma {:induction false} RunCost(s: System, steps: seq<Action>)
    requires Inv(s) && Shape(s) && Legal(s, steps)
    ensures Work(s, steps) <= Measure(s) + 5 * Disturbances(steps)
    decreases |steps|
  {
    hide Inv, Shape, Next, Measure, Enabled, Works, Disturbs;
    if steps == [] {
    } else {
      StepCost(s, steps[0]);
      RunCost(Next(s, steps[0]), steps[1..]);
    }
  }

  /** No livelock: from every state of every run, however the parties interleave,
      the steps that are not turns without anything to do are at most the measure
      of that state and five more for each new task, pause or blocking. */
  lemma WorkIsBounded(s: System, steps: seq<Action>)
    requires Reachable(s) && Legal(s, steps)
    ensures Shape(s) && Work(s, steps) <= Measure(s) + 5 * Disturbances(steps)
  {
    hide Inv, Shape, Measure, Legal, Work;
    ReachableHolders(s);
    InvParts(s);
    RunCost(s, steps);
  }

  /** No party can get anywhere: what steps there are idle or come from outside. */
  ghost predicate Quiet(s: System)
  {
    forall step :: Enabled(s, step) ==> !Works(s, step)
  }

  lemma UsefulWorks(s: System, step: Action)
    requires Inv(s) && Useful(s, step)
    ensures Works(s, step)
  {
    hide Inv, Shape, Next, Measure, Enabled;
    if Idles(s, step) { IdleStep(s, step); }
  }

  /** And a run ends well wherever it comes to rest: when no party can get any
      further, every task accepted so far is done. */
  lemma QuietMeansDone(s: System)
    requires Reachable(s) && s.channelSize >= 1 && s.owner != map[] && Quiet(s)
    ensures AllDone(s, s.flow.accepted)
  {
    hide Inv, Shape, AllDone;
    ReachableHolders(s);
    if s.flow.queue == [] && forall w :: Held(s.flow, w) == 0 {
      DoneUnlessHeld(s);
    } else {
      var any :| any in s.owner;
      hide Held;
      var step := FindUseful(s, any);
      UsefulWorks(s, step);
    }
  }
}
