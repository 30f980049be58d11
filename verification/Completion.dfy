/** Deciding that all tasks are done from two counters read one after the other,
    while tasks submit further tasks to a bounded queue and a number of workers
    takes them from it. One step is one access to shared data. */
module Completion {
  import opened Lists
  import opened Events

  type Task = nat
  type Reader = nat

  /** The life of a task: entered in the map, counted in the total, queued (or
      refused by a full queue), running, body finished, entry set to true, and
      counted as completed. */
  datatype Stage = Entered | Counted | Queued | Dropped | Running | Finished | Marked | Done

  /** `parent` of a task submitted from outside is None. `loaded` holds the first
      load of every reader that is between its two loads. `queue` has its head
      first and room for `capacity` tasks. */
  datatype State = State(
    capacity: nat,
    workers: nat,
    queue: seq<Task>,
    entries: map<Task, bool>,
    total: nat,
    completed: nat,
    stage: map<Task, Stage>,
    parent: map<Task, Option<Task>>,
    open: bool,
    loaded: map<Reader, nat>)
  {
    predicate At(t: Task, st: Stage) { t in stage && stage[t] == st }

    predicate Full() { |queue| >= capacity }

    predicate Free() { |Busy(stage)| < workers }

    function Go(t: Task, st: Stage): State { this.(stage := stage[t := st]) }
  }

  /** There is no queue without room for a task. */
  ghost predicate Initial(s: State)
  {
    s.capacity >= 1 && s == State(s.capacity, s.workers, [], map[], 0, 0, map[], map[], true, map[])
  }

  /** A worker has its task from when the task leaves the queue until it has been
      counted as completed. */
  predicate Held(st: Stage) { st == Running || st == Finished || st == Marked }

  function Busy(stage: map<Task, Stage>): set<Task> { set t | t in stage && Held(stage[t]) }

  datatype Step =
    | Enter(t: Task, p: Option<Task>)  // register_task: insert
    | Count(t: Task)                   // register_task: fetch_add
    | Enqueue(t: Task)                 // refused by a full queue
    | Start(t: Task)                   // the head of the queue, for a free worker
    | Finish(t: Task)
    | Mark(t: Task)                    // mark_completed: the entry
    | Complete(t: Task)                // mark_completed: fetch_add
    | LoadCompleted(r: Reader)         // all_tasks_completed: first load
    | LoadTotal(r: Reader)             // second load, and the answer
    | Close                            // outside submissions stop

  /** A submission in progress: the submitter is still inside submit. */
  predicate Submitting(s: State, t: Task) { s.At(t, Entered) || s.At(t, Counted) }

  predicate Enabled(s: State, step: Step)
  {
    match step
    case Enter(t, p) => t !in s.stage && (if p.None? then s.open else s.At(p.value, Running))
    case Count(t) => s.At(t, Entered)
    case Enqueue(t) => s.At(t, Counted)
    case Start(t) => s.At(t, Queued) && s.queue != [] && t == s.queue[0] && s.Free()
    case Finish(t) => s.At(t, Running) && forall c :: c in s.parent && s.parent[c] == Some(t) ==> !Submitting(s, c)
    case Mark(t) => s.At(t, Finished)
    case Complete(t) => s.At(t, Marked)
    case LoadCompleted(r) => r !in s.loaded
    case LoadTotal(r) => r in s.loaded
    case Close => s.open && forall c :: c in s.parent && s.parent[c] == None ==> !Submitting(s, c)
  }

  function Apply(s: State, step: Step): State
    requires Enabled(s, step)
  {
    match step
    case Enter(t, p) => s.Go(t, Entered).(entries := s.entries[t := false], parent := s.parent[t := p])
    case Count(t) => s.Go(t, Counted).(total := s.total + 1)
    case Enqueue(t) => if s.Full() then s.Go(t, Dropped) else s.Go(t, Queued).(queue := s.queue + [t])
    case Start(t) => s.Go(t, Running).(queue := s.queue[1..])
    case Finish(t) => s.Go(t, Finished)
    case Mark(t) => s.Go(t, Marked).(entries := s.entries[t := true])
    case Complete(t) => s.Go(t, Done).(completed := s.completed + 1)
    case LoadCompleted(r) => s.(loaded := s.loaded[r := s.completed])
    case LoadTotal(r) => s.(loaded := s.loaded - {r})
    case Close => s.(open := false)
  }

  /** What all_tasks_completed answers at its second load. */
  predicate Answer(s: State, r: Reader)
    requires r in s.loaded
  {
    s.loaded[r] == s.total && s.total > 0
  }

  predicate Legal(s: State, steps: seq<Step>)
    decreases |steps|
  {
    steps == [] || (Enabled(s, steps[0]) && Legal(Apply(s, steps[0]), steps[1..]))
  }

  function Exec(s: State, steps: seq<Step>): State
    requires Legal(s, steps)
    decreases |steps|
  {
    if steps == [] then s else Exec(Apply(s, steps[0]), steps[1..])
  }

  ghost predicate Reachable(s: State)
  {
    exists init, steps :: Initial(init) && Legal(init, steps) && Exec(init, steps) == s
  }

  // -------------------------------------------------------------- invariant

  function Those(stage: map<Task, Stage>, st: Stage): set<Task> { set t | t in stage && stage[t] == st }

  function InTotal(stage: map<Task, Stage>): set<Task> { set t | t in stage && stage[t] != Entered }

  function InCompleted(stage: map<Task, Stage>): set<Task> { Those(stage, Done) }

  function TrueEntries(entries: map<Task, bool>): set<Task> { set t | t in entries && entries[t] }

  ghost predicate Counters(s: State)
  {
    && s.total == |InTotal(s.stage)|
    && s.completed == |InCompleted(s.stage)|
    && (forall r :: r in s.loaded ==> s.loaded[r] <= s.completed)
  }

  ghost predicate Matches(entries: map<Task, bool>, stage: map<Task, Stage>)
  {
    && entries.Keys == stage.Keys
    && (forall t :: t in entries ==> (entries[t] <==> stage[t] == Marked || stage[t] == Done))
  }

  ghost predicate Entries(s: State) { Matches(s.entries, s.stage) && s.stage.Keys == s.parent.Keys }

  /** A child is registered and queued while its parent is still running. */
  ghost predicate Family(s: State)
  {
    && (forall t :: Submitting(s, t) ==> t in s.parent)
    && (forall t :: Submitting(s, t) && s.parent[t].Some? ==> s.At(s.parent[t].value, Running))
    && (forall t :: Submitting(s, t) && s.parent[t].None? ==> s.open)
  }

  /** The queue holds the queued tasks, once each. */
  ghost predicate Lined(queue: seq<Task>, stage: map<Task, Stage>)
  {
    NoDup(queue) && forall t :: t in queue <==> t in stage && stage[t] == Queued
  }

  ghost predicate Inv(s: State)
  {
    && Counters(s) && Entries(s) && Family(s) && Lined(s.queue, s.stage)
    && s.capacity >= 1 && |s.queue| <= s.capacity && |Busy(s.stage)| <= s.workers
    && (s.workers == 0 ==> s.completed == 0)
  }

  lemma EnterSizes(stage: map<Task, Stage>, t: Task)
    requires t !in stage
    ensures |InTotal(stage[t := Entered])| == |InTotal(stage)|
    ensures |InCompleted(stage[t := Entered])| == |InCompleted(stage)|
  {
    assert InTotal(stage[t := Entered]) == InTotal(stage);
    assert InCompleted(stage[t := Entered]) == InCompleted(stage);
  }

  lemma CountSizes(stage: map<Task, Stage>, t: Task)
    requires t in stage && stage[t] == Entered
    ensures |InTotal(stage[t := Counted])| == |InTotal(stage)| + 1
    ensures |InCompleted(stage[t := Counted])| == |InCompleted(stage)|
  {
    assert InTotal(stage[t := Counted]) == InTotal(stage) + {t};
    assert InCompleted(stage[t := Counted]) == InCompleted(stage);
  }

  lemma MoveSizes(stage: map<Task, Stage>, t: Task, st: Stage)
    requires t in stage && stage[t] != Entered && stage[t] != Done && st != Entered
    ensures |InTotal(stage[t := st])| == |InTotal(stage)|
    ensures |InCompleted(stage[t := st])| == |InCompleted(stage)| + if st == Done then 1 else 0
  {
    MoveTotal(stage, t, st);
    MoveCompleted(stage, t, st);
    assert t !in InCompleted(stage);
    hide InTotal, InCompleted;
  }

  lemma MoveTotal(stage: map<Task, Stage>, t: Task, st: Stage)
    requires t in stage && stage[t] != Entered && st != Entered
    ensures InTotal(stage[t := st]) == InTotal(stage)
  {
  }

  lemma MoveCompleted(stage: map<Task, Stage>, t: Task, st: Stage)
    requires t in stage && stage[t] != Done
    ensures InCompleted(stage[t := st]) == InCompleted(stage) + if st == Done then {t} else {}
  {
  }

  lemma CountersStep(s: State, step: Step)
    requires Counters(s) && Enabled(s, step)
    ensures Counters(Apply(s, step))
  {
    hide InTotal, InCompleted, Those, Busy;
    match step {
      case Enter(t, _) => EnterSizes(s.stage, t);
      case Count(t) => CountSizes(s.stage, t);
      case Enqueue(t) => MoveSizes(s.stage, t, if s.Full() then Dropped else Queued);
      case Start(t) => MoveSizes(s.stage, t, Running);
      case Finish(t) => MoveSizes(s.stage, t, Finished);
      case Mark(t) => MoveSizes(s.stage, t, Marked);
      case Complete(t) => MoveSizes(s.stage, t, Done);
      case _ =>
    }
  }

  predicate Over(st: Stage) { st == Marked || st == Done }

  lemma MatchesPut(entries: map<Task, bool>, stage: map<Task, Stage>, t: Task, st: Stage)
    requires Matches(entries, stage)
    ensures Matches(entries[t := Over(st)], stage[t := st])
    ensures t in stage && Over(stage[t]) == Over(st) ==> Matches(entries, stage[t := st])
  {
  }

  lemma EntriesStep(s: State, step: Step)
    requires Entries(s) && Enabled(s, step)
    ensures Entries(Apply(s, step))
  {
    hide Matches, Busy;
    assert Apply(s, step).stage.Keys == Apply(s, step).parent.Keys;
    match step {
      case Enter(t, _) => MatchesPut(s.entries, s.stage, t, Entered);
      case Count(t) => MatchesPut(s.entries, s.stage, t, Counted);
      case Enqueue(t) => MatchesPut(s.entries, s.stage, t, if s.Full() then Dropped else Queued);
      case Start(t) => MatchesPut(s.entries, s.stage, t, Running);
      case Finish(t) => MatchesPut(s.entries, s.stage, t, Finished);
      case Mark(t) => MatchesPut(s.entries, s.stage, t, Marked);
      case Complete(t) => MatchesPut(s.entries, s.stage, t, Done);
      case _ =>
    }
  }

  lemma FamilyOf(s: State, step: Step, t: Task)
    requires Family(s) && s.stage.Keys == s.parent.Keys && Enabled(s, step) && Submitting(Apply(s, step), t)
    ensures var r := Apply(s, step);
            && t in r.parent
            && (r.parent[t].Some? ==> r.At(r.parent[t].value, Running))
            && (r.parent[t].None? ==> r.open)
  {
    hide Busy;
    if step.Enter? && t == step.t {
    } else {
      assert Submitting(s, t) && Apply(s, step).parent[t] == s.parent[t];
    }
  }

  lemma FamilyStep(s: State, step: Step)
    requires Family(s) && s.stage.Keys == s.parent.Keys && Enabled(s, step)
    ensures Family(Apply(s, step))
  {
    var r := Apply(s, step);
    hide Apply, Enabled, Busy;
    forall t | Submitting(r, t)
      ensures t in r.parent
      ensures r.parent[t].Some? ==> r.At(r.parent[t].value, Running)
      ensures r.parent[t].None? ==> r.open
    {
      FamilyOf(s, step, t);
    }
  }

  lemma LinedMove(queue: seq<Task>, stage: map<Task, Stage>, t: Task, st: Stage)
    requires Lined(queue, stage)
    ensures st != Queued && (t in stage ==> stage[t] != Queued) ==> Lined(queue, stage[t := st])
    ensures st == Queued && (t in stage ==> stage[t] != Queued) ==> Lined(queue + [t], stage[t := st])
    ensures st != Queued && queue != [] && t == queue[0] ==> Lined(queue[1..], stage[t := st])
  {
    if queue != [] { assert forall x :: x in queue[1..] <==> x in queue && x != queue[0]; }
  }

  lemma LinedStep(s: State, step: Step)
    requires Lined(s.queue, s.stage) && Enabled(s, step)
    ensures Lined(Apply(s, step).queue, Apply(s, step).stage)
  {
    hide Busy, Lined;
    match step {
      case Enter(t, _) => LinedMove(s.queue, s.stage, t, Entered);
      case Count(t) => LinedMove(s.queue, s.stage, t, Counted);
      case Enqueue(t) => LinedMove(s.queue, s.stage, t, if s.Full() then Dropped else Queued);
      case Start(t) => LinedMove(s.queue, s.stage, t, Running);
      case Finish(t) => LinedMove(s.queue, s.stage, t, Finished);
      case Mark(t) => LinedMove(s.queue, s.stage, t, Marked);
      case Complete(t) => LinedMove(s.queue, s.stage, t, Done);
      case _ =>
    }
  }

  lemma BusyIs(stage: map<Task, Stage>, t: Task, st: Stage)
    ensures Busy(stage[t := st]) == if Held(st) then Busy(stage) + {t} else Busy(stage) - {t}
    ensures t in Busy(stage) <==> t in stage && Held(stage[t])
  {
    hide Held;
  }

  lemma BusyPut(stage: map<Task, Stage>, t: Task, st: Stage)
    ensures (t in stage && Held(stage[t])) == Held(st) ==> |Busy(stage[t := st])| == |Busy(stage)|
    ensures t in stage && Held(stage[t]) && !Held(st) ==> |Busy(stage[t := st])| == |Busy(stage)| - 1
    ensures |Busy(stage[t := st])| <= |Busy(stage)| + 1
  {
    hide Busy, Held;
    BusyIs(stage, t, st);
    var b := Busy(stage);
    assert t in b ==> b + {t} == b;
    assert t !in b ==> b - {t} == b;
  }

  lemma BusyStep(s: State, step: Step)
    requires |Busy(s.stage)| <= s.workers && (s.workers == 0 ==> s.completed == 0) && Enabled(s, step)
    ensures |Busy(Apply(s, step).stage)| <= s.workers && (s.workers == 0 ==> Apply(s, step).completed == 0)
  {
    if step.Complete? { assert step.t in Busy(s.stage); }
    hide Busy;
    match step {
      case Enter(t, _) => BusyPut(s.stage, t, Entered);
      case Count(t) => BusyPut(s.stage, t, Counted);
      case Enqueue(t) => BusyPut(s.stage, t, if s.Full() then Dropped else Queued);
      case Start(t) => BusyPut(s.stage, t, Running);
      case Finish(t) => BusyPut(s.stage, t, Finished);
      case Mark(t) => BusyPut(s.stage, t, Marked);
      case Complete(t) => BusyPut(s.stage, t, Done);
      case _ =>
    }
  }

  lemma FrameStep(s: State, step: Step)
    requires Enabled(s, step) && |s.queue| <= s.capacity
    ensures var r := Apply(s, step);
            r.capacity == s.capacity && r.workers == s.workers && |r.queue| <= r.capacity
  {
    hide Busy;
  }

  lemma StepInv(s: State, step: Step)
    requires Inv(s) && Enabled(s, step)
    ensures Inv(Apply(s, step))
  {
    hide Counters, Family, Matches, Lined, Busy;
    CountersStep(s, step);
    EntriesStep(s, step);
    FamilyStep(s, step);
    LinedStep(s, step);
    BusyStep(s, step);
    FrameStep(s, step);
    hide Apply, Enabled;
  }

  lemma HeadIsQueued(s: State)
    requires Lined(s.queue, s.stage) && s.queue != []
    ensures s.At(s.queue[0], Queued)
  {
    assert s.queue[0] in s.queue;
  }

  lemma {:induction false} ExecKeeps(s: State, steps: seq<Step>)
    requires Inv(s) && Legal(s, steps)
    ensures Inv(Exec(s, steps))
    decreases |steps|
  {
    if steps != [] {
      StepInv(s, steps[0]);
      hide Inv;
      ExecKeeps(Apply(s, steps[0]), steps[1..]);
    }
  }

  lemma ReachableInv(s: State)
    requires Reachable(s)
    ensures Inv(s)
  {
    var init, steps :| Initial(init) && Legal(init, steps) && Exec(init, steps) == s;
    assert InTotal(map[]) == {} && InCompleted(map[]) == {} && Busy(map[]) == {};
    ExecKeeps(init, steps);
  }

  // ------------------------------------------------------------ the results

  lemma TotalPlusEntered(stage: map<Task, Stage>)
    ensures |InTotal(stage)| + |Those(stage, Entered)| == |stage|
  {
    assert InTotal(stage) !! Those(stage, Entered);
    assert stage.Keys == InTotal(stage) + Those(stage, Entered);
  }

  lemma DonePlusMarked(stage: map<Task, Stage>, entries: map<Task, bool>)
    requires entries.Keys == stage.Keys
    requires forall t :: t in entries ==> (entries[t] <==> stage[t] == Marked || stage[t] == Done)
    ensures |InCompleted(stage)| + |Those(stage, Marked)| == |TrueEntries(entries)|
  {
    assert InCompleted(stage) !! Those(stage, Marked);
    assert TrueEntries(entries) == InCompleted(stage) + Those(stage, Marked);
  }

  /** The counters refine the map: they differ from the sizes of its contents by
      the updates in flight, and agree with them when there is none. */
  lemma CountersRefineMap(s: State)
    requires Reachable(s)
    ensures s.total + |Those(s.stage, Entered)| == |s.entries|
    ensures s.completed + |Those(s.stage, Marked)| == |TrueEntries(s.entries)|
  {
    hide InTotal, InCompleted, Those, TrueEntries, Family;
    ReachableInv(s);
    TotalPlusEntered(s.stage);
    DonePlusMarked(s.stage, s.entries);
    assert |s.entries| == |s.entries.Keys| == |s.stage.Keys| == |s.stage|;
  }

  lemma {:induction false} SameSize(a: set<Task>, b: set<Task>)
    requires a <= b && |a| == |b|
    ensures a == b
  {
    if a != {} {
      var x :| x in a;
      SameSize(a - {x}, b - {x});
      assert b == (b - {x}) + {x};
    }
  }

  lemma AnswerMeansDone(s: State, r: Reader)
    requires Counters(s) && r in s.loaded && Answer(s, r)
    ensures s.completed == s.total && InTotal(s.stage) == InCompleted(s.stage)
  {
    SubsetSize(InCompleted(s.stage), InTotal(s.stage));
    SameSize(InCompleted(s.stage), InTotal(s.stage));
  }

  /** A true answer is correct when it is given, whatever happened between the two
      loads: every task counted by then is done. */
  lemma TrueAnswerMeansAllCountedAreDone(s: State, r: Reader)
    requires Reachable(s) && r in s.loaded && Answer(s, r)
    ensures s.completed == s.total && InTotal(s.stage) == InCompleted(s.stage)
  {
    ReachableInv(s);
    AnswerMeansDone(s, r);
  }

  lemma RunningIsNotDone(s: State, t: Task)
    requires s.At(t, Running)
    ensures InTotal(s.stage) != InCompleted(s.stage)
  {
    assert t in InTotal(s.stage) && t !in InCompleted(s.stage);
  }

  /** Once outside submissions have stopped, a true answer means that nothing at
      all is left: no task is being submitted, queued or running, because a parent
      registers its children before it is counted itself. */
  lemma TerminationDetected(s: State, r: Reader)
    requires Reachable(s) && !s.open && r in s.loaded && Answer(s, r)
    ensures forall t :: t in s.stage ==> s.stage[t] == Done
  {
    TrueAnswerMeansAllCountedAreDone(s, r);
    ReachableInv(s);
    forall t | t in s.stage ensures s.stage[t] == Done {
      if s.stage[t] == Entered {
        assert Submitting(s, t);
        RunningIsNotDone(s, s.parent[t].value);
      } else {
        assert t in InTotal(s.stage);
      }
    }
  }

  // --------------------------------------------------------- first in, first out

  /** The task that a step puts into the queue: submitted while there is room. */
  function Joins(s: State, step: Step): seq<Task>
  {
    if step.Enqueue? && |s.queue| < s.capacity then [step.t] else []
  }

  /** The task that a step gets running. */
  function Leaves(s: State, step: Step): seq<Task>
    requires Enabled(s, step)
  {
    if step.Start? && Apply(s, step).At(step.t, Running) then [step.t] else []
  }

  function AllJoined(s: State, steps: seq<Step>): seq<Task>
    requires Legal(s, steps)
    decreases |steps|
  {
    if steps == [] then [] else Joins(s, steps[0]) + AllJoined(Apply(s, steps[0]), steps[1..])
  }

  function AllLeft(s: State, steps: seq<Step>): seq<Task>
    requires Legal(s, steps)
    decreases |steps|
  {
    if steps == [] then [] else Leaves(s, steps[0]) + AllLeft(Apply(s, steps[0]), steps[1..])
  }

  lemma QueueStep(s: State, step: Step)
    requires Enabled(s, step)
    ensures s.queue + Joins(s, step) == Leaves(s, step) + Apply(s, step).queue
  {
    hide Busy, Submitting;
  }

  lemma Regroup(a: seq<Task>, b: seq<Task>, c: seq<Task>)
    ensures a + (b + c) == (a + b) + c
  {
  }

  lemma {:induction false} QueueRun(s: State, steps: seq<Step>)
    requires Legal(s, steps)
    ensures s.queue + AllJoined(s, steps) == AllLeft(s, steps) + Exec(s, steps).queue
    decreases |steps|
  {
    hide Apply, Enabled, Joins, Leaves;
    if steps == [] {
    } else {
      var r, rest := Apply(s, steps[0]), steps[1..];
      QueueStep(s, steps[0]);
      QueueRun(r, rest);
      Regroup(s.queue, Joins(s, steps[0]), AllJoined(r, rest));
      Regroup(Leaves(s, steps[0]), r.queue, AllJoined(r, rest));
      Regroup(Leaves(s, steps[0]), AllLeft(r, rest), Exec(s, steps).queue);
    }
  }

  /** Over every run the tasks that found room have started in the order in which they
      were queued, and those that have not are the queue. */
  lemma StartedInOrder(init: State, steps: seq<Step>)
    requires Initial(init) && Legal(init, steps)
    ensures AllJoined(init, steps) == AllLeft(init, steps) + Exec(init, steps).queue
  {
    QueueRun(init, steps);
  }

  /** A reader that has its answer can ask again. */
  lemma ReaderCanAskAgain(s: State, r: Reader)
    requires Enabled(s, LoadTotal(r))
    ensures var q := Apply(s, LoadTotal(r)); Enabled(q, LoadCompleted(r)) && q == s.(loaded := q.loaded)
    ensures forall x :: x != r && x in s.loaded ==>
              x in Apply(s, LoadTotal(r)).loaded && Apply(s, LoadTotal(r)).loaded[x] == s.loaded[x]
  {
  }

  // ------------------------------------------------- when an answer is true

  lemma {:induction false} ExecSnoc(s: State, steps: seq<Step>, step: Step)
    requires Legal(s, steps) && Enabled(Exec(s, steps), step)
    ensures Legal(s, steps + [step]) && Exec(s, steps + [step]) == Apply(Exec(s, steps), step)
    decreases |steps|
  {
    hide Apply, Enabled;
    if steps == [] {
      assert Legal(Apply(s, step), []);
    } else {
      ExecSnoc(Apply(s, steps[0]), steps[1..], step);
      assert (steps + [step])[1..] == steps[1..] + [step];
    }
  }

  lemma {:induction false} ExecLast(s: State, steps: seq<Step>)
    requires Legal(s, steps) && steps != []
    ensures var (init, last) := (steps[..|steps| - 1], steps[|steps| - 1]);
            Legal(s, init) && Enabled(Exec(s, init), last) && Exec(s, steps) == Apply(Exec(s, init), last)
    decreases |steps|
  {
    hide Apply, Enabled;
    if |steps| == 1 {
      assert steps[..0] == [] && steps[1..] == [];
    } else {
      ExecLast(Apply(s, steps[0]), steps[1..]);
      assert steps[1..][..|steps| - 2] == steps[..|steps| - 1][1..];
    }
  }

  lemma {:induction false} ExecAppend(s: State, a: seq<Step>, b: seq<Step>)
    requires Legal(s, a) && Legal(Exec(s, a), b)
    ensures Legal(s, a + b) && Exec(s, a + b) == Exec(Exec(s, a), b)
    decreases |a|
  {
    hide Apply, Enabled;
    if a == [] {
      assert a + b == b;
    } else {
      ExecAppend(Apply(s, a[0]), a[1..], b);
      assert (a + b)[1..] == a[1..] + b;
    }
  }

  /** In the run, no task has been counted as completed since the reader's first
      load. */
  predicate NoneSince(steps: seq<Step>, r: Reader)
  {
    steps != [] &&
    var last := steps[|steps| - 1];
    last == LoadCompleted(r) || (!last.Complete? && NoneSince(steps[..|steps| - 1], r))
  }

  lemma LoadStep(s: State, step: Step, r: Reader)
    requires Counters(s) && Enabled(s, step) && r in Apply(s, step).loaded && step != LoadCompleted(r)
    ensures r in s.loaded
    ensures var f := Apply(s, step);
            f.loaded[r] == f.completed <==> !step.Complete? && s.loaded[r] == s.completed
  {
    hide InTotal, InCompleted;
  }

  lemma {:induction false} LoadIsCurrentIff(init: State, steps: seq<Step>, r: Reader)
    requires Initial(init) && Legal(init, steps) && r in Exec(init, steps).loaded
    ensures var s := Exec(init, steps); s.loaded[r] == s.completed <==> NoneSince(steps, r)
    decreases |steps|
  {
    if steps != [] {
      ExecLast(init, steps);
      var before := steps[..|steps| - 1];
      var s := Exec(init, before);
      assert Reachable(s);
      if steps[|steps| - 1] != LoadCompleted(r) {
        ReachableInv(s);
        LoadStep(s, steps[|steps| - 1], r);
        hide Apply, Enabled, Inv, Counters, Entries, Family, Lined;
        LoadIsCurrentIff(init, before, r);
      }
    }
  }

  /** For every reader in every run: the answer at its second load is true if and
      only if there is a task, every task counted by then is done, and none has
      been counted as completed since the reader's first load. */
  lemma AnswerIff(init: State, steps: seq<Step>, r: Reader)
    requires Initial(init) && Legal(init, steps) && r in Exec(init, steps).loaded
    ensures var s := Exec(init, steps);
            Answer(s, r) <==>
              InTotal(s.stage) == InCompleted(s.stage) && InTotal(s.stage) != {} && NoneSince(steps, r)
  {
    var s := Exec(init, steps);
    assert Reachable(s);
    ReachableInv(s);
    LoadIsCurrentIff(init, steps, r);
    if Answer(s, r) { TrueAnswerMeansAllCountedAreDone(s, r); }
  }

  lemma {:induction false} NothingMoves(s: State, steps: seq<Step>)
    requires !s.open && s.queue == [] && (forall t :: t in s.stage ==> s.stage[t] == Done) && Legal(s, steps)
    ensures var f := Exec(s, steps); f.stage == s.stage && f.total == s.total && f.completed == s.completed && !f.open
    decreases |steps|
  {
    if steps != [] {
      assert steps[0].LoadCompleted? || steps[0].LoadTotal?;
      NothingMoves(Apply(s, steps[0]), steps[1..]);
    }
  }

  /** Once outside submissions have stopped, the first true answer settles it: in
      every continuation nothing moves any more, and a reader gets true exactly if
      no task was counted as completed since its own first load. */
  lemma TerminationIsStable(init: State, before: seq<Step>, r0: Reader, after: seq<Step>, r: Reader)
    requires Initial(init) && Legal(init, before)
    requires var s := Exec(init, before); !s.open && r0 in s.loaded && Answer(s, r0) && Legal(s, after)
    ensures var s := Exec(init, before);
            var f := Exec(s, after);
            && (forall t :: t in f.stage ==> f.stage[t] == Done)
            && f.stage == s.stage && f.total == s.total && f.completed == s.completed && !f.open
            && (r in f.loaded ==> (Answer(f, r) <==> NoneSince(before + after, r)))
  {
    var s := Exec(init, before);
    assert Reachable(s);
    TerminationDetected(s, r0);
    TrueAnswerMeansAllCountedAreDone(s, r0);
    ReachableInv(s);
    if s.queue != [] { HeadIsQueued(s); }
    NothingMoves(s, after);
    ExecAppend(init, before, after);
    var f := Exec(s, after);
    if r in f.loaded {
      AnswerIff(init, before + after, r);
    }
  }

  lemma Reach(s: State, step: Step)
    requires Reachable(s) && Enabled(s, step)
    ensures Reachable(Apply(s, step))
  {
    hide Apply, Enabled;
    var init, steps :| Initial(init) && Legal(init, steps) && Exec(init, steps) == s;
    ExecSnoc(init, steps, step);
  }

  /** One task in a queue of one and a single worker. */
  function OneTask(st: Stage, entry: bool, completed: nat): State
  {
    State(1, 1, if st == Queued then [0] else [], map[0 := entry], 1, completed, map[0 := st], map[0 := None], true,
      map[])
  }

  lemma Beginning(s: State)
    requires Initial(s)
    ensures Reachable(s)
  {
    assert Legal(s, []) && Exec(s, []) == s;
  }

  lemma SubmitOne(s: State, t: Task)
    requires Reachable(s) && s.open && t !in s.stage
    ensures var r := s.(entries := s.entries[t := false], total := s.total + 1, parent := s.parent[t := None]);
            Reachable(if s.Full() then r.Go(t, Dropped) else r.Go(t, Queued).(queue := s.queue + [t]))
  {
    hide Reachable;
    var r := s.(entries := s.entries[t := false], parent := s.parent[t := None]);
    assert Apply(s, Enter(t, None)) == r.Go(t, Entered);
    Reach(s, Enter(t, None));
    var r1 := r.Go(t, Counted).(total := s.total + 1);
    assert r.Go(t, Entered).Go(t, Counted) == r.Go(t, Counted);
    assert Apply(r.Go(t, Entered), Count(t)) == r1;
    Reach(r.Go(t, Entered), Count(t));
    assert r1.Go(t, Queued).stage == s.stage[t := Queued] && r1.Go(t, Dropped).stage == s.stage[t := Dropped];
    Reach(r1, Enqueue(t));
  }

  lemma OneQueued()
    ensures Reachable(OneTask(Queued, false, 0))
  {
    var init := State(1, 1, [], map[], 0, 0, map[], map[], true, map[]);
    Beginning(init);
    SubmitOne(init, 0);
    hide Reachable;
    var r := init.(entries := init.entries[0 := false], total := 1, parent := init.parent[0 := None]);
    assert r.Go(0, Queued).(queue := init.queue + [0]) == OneTask(Queued, false, 0);
  }

  lemma OneRunning()
    ensures Reachable(OneTask(Running, false, 0))
  {
    OneQueued();
    hide Reachable;
    assert Busy(map[0 := Queued]) == {};
    assert Apply(OneTask(Queued, false, 0), Start(0)) == OneTask(Running, false, 0);
    Reach(OneTask(Queued, false, 0), Start(0));
  }

  lemma OneMarked()
    ensures Reachable(OneTask(Marked, true, 0))
  {
    OneRunning();
    hide Reachable;
    assert Apply(OneTask(Running, false, 0), Finish(0)) == OneTask(Finished, false, 0);
    Reach(OneTask(Running, false, 0), Finish(0));
    assert Apply(OneTask(Finished, false, 0), Mark(0)) == OneTask(Marked, true, 0);
    Reach(OneTask(Finished, false, 0), Mark(0));
  }

  /** A reader that loaded before the last completion does get false after another
      has got true. */
  lemma OldReaderStillGetsFalse() returns (s: State)
    ensures Reachable(s) && !s.open && 1 in s.loaded && 2 in s.loaded && Answer(s, 1) && !Answer(s, 2)
  {
    OneMarked();
    hide Reachable;
    var s1 := OneTask(Marked, true, 0).(loaded := map[2 := 0]);
    assert Apply(OneTask(Marked, true, 0), LoadCompleted(2)) == s1;
    Reach(OneTask(Marked, true, 0), LoadCompleted(2));
    var s2 := OneTask(Done, true, 1).(loaded := map[2 := 0]);
    assert Apply(s1, Complete(0)) == s2;
    Reach(s1, Complete(0));
    Reach(s2, Close);
    var s3 := s2.(open := false);
    assert Apply(s2, Close) == s3;
    Reach(s3, LoadCompleted(1));
    s := s3.(loaded := map[2 := 0, 1 := 1]);
    assert Apply(s3, LoadCompleted(1)) == s;
  }

  /** A task that a full queue refuses stays counted in the total for ever, so the
      answer is true only if none has been refused. */
  lemma RefusedTaskBlocksTheAnswer(s: State, t: Task, r: Reader)
    requires Reachable(s) && s.At(t, Dropped) && r in s.loaded
    ensures !Answer(s, r)
  {
    assert t in InTotal(s.stage) - InCompleted(s.stage);
    if Answer(s, r) {
      TrueAnswerMeansAllCountedAreDone(s, r);
    }
  }

  lemma RefusedStays(s: State, t: Task, step: Step)
    requires s.At(t, Dropped) && Enabled(s, step)
    ensures Apply(s, step).At(t, Dropped)
  {
    hide Busy, Submitting;
  }

  lemma {:induction false} RefusalIsForEver(s: State, t: Task, steps: seq<Step>)
    requires s.At(t, Dropped) && Legal(s, steps)
    ensures Exec(s, steps).At(t, Dropped)
    decreases |steps|
  {
    hide Apply, Enabled;
    if steps != [] {
      RefusedStays(s, t, steps[0]);
      RefusalIsForEver(Apply(s, steps[0]), t, steps[1..]);
    }
  }

  // ------------------------------------------------------ and when it can be

  predicate NoEnter(steps: seq<Step>) { forall i :: 0 <= i < |steps| ==> !steps[i].Enter? }

  ghost predicate NoneRefused(s: State) { forall t :: !s.At(t, Dropped) }

  function Rank(st: Stage): nat
  {
    match st
    case Entered => 6
    case Counted => 5
    case Queued => 4
    case Running => 3
    case Finished => 2
    case Marked => 1
    case Done => 0
    case Dropped => 0
  }

  function Ranks(stage: map<Task, Stage>): map<nat, nat> { map t | t in stage :: Rank(stage[t]) }

  // ---------------------------------------------- the way out and the trap

  /** The tasks that `p` is in the middle of submitting. */
  function Children(s: State, p: Task): set<Task>
  {
    set c | c in s.parent && s.parent[c] == Some(p) && Submitting(s, c)
  }

  /** The room left in the queue takes all that `p` is submitting. */
  predicate Released(s: State, p: Task)
  {
    p in s.stage && Held(s.stage[p]) && |s.queue| + |Children(s, p)| <= s.capacity
  }

  /** A worker is free, or can become free without anything being refused. */
  ghost predicate WayOut(s: State) { s.Free() || exists p :: Released(s, p) }

  lemma ChildOf(s: State, p: Task)
    ensures |Children(s, p)| == 0 <==> forall c :: c in s.parent && s.parent[c] == Some(p) ==> !Submitting(s, c)
  {
    if |Children(s, p)| == 0 {
      forall c | c in s.parent && s.parent[c] == Some(p) ensures !Submitting(s, c) {
        assert c !in Children(s, p);
      }
    } else {
      var c :| c in Children(s, p);
    }
  }

  /** Only a running task submits. */
  lemma OthersAreChildless(s: State, p: Task)
    requires Family(s) && !s.At(p, Running)
    ensures |Children(s, p)| == 0
  {
    assert Children(s, p) == {};
  }

  lemma StillSubmitting(s: State, t: Task, st: Stage, r: State, p: Task)
    requires r.stage == s.stage[t := st] && r.parent == s.parent && t in s.stage
    ensures (s.stage[t] == Entered && st == Counted) || (!Submitting(s, t) && st != Entered && st != Counted) ==>
              Children(r, p) == Children(s, p)
    ensures Submitting(s, t) && st != Entered && st != Counted ==> Children(r, p) == Children(s, p) - {t}
  {
    assert forall c :: c != t ==> (Submitting(r, c) <==> Submitting(s, c));
  }

  /** A step that takes one task closer to its end. */
  ghost predicate Useful(s: State, step: Step, t: Task, st: Stage)
  {
    && Enabled(s, step) && !step.Enter? && t in s.stage && Rank(st) < Rank(s.stage[t]) && st != Dropped
    && Apply(s, step).stage == s.stage[t := st]
  }

  lemma ChildExists(s: State, p: Task) returns (c: Task)
    requires |Children(s, p)| > 0
    ensures c in Children(s, p) && c in s.stage && Submitting(s, c)
  {
    c :| c in Children(s, p);
  }

  lemma Bounds(s: State)
    requires Inv(s)
    ensures |s.queue| <= s.capacity && |Busy(s.stage)| <= s.workers && s.capacity >= 1
  {
    hide Counters, Entries, Family, Lined, Busy;
  }

  lemma SelfStep(s: State, p: Task) returns (step: Step, st: Stage)
    requires p in s.stage && Held(s.stage[p]) && |Children(s, p)| == 0
    ensures Useful(s, step, p, st) && (Held(st) || st == Done)
    ensures var r := Apply(s, step); r == s.Go(p, st).(entries := r.entries, completed := r.completed)
  {
    ChildOf(s, p);
    hide Children, Busy;
    match s.stage[p] {
      case Marked => step, st := Complete(p), Done;
      case Finished => step, st := Mark(p), Marked;
      case Running => step, st := Finish(p), Finished;
    }
  }

  /** The task itself gets on. */
  lemma ReleaseSelf(s: State, p: Task) returns (step: Step, st: Stage)
    requires Inv(s) && Released(s, p) && |Children(s, p)| == 0
    ensures Useful(s, step, p, st) && WayOut(Apply(s, step))
  {
    Bounds(s);
    step, st := SelfStep(s, p);
    var r := Apply(s, step);
    hide Inv, Children, Busy, Enabled, Apply;
    StillSubmitting(s, p, st, r, p);
    BusyPut(s.stage, p, st);
    assert if st == Done then r.Free() else Released(r, p);
  }

  /** A submission that fits gets on. */
  lemma SubmitStep(s: State, c: Task) returns (step: Step, st: Stage)
    requires Submitting(s, c) && !s.Full()
    ensures Useful(s, step, c, st) && (st == Counted || st == Queued) && (st == Counted ==> s.At(c, Entered))
    ensures var r := Apply(s, step);
            r == s.Go(c, st).(queue := if st == Queued then s.queue + [c] else s.queue, total := r.total)
  {
    hide Busy;
    step, st := if s.At(c, Entered) then Count(c) else Enqueue(c), if s.At(c, Entered) then Counted else Queued;
  }

  lemma ReleaseChild(s: State, p: Task) returns (step: Step, c: Task, st: Stage)
    requires Released(s, p) && |Children(s, p)| > 0
    ensures Useful(s, step, c, st) && WayOut(Apply(s, step))
  {
    c := ChildExists(s, p);
    step, st := SubmitStep(s, c);
    var r := Apply(s, step);
    hide Children, Busy, Enabled, Apply;
    StillSubmitting(s, c, st, r, p);
    assert p != c;
    assert Released(r, p);
  }

  lemma HeadStep(s: State) returns (t: Task)
    requires Inv(s) && s.Free() && s.queue != []
    ensures Useful(s, Start(t), t, Running) && |Children(s, t)| == 0
    ensures Apply(s, Start(t)) == s.Go(t, Running).(queue := s.queue[1..])
  {
    HeadIsQueued(s);
    t := s.queue[0];
    OthersAreChildless(s, t);
    hide Inv, Busy, Children;
  }

  /** A free worker takes a queued task. */
  lemma Occupy(s: State) returns (t: Task)
    requires Inv(s) && s.Free() && s.queue != []
    ensures Useful(s, Start(t), t, Running) && WayOut(Apply(s, Start(t)))
  {
    Bounds(s);
    t := HeadStep(s);
    var r := Apply(s, Start(t));
    hide Inv, Children, Busy, Enabled, Apply;
    StillSubmitting(s, t, Running, r, t);
    assert Released(r, t);
  }

  /** With an empty queue and everybody at work submitting, a submission gets on. */
  lemma Refill(s: State, p: Task) returns (step: Step, c: Task, st: Stage)
    requires Inv(s) && NoneRefused(s) && s.Free() && s.queue == []
    requires p in s.stage && s.stage[p] != Done && !Released(s, p)
    ensures Useful(s, step, c, st) && WayOut(Apply(s, step))
  {
    Bounds(s);
    if Held(s.stage[p]) {
      c := ChildExists(s, p);
    } else {
      assert p !in s.queue && !s.At(p, Dropped);
      c := p;
    }
    hide Inv, Children, Busy;
    step, st := SubmitStep(s, c);
    hide Enabled, Apply;
    BusyPut(s.stage, c, st);
    assert Apply(s, step).Free();
  }

  lemma NextStep(s: State) returns (step: Step, t: Task, st: Stage)
    requires Inv(s) && NoneRefused(s) && WayOut(s) && !AllDone(s.stage)
    ensures Useful(s, step, t, st) && WayOut(Apply(s, step))
  {
    hide Inv, NoneRefused, Useful, Apply, Children;
    if p :| Released(s, p) {
      if |Children(s, p)| == 0 {
        step, st := ReleaseSelf(s, p);
        t := p;
      } else {
        step, t, st := ReleaseChild(s, p);
      }
    } else if s.queue != [] {
      t := Occupy(s);
      step, st := Start(t), Running;
    } else {
      var p :| p in s.stage && s.stage[p] != Done;
      step, t, st := Refill(s, p);
    }
  }

  lemma StillNoneRefused(s: State, t: Task, st: Stage, r: State)
    requires NoneRefused(s) && t in s.stage && r.stage == s.stage[t := st] && st != Dropped
    ensures NoneRefused(r)
  {
    forall x ensures !r.At(x, Dropped) { assert !s.At(x, Dropped); }
  }

  lemma RankFalls(stage: map<Task, Stage>, t: Task, st: Stage)
    requires t in stage && Rank(st) < Rank(stage[t])
    ensures Sum(Ranks(stage[t := st])) < Sum(Ranks(stage))
  {
    SumLess(Ranks(stage[t := st]), Ranks(stage), t);
  }

  lemma ExecCons(s: State, step: Step, rest: seq<Step>)
    requires Enabled(s, step) && Legal(Apply(s, step), rest)
    ensures Legal(s, [step] + rest) && Exec(s, [step] + rest) == Exec(Apply(s, step), rest)
  {
    hide Apply, Enabled;
    assert ([step] + rest)[1..] == rest;
  }

  predicate AllDone(stage: map<Task, Stage>) { forall t :: t in stage ==> stage[t] == Done }

  /** Without a new task, everything can be brought to its end. */
  lemma {:induction false} FinishAll(s: State) returns (steps: seq<Step>)
    requires Inv(s) && NoneRefused(s) && WayOut(s)
    ensures Legal(s, steps) && NoEnter(steps) && Inv(Exec(s, steps))
    ensures Exec(s, steps).stage.Keys == s.stage.Keys && AllDone(Exec(s, steps).stage)
    decreases Sum(Ranks(s.stage))
  {
    hide Inv, Ranks, Apply, Enabled, NoneRefused, WayOut, Sum;
    if AllDone(s.stage) {
      steps := [];
    } else {
      var step, t, st := NextStep(s);
      StepInv(s, step);
      StillNoneRefused(s, t, st, Apply(s, step));
      RankFalls(s.stage, t, st);
      hide AllDone, Legal, Exec;
      var rest := FinishAll(Apply(s, step));
      ExecCons(s, step, rest);
      steps := [step] + rest;
    }
  }

  ghost predicate WillAnswer(s: State)
  {
    exists steps, r :: Legal(s, steps) && NoEnter(steps) && r in Exec(s, steps).loaded && Answer(Exec(s, steps), r)
  }

  lemma DoneAnswers(s: State, r: Reader)
    requires Inv(s) && AllDone(s.stage) && s.stage != map[] && r !in s.loaded
    ensures var f := Apply(s, LoadCompleted(r)); r in f.loaded && Answer(f, r)
  {
    hide Entries, Family, Lined, Busy;
    var t :| t in s.stage;
    assert InTotal(s.stage) == InCompleted(s.stage) && t in InTotal(s.stage);
  }

  lemma AnswerComes(s: State)
    requires Inv(s) && NoneRefused(s) && WayOut(s) && s.stage != map[]
    ensures WillAnswer(s)
  {
    hide Inv, Legal, Exec, NoneRefused, WayOut, Answer;
    var steps := FinishAll(s);
    var f := Exec(s, steps);
    var r := Unused(f.loaded.Keys);
    ExecSnoc(s, steps, LoadCompleted(r));
    assert NoEnter(steps + [LoadCompleted(r)]);
    hide NoEnter;
    DoneAnswers(f, r);
  }

  // ------------------------------------------------------------- the trap

  /** All workers are held by tasks that are submitting more than the queue has
      room for. */
  ghost predicate Trapped(s: State) { !WayOut(s) }

  lemma TrappedTask(s: State, p: Task)
    requires Inv(s) && Trapped(s) && p in s.stage && Held(s.stage[p])
    ensures s.At(p, Running) && |Children(s, p)| > 0 && s.capacity - |s.queue| < |Children(s, p)|
  {
    assert !Released(s, p);
    Bounds(s);
    if !s.At(p, Running) { OthersAreChildless(s, p); }
    hide Inv, Children;
  }

  /** No task leaves the trap, so none can complete. */
  lemma TrapIsClosed(s: State, step: Step)
    requires Inv(s) && Trapped(s) && Enabled(s, step)
    ensures !step.Start? && !step.Finish? && !step.Mark? && !step.Complete?
  {
    hide Inv, Children, Busy, Released;
    match step {
      case Finish(p) => TrappedTask(s, p); ChildOf(s, p);
      case Mark(p) => TrappedTask(s, p);
      case Complete(p) => TrappedTask(s, p);
      case _ =>
    }
  }

  lemma TrapFrame(s: State, t: Task, st: Stage, r: State, p: Task)
    requires r == s.Go(t, st).(queue := r.queue, total := r.total) && t in s.stage && Submitting(s, t)
    requires if st == Counted then s.At(t, Entered) && r.queue == s.queue else st == Queued && r.queue == s.queue + [t]
    requires p in s.stage && Held(s.stage[p]) && !Released(s, p)
    ensures !Released(r, p)
  {
    hide Busy, Children;
    StillSubmitting(s, t, st, r, p);
  }

  lemma TrapMove(s: State, t: Task, st: Stage, r: State)
    requires Trapped(s) && t in s.stage && Submitting(s, t)
    requires r == s.Go(t, st).(queue := r.queue, total := r.total)
    requires if st == Counted then s.At(t, Entered) && r.queue == s.queue else st == Queued && r.queue == s.queue + [t]
    ensures Trapped(r)
  {
    hide Busy, Children;
    BusyPut(s.stage, t, st);
    forall p ensures !Released(r, p) {
      if p in r.stage && Held(r.stage[p]) { TrapFrame(s, t, st, r, p); }
    }
  }

  lemma TrapStep(s: State, step: Step)
    requires Inv(s) && Trapped(s) && Enabled(s, step) && !step.Enter?
    ensures Trapped(Apply(s, step)) || !NoneRefused(Apply(s, step))
  {
    TrapIsClosed(s, step);
    var r := Apply(s, step);
    match step {
      case Count(t) => TrapMove(s, t, Counted, r);
      case Enqueue(t) =>
        if s.Full() { assert r.At(t, Dropped); } else { TrapMove(s, t, Queued, r); }
      case LoadCompleted(_) => SameTrap(s, r);
      case LoadTotal(_) => SameTrap(s, r);
      case Close => SameTrap(s, r);
    }
  }

  lemma SameTrap(s: State, r: State)
    requires Trapped(s) && r == s.(open := r.open, loaded := r.loaded)
    ensures Trapped(r)
  {
    forall p ensures !Released(r, p) {
      assert !Released(s, p) && Children(r, p) == Children(s, p);
    }
  }

  ghost predicate Doomed(s: State) { !NoneRefused(s) || Trapped(s) }

  lemma DoomedStep(s: State, step: Step)
    requires Inv(s) && Doomed(s) && Enabled(s, step) && !step.Enter?
    ensures Doomed(Apply(s, step))
  {
    hide Inv, WayOut, Enabled, Apply;
    if t :| s.At(t, Dropped) {
      RefusedStays(s, t, step);
    } else {
      TrapStep(s, step);
    }
  }

  lemma {:induction false} DoomedRun(s: State, steps: seq<Step>)
    requires Inv(s) && Doomed(s) && Legal(s, steps) && NoEnter(steps)
    ensures Inv(Exec(s, steps)) && Doomed(Exec(s, steps))
    decreases |steps|
  {
    hide Inv, Doomed, Enabled, Apply;
    if steps == [] {
    } else {
      StepInv(s, steps[0]);
      DoomedStep(s, steps[0]);
      DoomedRun(Apply(s, steps[0]), steps[1..]);
    }
  }

  lemma DoomedGetsFalse(s: State, r: Reader)
    requires Inv(s) && Doomed(s) && r in s.loaded
    ensures !Answer(s, r)
  {
    if s.workers > 0 {
      var t: Task;
      if x :| s.At(x, Dropped) {
        t := x;
      } else {
        assert Busy(s.stage) != {};
        t :| t in Busy(s.stage);
      }
      assert t in InTotal(s.stage) && t !in InCompleted(s.stage);
      if Answer(s, r) { AnswerMeansDone(s, r); }
    }
  }

  /** The exact condition: from every state of every run with a task in it, the
      tasks there are can still lead to a true answer if and only if none of them
      has been refused and a worker is free or can become free: some task that
      holds a worker is submitting no more than the queue has room for. */
  lemma AnswerComesIff(s: State)
    requires Reachable(s) && s.stage != map[]
    ensures WillAnswer(s) <==> NoneRefused(s) && WayOut(s)
  {
    ReachableInv(s);
    if NoneRefused(s) && WayOut(s) {
      AnswerComes(s);
    } else {
      hide Inv, WayOut, NoneRefused, Legal, NoEnter, Answer;
      forall steps, r | Legal(s, steps) && NoEnter(steps) && r in Exec(s, steps).loaded
        ensures !Answer(Exec(s, steps), r)
      {
        DoomedRun(s, steps);
        DoomedGetsFalse(Exec(s, steps), r);
      }
    }
  }

  lemma NobodyIsBusy(s: State)
    requires |Busy(s.stage)| == 0
    ensures forall p :: p in s.stage ==> !Held(s.stage[p])
  {
    forall p | p in s.stage ensures !Held(s.stage[p]) { assert p !in Busy(s.stage); }
  }

  lemma SomebodyIsBusy(s: State)
    requires !s.Free() && s.workers >= 1
    ensures exists p :: p in s.stage && Held(s.stage[p])
  {
    var p :| p in Busy(s.stage);
  }

  /** When every task submits one task at a time, the trap is a full queue with
      every worker inside a submission, or to have no worker. */
  lemma TrapOfSingleThreads(s: State)
    requires Reachable(s) && forall p :: |Children(s, p)| <= 1
    ensures WayOut(s) <==>
            && s.workers >= 1
            && !(s.Full() && !s.Free() && forall p :: p in s.stage && Held(s.stage[p]) ==> |Children(s, p)| == 1)
  {
    ReachableInv(s);
    Bounds(s);
    hide Inv, Children, Busy;
    if !s.Free() {
      assert forall p :: Released(s, p) <==> p in s.stage && Held(s.stage[p]) && (!s.Full() || |Children(s, p)| == 0);
      if s.workers >= 1 { SomebodyIsBusy(s); } else { NobodyIsBusy(s); }
    }
  }

  // ------------------------------------------------------- runs into both

  lemma {:induction false} Fill(capacity: nat, workers: nat, n: nat) returns (s: State)
    requires capacity >= 1 && n <= capacity
    ensures Reachable(s) && s.capacity == capacity && s.workers == workers && s.open
    ensures |s.queue| == n && forall t :: t in s.stage ==> t < n
  {
    if n == 0 {
      s := State(capacity, workers, [], map[], 0, 0, map[], map[], true, map[]);
      Beginning(s);
    } else {
      var f := Fill(capacity, workers, n - 1);
      SubmitOne(f, n - 1);
      hide Reachable;
      var r := f.(entries := f.entries[n - 1 := false], total := f.total + 1, parent := f.parent[n - 1 := None]);
      s := r.Go(n - 1, Queued).(queue := f.queue + [n - 1]);
    }
  }

  /** Every queue refuses: with as many tasks in it as it has room for, the next
      one is dropped. */
  lemma RefusingRun(capacity: nat, workers: nat) returns (s: State)
    requires capacity >= 1
    ensures Reachable(s) && s.capacity == capacity && s.workers == workers && s.Full() && s.At(capacity, Dropped)
  {
    var f := Fill(capacity, workers, capacity);
    SubmitOne(f, capacity);
    hide Reachable;
    var r := f.(entries := f.entries[capacity := false], total := f.total + 1, parent := f.parent[capacity := None]);
    s := r.Go(capacity, Dropped);
  }

  /** A run into the trap without any refusal: the only worker runs task 0, which
      is submitting task 2, while task 1 fills the queue. */
  lemma TrappingRun() returns (s: State)
    ensures Reachable(s) && NoneRefused(s) && !WayOut(s)
    ensures s.stage == map[0 := Running, 1 := Queued, 2 := Counted]
  {
    OneRunning();
    hide Reachable;
    var s0 := OneTask(Running, false, 0);
    SubmitOne(s0, 1);
    var s1 := State(1, 1, [1], map[0 := false, 1 := false], 2, 0, map[0 := Running, 1 := Queued],
      map[0 := None, 1 := None], true, map[]);
    var r := s0.(entries := s0.entries[1 := false], total := s0.total + 1, parent := s0.parent[1 := None]);
    assert s1 == r.Go(1, Queued).(queue := s0.queue + [1]);
    var s2 := s1.(entries := s1.entries[2 := false], parent := s1.parent[2 := Some(0)]).Go(2, Entered);
    assert Apply(s1, Enter(2, Some(0))) == s2;
    Reach(s1, Enter(2, Some(0)));
    s := s2.(total := 3).Go(2, Counted);
    assert Apply(s2, Count(2)) == s;
    Reach(s2, Count(2));
    assert s.stage == map[0 := Running, 1 := Queued, 2 := Counted];
    assert Busy(s.stage) == {0} && Children(s, 0) == {2};
  }
}
