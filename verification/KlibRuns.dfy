/** The main results about whole runs of the klib protocol. */
module KlibRuns {
  import opened Events
  import opened Lists
  import opened KlibProtocol
  import opened KlibSafety

  predicate Legal(s: State, steps: seq<Step>)
    decreases |steps|
  {
    steps == [] ||
    (CanAct(s, steps[0]) &&
     (Apply(s, steps[0]).Live? ==> Legal(Apply(s, steps[0]).state, steps[1..])))
  }

  function Exec(s: State, steps: seq<Step>): Outcome
    decreases |steps|
  {
    if steps == [] then Live(s)
    else match Apply(s, steps[0])
         case Wild => Wild
         case Live(s1) => Exec(s1, steps[1..])
  }

  ghost predicate Reachable(s: State)
  {
    exists steps :: Legal(INITIAL, steps) && Exec(INITIAL, steps) == Live(s)
  }

  lemma {:induction false} ExecKeeps(s: State, steps: seq<Step>)
    requires Inv(s) && Legal(s, steps)
    ensures Good(Exec(s, steps))
    decreases |steps|
  {
    hide Inv, Apply, CanAct;
    if steps != [] {
      StepKeeps(s, steps[0]);
      ExecKeeps(Apply(s, steps[0]).state, steps[1..]);
    }
  }

  lemma ReachableInv(s: State)
    requires Reachable(s)
    ensures Inv(s)
  {
    var steps :| Legal(INITIAL, steps) && Exec(INITIAL, steps) == Live(s);
    ExecKeeps(INITIAL, steps);
  }

  /** In every run, every event is written into the slot of a server that is
      inside a context switch and has no event yet. */
  lemma NoWildWrite(steps: seq<Step>)
    requires Legal(INITIAL, steps)
    ensures Exec(INITIAL, steps).Live?
  {
    ExecKeeps(INITIAL, steps);
  }

  function AttachedTo(s: State): map<Tid, Sid>
  {
    map t | t in s.workers && (s.workers[t].status.Running? || s.workers[t].status.Paused?) :: s.workers[t].server
  }

  function EmptySlots(s: State): set<Sid> { set v | v in s.slots && s.slots[v].Empty? }

  /** The workers in RUNNING or PAUSED are one-to-one with the servers blocked in
      a context switch with an empty slot, so there are equally many. */
  lemma RunningWorkersMatchEmptySlots(s: State)
    requires Reachable(s)
    ensures AttachedTo(s).Values == EmptySlots(s)
    ensures |AttachedTo(s)| == |EmptySlots(s)|
  {
    ReachableInv(s);
    hide IdleOk, WorkersOk, HistoryOk;
    var m := AttachedTo(s);
    assert forall t :: t in m <==> Attached(s.workers, t);
    forall v | v in EmptySlots(s) ensures v in m.Values {
      assert s.slots[v].worker in m;
    }
    InjectiveSize(m);
  }

  /** A worker is on the idle list, exactly once, if and only if it is IDLE. */
  lemma IdleListHoldsTheIdle(s: State, t: Tid)
    requires Reachable(s)
    ensures t in s.idle <==> s.Is(t, Idle) || s.Is(t, IdleTimeout)
    ensures forall i, j :: 0 <= i < |s.idle| && 0 <= j < |s.idle| && s.idle[i] == t && s.idle[j] == t ==> i == j
  {
    ReachableInv(s);
    assert t in s.idle <==> OnList(s.workers, t);
  }

  // ------------------------------------------------------- switch and reports

  /** What user space finds in its buffer after a step. */
  function Delivered(s: State, step: Step): seq<Msg>
  {
    match step
    case CollectStep(size) => Collect(s, size).1
    case SwitchReturn(v, size) =>
      if v in s.slots && s.slots[v].Full? then
        [s.slots[v].msg] + Collect(s.(slots := s.slots - {v}), size - 1).1
      else []
    case _ => []
  }

  /** A context switch with two slots returns exactly one event, and never WAKE
      or TIMEOUT; the list is left alone. */
  lemma TwoSlotSwitchReturnsOneEvent(s: State, v: Sid)
    requires Reachable(s) && v in s.slots && s.slots[v].Full?
    ensures Delivered(s, SwitchReturn(v, 2)) == [s.slots[v].msg] && Switched(s.slots[v].msg.event)
    ensures Apply(s, SwitchReturn(v, 2)).Live? && Apply(s, SwitchReturn(v, 2)).state.idle == s.idle
  {
    ReachableInv(s);
    assert Collect(s.(slots := s.slots - {v}), 1) == (s.(slots := s.slots - {v}), []);
  }

  // ----------------------------------------------------------- event grammar

  function Count(h: seq<Act>, a: Act): nat
  {
    if h == [] then 0 else Count(h[..|h| - 1], a) + if h[|h| - 1] == a then 1 else 0
  }

  /** Conservation in every history that follows the grammar: switch-ins are paid
      back by BLOCK, WAIT, PREEMPT and EXIT, and every BLOCK is owed one WAKE, as
      is every registration. */
  lemma {:induction false} GrammarCounts(h: seq<Act>)
    requires ModeAfter(h) != Broken
    ensures Count(h, In) == Count(h, Out(Block)) + Count(h, Out(Wait)) + Count(h, Out(Preempt)) + Count(h, Out(Exit))
                            + if ModeAfter(h) == On then 1 else 0
    ensures Count(h, Out(Wake)) + (if ModeAfter(h) == Asleep then 1 else 0)
            == Count(h, Out(Block)) + Count(h, Out(Exit)) + if ModeAfter(h) == Gone then 0 else 1
    ensures Count(h, Out(Timeout)) <= Count(h, Out(Wait))
    ensures ModeAfter(h) == Parked ==> Count(h, Out(Timeout)) < Count(h, Out(Wait))
  {
    if h != [] { GrammarCounts(h[..|h| - 1]); }
  }

  lemma {:induction false} GrammarPrefix(h: seq<Act>, k: nat)
    requires ModeAfter(h) != Broken && k <= |h|
    ensures ModeAfter(h[..k]) != Broken
  {
    if k < |h| {
      GrammarPrefix(h[..|h| - 1], k);
      assert h[..|h| - 1][..k] == h[..k];
    } else {
      assert h[..k] == h;
    }
  }

  /** In between, the very next thing a blocked worker does is to report WAKE,
      and a WAKE is preceded by that BLOCK unless the worker has just registered. */
  lemma BlockThenWake(h: seq<Act>, i: nat)
    requires ModeAfter(h) != Broken && i + 1 < |h|
    ensures h[i] == Out(Block) ==> h[i + 1] == Out(Wake)
    ensures h[i + 1] == Out(Wake) ==> h[i] == Out(Block) || h[i] == Out(Exit)
  {
    GrammarPrefix(h, i + 2);
    GrammarPrefix(h, i + 1);
    assert h[..i + 2][..i + 1] == h[..i + 1] && h[..i + 1][..i] == h[..i];
    assert ModeAfter(h[..i + 2]) == Next(ModeAfter(h[..i + 1]), h[i + 1]);
    assert ModeAfter(h[..i + 1]) == Next(ModeAfter(h[..i]), h[i]);
  }

  /** Every history of every run follows the grammar, and its end tells whether
      the worker is registered, attached or blocked: the counts in terms of the
      kernel's own state. */
  lemma HistoriesBalance(s: State, t: Tid)
    requires Reachable(s) && t in s.history
    ensures var h := s.history[t];
            && ModeAfter(h) != Broken
            && Count(h, In) == Count(h, Out(Block)) + Count(h, Out(Wait)) + Count(h, Out(Preempt)) + Count(h, Out(Exit))
                               + (if s.Executes(t) then 1 else 0)
            && Count(h, Out(Wake)) + (if s.Is(t, Blocked) then 1 else 0)
               == Count(h, Out(Block)) + Count(h, Out(Exit)) + (if t in s.workers then 1 else 0)
  {
    ReachableInv(s);
    hide IdleOk, SlotsOk, WorkersOk;
    assert t in s.workers ==> Fits(s.workers[t], ModeAfter(Logged(s.history, t)));
    assert t !in s.workers ==> ModeAfter(Logged(s.history, t)) == Gone;
    GrammarCounts(s.history[t]);
  }

  // ------------------------------------------------------------ bounded wait

  predicate Collects(step: Step) { step.CollectStep? && step.size >= 2 }

  function Collections(steps: seq<Step>): nat
  {
    if steps == [] then 0 else (if Collects(steps[0]) then 1 else 0) + Collections(steps[1..])
  }

  /** The list reports about worker `t`. */
  predicate Reported(ms: seq<Msg>, t: Tid) { exists i :: 0 <= i < |ms| && ms[i].worker == t }

  function ListReports(s: State, step: Step): seq<Msg>
  {
    match step
    case CollectStep(size) => Collect(s, size).1
    case SwitchReturn(v, size) =>
      if v in s.slots && s.slots[v].Full? then Collect(s.(slots := s.slots - {v}), size - 1).1 else []
    case _ => []
  }

  predicate HandedOut(s: State, steps: seq<Step>, t: Tid)
    decreases |steps|
  {
    steps != [] &&
    (Reported(ListReports(s, steps[0]), t) ||
     (Apply(s, steps[0]).Live? && HandedOut(Apply(s, steps[0]).state, steps[1..], t)))
  }

  predicate Listed(s: State) { forall t :: t in s.idle ==> t in s.workers }

  lemma CollectUnfolds(s: State, size: int)
    requires size > 1 && s.idle != [] && s.idle[0] in s.workers
    ensures var es := Owed(s.workers[s.idle[0]]);
            var rest := Collect(TakeOne(s), size - |es|);
            Collect(s, size) == (rest.0, Reports(s.idle[0], es) + rest.1)
  {
  }

  /** Collection takes a prefix of the list, at least one worker if it can. */
  lemma {:induction false} CollectTakesPrefix(s: State, size: int)
    requires Listed(s)
    ensures var r := Collect(s, size).0;
            && |r.idle| <= |s.idle|
            && r.idle == s.idle[|s.idle| - |r.idle|..]
            && (size >= 2 && s.idle != [] ==> |r.idle| < |s.idle|)
    decreases |s.idle|
  {
    if size > 1 && s.idle != [] {
      assert s.idle[0] in s.idle;
      CollectUnfolds(s, size);
      assert Listed(TakeOne(s));
      hide Collect, Owed, Listed;
      CollectTakesPrefix(TakeOne(s), size - |Owed(s.workers[s.idle[0]])|);
    }
  }

  /** And it reports everyone it takes. */
  lemma {:induction false} CollectReportsTaken(s: State, size: int, i: nat)
    requires Listed(s) && i < |s.idle| && i < |s.idle| - |Collect(s, size).0.idle|
    ensures Reported(Collect(s, size).1, s.idle[i])
    decreases |s.idle|
  {
    if size > 1 && s.idle != [] {
      var t := s.idle[0];
      assert t in s.idle;
      var mine := Reports(t, Owed(s.workers[t]));
      var rest := Collect(TakeOne(s), size - |Owed(s.workers[t])|);
      CollectUnfolds(s, size);
      assert Listed(TakeOne(s));
      hide Collect, Owed, Listed;
      if i == 0 {
        assert (mine + rest.1)[0].worker == t;
      } else {
        CollectReportsTaken(TakeOne(s), size - |Owed(s.workers[t])|, i - 1);
        var j :| 0 <= j < |rest.1| && rest.1[j].worker == s.idle[i];
        assert (mine + rest.1)[|mine| + j] == rest.1[j];
      }
    }
  }

  lemma CollectAdvances(s: State, size: int, k: nat)
    requires Listed(s) && k < |s.idle|
    ensures var r := Collect(s, size).0;
            || Reported(Collect(s, size).1, s.idle[k])
            || exists j :: 0 <= j <= k && j < |r.idle| && r.idle[j] == s.idle[k] && (size >= 2 ==> j < k)
  {
    CollectTakesPrefix(s, size);
    var d := |s.idle| - |Collect(s, size).0.idle|;
    if k < d { CollectReportsTaken(s, size, k); } else { assert Collect(s, size).0.idle[k - d] == s.idle[k]; }
  }

  /** The other steps only append to the list. */
  lemma OthersAppend(s: State, step: Step)
    requires Apply(s, step).Live? && !step.CollectStep? && !step.SwitchReturn?
    ensures s.idle <= Apply(s, step).state.idle
  {
  }

  /** One step either hands out the worker at position `k` or leaves it at most
      there, and strictly nearer if the step collects. */
  lemma StepAdvances(s: State, step: Step, k: nat)
    requires Listed(s) && k < |s.idle| && Apply(s, step).Live?
    ensures var r := Apply(s, step).state;
            || Reported(ListReports(s, step), s.idle[k])
            || exists j :: 0 <= j <= k && j < |r.idle| && r.idle[j] == s.idle[k] && (Collects(step) ==> j < k)
  {
    hide Collect, Reported;
    if step.CollectStep? {
      CollectAdvances(s, step.size, k);
    } else if step.SwitchReturn? && step.server in s.slots && s.slots[step.server].Full? {
      CollectAdvances(s.(slots := s.slots - {step.server}), step.size - 1, k);
    } else if step.SwitchReturn? {
      assert Apply(s, step).state.idle[k] == s.idle[k];
    } else {
      OthersAppend(s, step);
      hide Apply;
      assert Apply(s, step).state.idle[k] == s.idle[k];
    }
  }

  /** First in, first out, across any number of steps: the worker at position `k`
      has been handed out by the time of the (k+1)-th collection, whatever else
      happens and whoever joins the list meanwhile. */
  lemma {:induction false} BoundedWait(s: State, steps: seq<Step>, k: nat)
    requires Inv(s) && Legal(s, steps) && k < |s.idle| && Collections(steps) > k
    ensures HandedOut(s, steps, s.idle[k])
    decreases |steps|
  {
    assert Listed(s);
    hide Inv;
    StepKeeps(s, steps[0]);
    StepAdvances(s, steps[0], k);
    if !Reported(ListReports(s, steps[0]), s.idle[k]) {
      hide Apply;
      var r := Apply(s, steps[0]).state;
      var j :| 0 <= j <= k && j < |r.idle| && r.idle[j] == s.idle[k] && (Collects(steps[0]) ==> j < k);
      BoundedWait(r, steps[1..], j);
    }
  }
}
