/** The wait of a klib worker one store at a time: its status says WAITING before
    its event is in the slot, and a server may switch to a WAITING worker. */
module KlibWaitRace {

  type Tid = nat
  type Sid = nat

  datatype Slot = Empty(worker: Tid) | Full(worker: Tid)

  /** `slot` is where a worker's server_event points. `writing` are the workers
      between the two stores, with the server they are leaving. `told` are the
      workers whose WAIT user space has in hand. */
  datatype State = State(
    running: set<Tid>,
    waiting: set<Tid>,
    slot: map<Tid, Sid>,
    slots: map<Sid, Slot>,
    writing: map<Tid, Sid>,
    told: set<Tid>)

  /** Workers parked by a WAIT that has been received. */
  function Start(ws: set<Tid>): State { State({}, ws, map[], map[], map[], ws) }

  datatype Step =
    | Mark(t: Tid)            // umcg_wait: the status
    | Write(t: Tid)           // umcg_wait: the event, through server_event
    | Switch(v: Sid, t: Tid)  // umcg_ctx_switch by a server, to a WAITING worker
    | Return(v: Sid)          // the switch returns the event

  predicate Enabled(s: State, step: Step)
  {
    match step
    case Mark(t) => t in s.running && t !in s.writing && t in s.slot
    case Write(t) => t in s.writing && t in s.slot
    case Switch(v, t) => v !in s.slots && t in s.waiting
    case Return(v) => v in s.slots && s.slots[v].Full?
  }

  function Apply(s: State, step: Step): State
    requires Enabled(s, step)
  {
    match step
    case Mark(t) =>
      s.(running := s.running - {t}, waiting := s.waiting + {t}, writing := s.writing[t := s.slot[t]])
    case Write(t) => s.(writing := s.writing - {t}, slots := s.slots[s.slot[t] := Full(t)])
    case Switch(v, t) =>
      s.(running := s.running + {t}, waiting := s.waiting - {t}, slot := s.slot[t := v],
         slots := s.slots[v := Empty(t)], told := s.told - {t})
    case Return(v) => s.(slots := s.slots - {v}, told := s.told + {s.slots[v].worker})
  }

  predicate Legal(s: State, steps: seq<Step>)
    decreases |steps|
  {
    steps == [] || (Enabled(s, steps[0]) && Legal(Apply(s, steps[0]), steps[1..]))
  }

  function Exec(s: State, steps: seq<Step>): State
    requires Legal(s, steps)
    decreases |steps|
  {
    if steps == [] then s else Exec(Apply(s, steps[0]), steps[1..])
  }

  /** The slot a worker points at is empty and meant for it. */
  predicate Attached(s: State, t: Tid) { t in s.slot && s.slot[t] in s.slots && s.slots[s.slot[t]] == Empty(t) }

  /** A wait that writes now hits the slot of the server it is leaving. */
  predicate Hits(s: State, t: Tid) { t in s.writing && Attached(s, t) && s.slot[t] == s.writing[t] }

  /** Every wait of the run hits: those that wrote when they did, and those still
      between their stores at its end. */
  ghost predicate AllHit(s: State, steps: seq<Step>)
    requires Legal(s, steps)
    decreases |steps|
  {
    if steps == [] then forall t :: t in s.writing ==> Hits(s, t)
    else (steps[0].Write? ==> Hits(s, steps[0].t)) && AllHit(Apply(s, steps[0]), steps[1..])
  }

  /** No switch of the run takes a worker that is between its stores. */
  predicate Clean(s: State, steps: seq<Step>)
    requires Legal(s, steps)
    decreases |steps|
  {
    steps == [] ||
    ((steps[0].Switch? ==> steps[0].t !in s.writing) && Clean(Apply(s, steps[0]), steps[1..]))
  }

  // ------------------------------------------------- clean runs and no others

  ghost predicate Aimed(s: State)
  {
    && s.running !! s.waiting
    && (forall t :: t in s.running ==> t !in s.writing && Attached(s, t))
    && (forall t :: t in s.writing ==> t in s.waiting && Hits(s, t))
  }

  lemma StaysAttached(s: State, step: Step, t: Tid)
    requires Enabled(s, step) && Attached(s, t)
    requires step.Write? ==> step.t != t && Attached(s, step.t)
    requires step.Switch? ==> step.t != t
    ensures Attached(Apply(s, step), t) && Apply(s, step).slot[t] == s.slot[t]
  {
  }

  lemma CleanStep(s: State, step: Step)
    requires Aimed(s) && Enabled(s, step) && (step.Switch? ==> step.t !in s.writing)
    ensures Aimed(Apply(s, step))
  {
    var r := Apply(s, step);
    forall t | t in r.running ensures t !in r.writing && Attached(r, t) {
      if t in s.running { StaysAttached(s, step, t); }
    }
    forall t | t in r.writing ensures t in r.waiting && Hits(r, t) {
      if t in s.running || t in s.writing { StaysAttached(s, step, t); }
    }
  }

  /** Once a worker between its stores has been taken by another server, its wait
      misses. */
  lemma {:induction false} TakenMisses(s: State, steps: seq<Step>, t: Tid)
    requires Legal(s, steps) && t in s.writing && t in s.slot && s.slot[t] != s.writing[t] && t !in s.waiting
    ensures !AllHit(s, steps)
    decreases |steps|
  {
    if steps == [] {
      assert !Hits(s, t);
    } else if steps[0] != Write(t) {
      TakenMisses(Apply(s, steps[0]), steps[1..], t);
    }
  }

  lemma {:induction false} HitIffCleanFrom(s: State, steps: seq<Step>)
    requires Aimed(s) && Legal(s, steps)
    ensures AllHit(s, steps) <==> Clean(s, steps)
    decreases |steps|
  {
    if steps == [] {
    } else if steps[0].Switch? && steps[0].t in s.writing {
      var t := steps[0].t;
      assert Hits(s, t);
      TakenMisses(Apply(s, steps[0]), steps[1..], t);
    } else {
      CleanStep(s, steps[0]);
      HitIffCleanFrom(Apply(s, steps[0]), steps[1..]);
    }
  }

  /** The exact condition, for every run: every wait writes into the slot of the
      server it left, empty and meant for it, if and only if no switch took a worker
      that had stored WAITING and not yet its event. */
  lemma HitIffClean(ws: set<Tid>, steps: seq<Step>)
    requires Legal(Start(ws), steps)
    ensures AllHit(Start(ws), steps) <==> Clean(Start(ws), steps)
  {
    HitIffCleanFrom(Start(ws), steps);
  }

  // ------------------------------------------- a rule that user space can check

  /** A server switches only to a worker whose WAIT it has in hand. */
  predicate Rule(s: State, step: Step) { step.Switch? ==> step.t in s.told }

  predicate Ruled(s: State, steps: seq<Step>)
    requires Legal(s, steps)
    decreases |steps|
  {
    steps == [] || (Rule(s, steps[0]) && Ruled(Apply(s, steps[0]), steps[1..]))
  }

  /** Worker and event are in one place: running with an empty slot, between the
      stores with the same slot still empty, in one filled slot, or told. */
  ghost predicate Inv(s: State)
  {
    && s.running !! s.waiting && s.told <= s.waiting
    && (forall t :: t in s.running ==> t !in s.writing && Attached(s, t))
    && (forall t :: t in s.writing ==> t in s.waiting && t !in s.told && Attached(s, t) && s.slot[t] == s.writing[t])
    && (forall v :: v in s.slots && s.slots[v].Full? ==>
          s.slots[v].worker in s.waiting && s.slots[v].worker !in s.told && s.slots[v].worker !in s.writing)
    && (forall u, v :: u in s.slots && v in s.slots && s.slots[u].worker == s.slots[v].worker ==> u == v)
    && (forall v :: v in s.slots && s.slots[v].Empty? ==>
          s.slots[v].worker in s.running || s.slots[v].worker in s.writing)
  }

  lemma MarkKeeps(s: State, t: Tid)
    requires Inv(s) && Enabled(s, Mark(t))
    ensures Inv(Apply(s, Mark(t)))
  {
  }

  lemma WriteKeeps(s: State, t: Tid)
    requires Inv(s) && Enabled(s, Write(t))
    ensures Inv(Apply(s, Write(t)))
  {
    var r := Apply(s, Write(t));
    assert forall x :: x in s.slot && x != t && Attached(s, x) ==> Attached(r, x);
  }

  lemma SwitchKeeps(s: State, v: Sid, t: Tid)
    requires Inv(s) && Enabled(s, Switch(v, t)) && t in s.told
    ensures Inv(Apply(s, Switch(v, t)))
  {
    var r := Apply(s, Switch(v, t));
    assert forall x :: x in s.slot && x != t && Attached(s, x) ==> Attached(r, x);
  }

  lemma ReturnKeeps(s: State, v: Sid)
    requires Inv(s) && Enabled(s, Return(v))
    ensures Inv(Apply(s, Return(v)))
  {
    var r := Apply(s, Return(v));
    assert forall x :: x in s.slot && Attached(s, x) ==> Attached(r, x);
  }

  lemma StepKeeps(s: State, step: Step)
    requires Inv(s) && Enabled(s, step) && Rule(s, step)
    ensures Inv(Apply(s, step))
  {
    hide Inv;
    match step {
      case Mark(t) => MarkKeeps(s, t);
      case Write(t) => WriteKeeps(s, t);
      case Switch(v, t) => SwitchKeeps(s, v, t);
      case Return(v) => ReturnKeeps(s, v);
    }
  }

  lemma {:induction false} RuledIsClean(s: State, steps: seq<Step>)
    requires Inv(s) && Legal(s, steps) && Ruled(s, steps)
    ensures Clean(s, steps)
    decreases |steps|
  {
    if steps == [] {
    } else {
      assert steps[0].Switch? ==> steps[0].t !in s.writing;
      StepKeeps(s, steps[0]);
      hide Inv;
      RuledIsClean(Apply(s, steps[0]), steps[1..]);
    }
  }

  /** The WAIT in hand is proof that both stores are done: under the rule every
      wait of every run hits its slot. */
  lemma RuledWaitsHitTheirSlot(ws: set<Tid>, steps: seq<Step>)
    requires Legal(Start(ws), steps) && Ruled(Start(ws), steps)
    ensures AllHit(Start(ws), steps)
  {
    RuledIsClean(Start(ws), steps);
    HitIffClean(ws, steps);
  }

  /** And the rule does not shut a worker out: once its WAIT has been returned, any
      free server may switch to it. */
  lemma ReturnedCanBeSwitched(s: State, v: Sid, u: Sid)
    requires Inv(s) && Enabled(s, Return(v)) && u !in s.slots
    ensures var (r, step) := (Apply(s, Return(v)), Switch(u, s.slots[v].worker)); Enabled(r, step) && Rule(r, step)
  {
  }

  /** For every worker between its stores and every free server: the switch
      succeeds, the write lands with the new server as if the worker had waited
      there, and the slot of the server it left stays empty although the worker
      points elsewhere. */
  lemma UncleanSwitchRedirects(s: State, v: Sid, t: Tid)
    requires Aimed(s) && t in s.writing && v !in s.slots
    ensures Enabled(s, Switch(v, t)) && Enabled(Apply(s, Switch(v, t)), Write(t))
    ensures var r := Apply(Apply(s, Switch(v, t)), Write(t));
            && r.slots[v] == Full(t) && t in r.running && r.slot[t] == v != s.writing[t]
            && s.writing[t] in r.slots && r.slots[s.writing[t]] == Empty(t)
  {
  }

  /** And such a worker exists in a ruled run. */
  lemma BetweenTheStores() returns (steps: seq<Step>)
    ensures Legal(Start({1}), steps) && Ruled(Start({1}), steps) && 1 in Exec(Start({1}), steps).writing
  {
    var s1 := Apply(Start({1}), Switch(0, 1));
    var s2 := Apply(s1, Mark(1));
    steps := [Switch(0, 1), Mark(1)];
    assert steps[1..] == [Mark(1)] && steps[1..][1..] == [];
    assert Legal(s2, []) && Legal(s1, steps[1..]);
  }
}
