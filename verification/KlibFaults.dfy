/** Whole runs in which any word of any buffer may fault: what is then lost and
    what is reported twice. */
module KlibFaults {
  import opened Events
  import opened Lists
  import opened KlibProtocol
  import opened KlibSafety
  import opened KlibRuns
  import opened KlibDelivery
  import opened KlibBuffer

  /** A step of the protocol, or one that collects into a buffer with faults: a
      wait or poll, or the return of a switch, whose own event goes first. */
  datatype Call =
    | Plain(step: Step)
    | Gather(size: int, faults: set<nat>)
    | Return(server: Sid, size: int, faults: set<nat>)

  predicate Returns(s: State, c: Call) { c.Return? && c.server in s.slots && s.slots[c.server].Full? }

  /** The collection loop of the call; none if it has none. */
  function Loop(s: State, c: Call): Written
  {
    if c.Gather? then CollectInto(s, c.size, 0, c.faults)
    else if Returns(s, c) then
      var r := s.(slots := s.slots - {c.server});
      if 0 in c.faults then Written(r, [], Done) else CollectInto(r, c.size - 1, 1, c.faults)
    else Written(s, [], Done)
  }

  function Do(s: State, c: Call): Outcome
  {
    if c.Plain? then Apply(s, c.step) else Live(Loop(s, c).state)
  }

  predicate CanDo(s: State, c: Call)
  {
    match c
    case Plain(step) => CanAct(s, step)
    case Gather(_, _) => true
    case Return(_, size, _) => size >= 1
  }

  /** How often the call writes `m` into a buffer. */
  function Writes(s: State, c: Call, m: Msg): nat
  {
    if c.Plain? then multiset(Delivered(s, c.step))[m]
    else multiset(Loop(s, c).reports)[m] + One(Returns(s, c) && 0 !in c.faults && s.slots[c.server].msg == m)
  }

  /** How often it loses `m`: the event of a returning switch. */
  function Loses(s: State, c: Call, m: Msg): nat
  {
    One(Returns(s, c) && 0 in c.faults && s.slots[c.server].msg == m)
  }

  /** How often it writes `m` and leaves it on the list: a torn write. */
  function Tears(s: State, c: Call, m: Msg): nat { if c.Plain? then 0 else Extra(Loop(s, c), m) }

  // ------------------------------------------------------------------- runs

  predicate LegalCalls(s: State, calls: seq<Call>)
    decreases |calls|
  {
    calls == [] ||
    (CanDo(s, calls[0]) && (Do(s, calls[0]).Live? ==> LegalCalls(Do(s, calls[0]).state, calls[1..])))
  }

  function After(s: State, calls: seq<Call>): Outcome
    decreases |calls|
  {
    if calls == [] then Live(s)
    else match Do(s, calls[0])
         case Wild => Wild
         case Live(s1) => After(s1, calls[1..])
  }

  /** The sum of what the calls of a run count. */
  function Total(s: State, calls: seq<Call>, count: (State, Call) -> nat): nat
    decreases |calls|
  {
    if calls == [] then 0
    else count(s, calls[0])
         + match Do(s, calls[0])
           case Wild => 0
           case Live(s1) => Total(s1, calls[1..], count)
  }

  // ------------------------------------------------------------------ steps

  lemma {:induction false} LoopKeeps(s: State, size: int, at: nat, faults: set<nat>)
    requires Inv(s)
    ensures var r := CollectInto(s, size, at, faults).state; Inv(r) && r.slots == s.slots && r.history == s.history
    decreases |s.idle|
  {
    hide Inv, CollectInto, Owed;
    if GoesOn(s, size, at, faults) {
      TakeOneKeeps(s);
      Continues(s, size, at, faults);
      LoopKeeps(TakeOne(s), size - |Turn(s)|, at + |Turn(s)|, faults);
    } else {
      Stops(s, size, at, faults);
    }
  }

  lemma CallKeeps(s: State, c: Call)
    requires Inv(s) && CanDo(s, c)
    ensures Good(Do(s, c))
  {
    hide Inv, CollectInto, Apply, CanAct;
    match c {
      case Plain(step) => StepKeeps(s, step);
      case Gather(size, faults) => LoopKeeps(s, size, 0, faults);
      case Return(v, size, faults) =>
        if Returns(s, c) {
          FreeSlotKeeps(s, v);
          LoopKeeps(s.(slots := s.slots - {v}), size - 1, 1, faults);
        }
    }
  }

  /** What is emitted, or reported once too often, is written, lost or on its way. */
  ghost predicate Balances(s: State, r: State, written: nat, lost: nat, torn: nat, m: Msg)
  {
    Emitted(r.history, m) + Outstanding(s, m) + torn == Emitted(s.history, m) + written + lost + Outstanding(r, m)
  }

  lemma GatherBalances(s: State, size: int, at: nat, faults: set<nat>, m: Msg)
    requires Inv(s)
    ensures var w := CollectInto(s, size, at, faults);
            Balances(s, w.state, multiset(w.reports)[m], 0, Extra(w, m), m)
  {
    LoopKeeps(s, size, at, faults);
    OffList(s, 0);
    hide Inv, CollectInto, Emitted, SlotsWith, OwedCount, Extra, NoDup;
    CollectIntoConserves(s, size, at, faults, m);
  }

  lemma NoExtra(s: State, m: Msg)
    ensures Extra(Written(s, [], Done), m) == 0
  {
  }

  lemma FreeBalances(s: State, v: Sid, m: Msg)
    requires v in s.slots && s.slots[v].Full?
    ensures Balances(s, s.(slots := s.slots - {v}), 0, One(s.slots[v].msg == m), 0, m)
  {
    FreeSlot(s.slots, v, m);
    hide Emitted, SlotsWith, OwedCount;
  }

  lemma ReturnBalances(s: State, c: Call, m: Msg)
    requires Inv(s) && Returns(s, c)
    ensures Balances(s, Do(s, c).state, Writes(s, c, m), Loses(s, c, m), Tears(s, c, m), m)
  {
    hide Inv, CollectInto, Emitted, Outstanding, Extra;
    var r := s.(slots := s.slots - {c.server});
    FreeSlotKeeps(s, c.server);
    FreeBalances(s, c.server, m);
    if 0 in c.faults {
      NoExtra(r, m);
    } else {
      GatherBalances(r, c.size - 1, 1, c.faults, m);
    }
  }

  lemma CallBalances(s: State, c: Call, m: Msg)
    requires Inv(s) && CanDo(s, c) && Do(s, c).Live?
    ensures Balances(s, Do(s, c).state, Writes(s, c, m), Loses(s, c, m), Tears(s, c, m), m)
  {
    hide Inv, CanAct, Apply, CollectInto, Emitted, Outstanding, Extra;
    if c.Plain? {
      StepConserves(s, c.step, m);
    } else if c.Gather? {
      GatherBalances(s, c.size, 0, c.faults, m);
    } else if Returns(s, c) {
      ReturnBalances(s, c, m);
    } else {
      NoExtra(s, m);
    }
  }

  lemma {:induction false} RunBalances(s: State, calls: seq<Call>, m: Msg)
    requires Inv(s) && LegalCalls(s, calls)
    ensures After(s, calls).Live?
    ensures Balances(s, After(s, calls).state, Total(s, calls, (x, c) => Writes(x, c, m)),
                     Total(s, calls, (x, c) => Loses(x, c, m)), Total(s, calls, (x, c) => Tears(x, c, m)), m)
    decreases |calls|
  {
    hide Inv, Do, CanDo, Writes, Loses, Tears, Emitted, Outstanding;
    if calls == [] {
    } else {
      CallKeeps(s, calls[0]);
      CallBalances(s, calls[0], m);
      RunBalances(Do(s, calls[0]).state, calls[1..], m);
    }
  }

  /** In every run, whatever words fault: no write goes astray, and as often as a
      worker has reported an event, plus once for every torn write of it, it has
      been written into a buffer, lost as the first word of a returning switch, or
      is on its way. */
  lemma AccountedWithFaults(calls: seq<Call>, m: Msg)
    requires LegalCalls(INITIAL, calls)
    ensures After(INITIAL, calls).Live?
    ensures var s := After(INITIAL, calls).state;
            Emitted(s.history, m) + Total(INITIAL, calls, (x, c) => Tears(x, c, m))
            == Total(INITIAL, calls, (x, c) => Writes(x, c, m)) + Total(INITIAL, calls, (x, c) => Loses(x, c, m))
               + Outstanding(s, m)
  {
    RunBalances(INITIAL, calls, m);
    assert SlotsWith(map[], m) == {};
  }

  // -------------------------------------------------- after a WAIT was lost

  /** The worker waits without a timer and no report about it is in a slot. */
  ghost predicate Forgotten(s: State, t: Tid)
  {
    && s.Is(t, Waiting) && !s.workers[t].timer
    && (forall v :: v in s.slots && s.slots[v].Full? ==> s.slots[v].msg.worker != t)
  }

  predicate SwitchesTo(c: Call, t: Tid) { c.Plain? && c.step.SwitchFromServer? && c.step.next == t }

  /** A loss makes its worker forgotten, unless it waits with a timer or has been
      switched to in the meantime. */
  lemma LostIsForgotten(s: State, c: Call, t: Tid)
    requires Inv(s) && Returns(s, c) && 0 in c.faults && s.slots[c.server].msg == Msg(t, Wait)
    requires forall v :: v in s.slots && s.slots[v].Full? && s.slots[v].msg.worker == t ==> v == c.server
    ensures s.Is(t, Waiting) && !s.workers[t].timer ==> Forgotten(Do(s, c).state, t)
  {
  }

  lemma {:induction false} LoopSpares(s: State, size: int, at: nat, faults: set<nat>, t: Tid, e: Event)
    requires t in s.workers && t !in s.idle
    ensures var w := CollectInto(s, size, at, faults);
            && t in w.state.workers && w.state.workers[t] == s.workers[t] && w.state.slots == s.slots
            && multiset(w.reports)[Msg(t, e)] == 0
    decreases |s.idle|
  {
    hide CollectInto;
    if GoesOn(s, size, at, faults) {
      Continues(s, size, at, faults);
      ReportsCount(s.idle[0], s.workers[s.idle[0]], Msg(t, e));
      LoopSpares(TakeOne(s), size - |Turn(s)|, at + |Turn(s)|, faults, t, e);
    } else {
      Stops(s, size, at, faults);
    }
  }

  /** A collection of the protocol is one without faults. */
  function WithoutFaults(step: Step): Call
    requires step.CollectStep? || step.SwitchReturn?
  {
    if step.CollectStep? then Gather(step.size, {}) else Return(step.server, step.size, {})
  }

  lemma PlainCollects(s: State, step: Step, m: Msg)
    requires step.CollectStep? || step.SwitchReturn?
    ensures Do(s, Plain(step)) == Do(s, WithoutFaults(step))
    ensures Writes(s, Plain(step), m) == Writes(s, WithoutFaults(step), m)
  {
    hide CollectInto, Collect;
    if step.CollectStep? {
      WritableCollects(s, step.size, 0, {});
    } else if step.server in s.slots && s.slots[step.server].Full? {
      WritableCollects(s.(slots := s.slots - {step.server}), step.size - 1, 1, {});
    }
  }

  lemma SilentLoop(s: State, c: Call, t: Tid, e: Event)
    requires Inv(s) && Forgotten(s, t) && !c.Plain?
    ensures Forgotten(Do(s, c).state, t) && Writes(s, c, Msg(t, e)) == 0
  {
    OffList(s, t);
    hide Inv, CollectInto;
    if c.Gather? {
      LoopSpares(s, c.size, 0, c.faults, t, e);
    } else if Returns(s, c) && 0 !in c.faults {
      LoopSpares(s.(slots := s.slots - {c.server}), c.size - 1, 1, c.faults, t, e);
    }
  }

  lemma SilentStep(s: State, step: Step, t: Tid)
    requires Inv(s) && Forgotten(s, t) && CanAct(s, step) && Apply(s, step).Live?
    requires !step.CollectStep? && !step.SwitchReturn? && !SwitchesTo(Plain(step), t)
    ensures Forgotten(Apply(s, step).state, t)
  {
    hide Inv;
  }

  lemma SilentCall(s: State, c: Call, t: Tid, e: Event)
    requires Inv(s) && Forgotten(s, t) && CanDo(s, c) && Do(s, c).Live? && !SwitchesTo(c, t)
    ensures Forgotten(Do(s, c).state, t) && Writes(s, c, Msg(t, e)) == 0
  {
    hide Inv, Forgotten, Loop, Apply, CanAct;
    if !c.Plain? {
      SilentLoop(s, c, t, e);
    } else if c.step.CollectStep? || c.step.SwitchReturn? {
      PlainCollects(s, c.step, Msg(t, e));
      SilentLoop(s, WithoutFaults(c.step), t, e);
    } else {
      SilentStep(s, c.step, t);
    }
  }

  /** Nobody hears of a forgotten worker again: in every run in which no server
      switches to it all the same, it stays as it is and nothing about it is ever
      written. */
  lemma {:induction false} ForgottenForEver(s: State, calls: seq<Call>, t: Tid, e: Event)
    requires Inv(s) && Forgotten(s, t) && LegalCalls(s, calls)
    requires forall i :: 0 <= i < |calls| ==> !SwitchesTo(calls[i], t)
    ensures After(s, calls).Live? && Forgotten(After(s, calls).state, t)
    ensures Total(s, calls, (x, c) => Writes(x, c, Msg(t, e))) == 0
    decreases |calls|
  {
    hide Inv, Forgotten, Do, CanDo, Writes, SwitchesTo;
    if calls == [] {
    } else {
      CallKeeps(s, calls[0]);
      SilentCall(s, calls[0], t, e);
      ForgottenForEver(Do(s, calls[0]).state, calls[1..], t, e);
    }
  }
}
