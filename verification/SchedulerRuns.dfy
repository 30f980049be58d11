/** The main results about whole runs of kernel, router, workers and servers. */
module SchedulerRuns {
  import opened Events
  import opened Lists
  import opened KlibProtocol
  import opened Scheduler
  import opened SchedulerSystem
  import opened SchedulerSafety
  import K = KlibSafety
  import F = TaskFlow

  predicate Legal(s: System, steps: seq<Action>)
    decreases |steps|
  {
    steps == [] || (Enabled(s, steps[0]) && Legal(Next(s, steps[0]), steps[1..]))
  }

  function Exec(s: System, steps: seq<Action>): System
    requires Legal(s, steps)
    decreases |steps|
  {
    if steps == [] then s else Exec(Next(s, steps[0]), steps[1..])
  }

  /** Some run from a state right after registration ends in `s`. */
  ghost predicate Reachable(s: System)
  {
    exists s0, steps :: Initial(s0) && Legal(s0, steps) && Exec(s0, steps) == s
  }

  lemma {:induction false} ExecKeeps(s: System, steps: seq<Action>)
    requires Inv(s) && Legal(s, steps)
    ensures Inv(Exec(s, steps))
    decreases |steps|
  {
    hide Inv, Next, Enabled;
    if steps != [] {
      StepKeeps(s, steps[0]);
      ExecKeeps(Next(s, steps[0]), steps[1..]);
    }
  }

  lemma ReachableInv(s: System)
    requires Reachable(s)
    ensures Inv(s)
  {
    hide Inv, Initial;
    var s0, steps :| Initial(s0) && Legal(s0, steps) && Exec(s0, steps) == s;
    InitialInv(s0);
    ExecKeeps(s0, steps);
  }

  /** In no run does a context switch fail, a queue overflow, an event arrive in
      the wrong state or at the wrong server, a worker sit in `pending` without
      being Waiting, or the kernel write through a stale slot. */
  lemma NothingOddHappens(s0: System, steps: seq<Action>)
    requires Initial(s0) && Legal(s0, steps)
    ensures Exec(s0, steps).odd == {}
  {
    hide Inv, Initial;
    InitialInv(s0);
    ExecKeeps(s0, steps);
    OddFree(Exec(s0, steps));
  }

  lemma OddFree(s: System)
    requires Inv(s)
    ensures s.odd == {}
  {
    hide K.Inv, Shape, Views, Positions, Messages, Queues, Loops;
  }

  lemma WorkerFacts(s: System, w: Tid)
    requires Inv(s) && w in s.owner
    ensures s.owner[w] in s.servers && w in s.servers[s.owner[w]].states && w in s.kernel.workers
    ensures ViewOk(w, View(s.servers[s.owner[w]].states[w], s.kernel.workers[w].status, SwitchOf(s, w),
            InTransit(s, w)))
    ensures w in s.kernel.idle <==> s.kernel.Is(w, Idle) || s.kernel.Is(w, IdleTimeout)
  {
    hide Positions, Messages, Queues, Loops, K.SlotsOk, K.WorkersOk, K.HistoryOk;
    assert w in s.kernel.idle <==> K.OnList(s.kernel.workers, w);
    hide K.Inv;
    assert ViewOk(w, ViewOf(s, w));
    hide ViewOk, SwitchOf, InTransit;
  }

  /** Why unchecked return codes are safe: what the scheduler believes implies
      what the kernel's compare-and-swap demands. */
  lemma BeliefsMatchKernel(s: System, w: Tid)
    requires Reachable(s) && w in s.owner
    ensures s.owner[w] in s.servers && w in s.servers[s.owner[w]].states
    ensures var v := s.owner[w]; var st := s.servers[v].states[w];
            && (st == SWaiting ==> s.kernel.Is(w, Waiting))
            && (InTransit(s, w) > 0 ==> s.kernel.Is(w, Runnable))
            && (InTransit(s, w) > 0 && v in s.pos && s.pos[v] == Top ==> st == SBlocked)
            && (st == SRunning ==> v in s.pos && s.pos[v] == Switched(w))
            && (s.kernel.Executes(w) ==> st == SRunning)
  {
    hide Inv;
    ReachableInv(s);
    WorkerFacts(s, w);
    hide InTransit;
  }

  /** BLOCK has left the kernel and not been handled yet. */
  predicate BlockUnread(s: System, w: Tid)
    requires w in s.owner
  {
    SwitchOf(s, w) == Pending(Full(Msg(w, Block)))
  }

  /** The wake that a blocked worker is owed: it still sleeps, its WAKE is on the
      kernel's list, in the router's array, or in its server's channel. */
  function WakeTokens(s: System, w: Tid): nat
    requires w in s.owner
  {
    (if s.kernel.Is(w, Blocked) then 1 else 0)
    + (if w in s.kernel.idle then 1 else 0)
    + Count(s.routed, w)
    + Count(Channel(s, s.owner[w]), w)
  }

  /** Wake conservation across the layers: exactly one while the scheduler takes
      the worker to be Blocked or has yet to read its BLOCK, none otherwise. No
      blocked worker is forgotten, and none is resumed twice. */
  lemma WakeConservation(s: System, w: Tid)
    requires Reachable(s) && w in s.owner
    ensures s.owner[w] in s.servers && w in s.servers[s.owner[w]].states
    ensures WakeTokens(s, w) ==
            if s.servers[s.owner[w]].states[w] == SBlocked || BlockUnread(s, w) then 1 else 0
  {
    hide Inv;
    ReachableInv(s);
    WorkerFacts(s, w);
    hide Count, Channel;
  }

  /** A returning switch hands over one event, BLOCK or WAIT, whose handling asks
      for no further switch: handle_event recurses at most once. */
  lemma RecursionDepthIsOne(s: System, v: Sid)
    requires Reachable(s) && Enabled(s, Return(v))
    ensures var m := s.kernel.slots[v].msg;
            && (m.event.Block? || m.event.Wait?)
            && m.worker == s.pos[v].worker
            && Handle(s.servers[v], m).switchTo == None && Handle(s.servers[v], m).odd == {}
  {
    hide Inv, K.Inv, Loops, Messages;
    ReachableInv(s);
    ReturnFacts(s, v);
    var w := s.kernel.slots[v].msg.worker;
    BlockAndWakeKeepQueues(s.servers[v], w);
    WaitKeepsQueues(s.servers[v], w);
  }

  /** At every point, `pending` is the Waiting workers and `running` as long as
      the others are many; both have room for the next push. */
  lemma QueueDiscipline(s: System, v: Sid)
    requires Reachable(s) && v in s.servers
    ensures QueuesOk(s.servers[v])
  {
    hide Inv, QueuesOk;
    ReachableInv(s);
    ServerFacts(s, v);
  }

  /** Every accepted task is in exactly one of the queue, one worker's channel,
      one worker's hands or the finished ones; and no body starts twice. */
  lemma TasksRunOnce(s: System, x: TaskId)
    requires Reachable(s)
    ensures x in s.flow.accepted <==> exists p :: F.At(s.flow, x, p)
    ensures forall p, q :: F.At(s.flow, x, p) && F.At(s.flow, x, q) ==> p == q
    ensures NoDup(s.flow.started) && NoDup(s.flow.queue) && NoDup(s.flow.done)
    ensures x in s.flow.started <==> x in s.flow.done || exists w :: F.At(s.flow, x, F.Executing(w))
  {
    hide Inv;
    ReachableInv(s);
    InvParts(s);
    hide F.At, K.Inv, Shape;
  }
}
