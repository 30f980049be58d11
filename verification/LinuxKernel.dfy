/** The Linux kernel side itself: the system calls and scheduler hooks that change
    task fields and lists in place, each proved to take its step of the protocol. */
module LinuxKernel {
  import opened Buffers
  import opened Events
  import opened Lists
  import opened LinuxProtocol
  import opened LinuxSafety
  import opened LinuxCollect

  const EAGAIN := 11
  const EFAULT := 14
  const EINVAL := 22
  const EPERM := 1
  const ESRCH := 3
  const ETIMEDOUT := 110

  const WAIT_FLAG_INTERRUPTED := 1

  /** What a step does to a state in order. */
  lemma StepGood(s: State, step: Step)
    ensures Inv(s) && CanAct(s, step) && UserRule(s, step) ==> Apply(s, step).Live? && Inv(Apply(s, step).state)
  {
    hide Inv, CanAct, UserRule, Apply;
    if Inv(s) && CanAct(s, step) && UserRule(s, step) { StepKeeps(s, step); }
  }

  /** Every mailbox holds the encoding of its event, with the id that the worker
      had when it reported. */
  ghost predicate MailWords(mail: map<Tid, Mail>, words: map<Tid, bv64>, senders: map<Tid, bv64>)
  {
    forall t :: t in mail ==>
      t in words && t in senders && ValidId(senders[t]) && words[t] == Encode(senders[t], mail[t].event)
  }

  lemma MailPut(mail: map<Tid, Mail>, words: map<Tid, bv64>, senders: map<Tid, bv64>, t: Tid, m: Mail, id: bv64)
    requires MailWords(mail, words, senders) && ValidId(id)
    ensures MailWords(mail[t := m], words[t := Encode(id, m.event)], senders[t := id])
  {
    hide ValidId;
  }

  lemma MailDrop(mail: map<Tid, Mail>, words: map<Tid, bv64>, senders: map<Tid, bv64>, t: Tid)
    requires MailWords(mail, words, senders)
    ensures MailWords(mail - {t}, words, senders)
    ensures t in mail ==>
            t in words && t in senders && ValidId(senders[t]) && words[t] == Encode(senders[t], mail[t].event)
  {
    hide ValidId;
  }

  lemma IdAligned(ids: map<Tid, bv64>, t: Tid)
    requires AlignedIds(ids)
    ensures ValidId(if t in ids then ids[t] else 0) && AlignedIds(ids - {t})
  {
  }

  /** A worker that is not in the middle of anything is not on the idle list. */
  lemma OffTheList(s: State, t: Tid)
    requires Inv(s) && (s.Is(t, WRunning) || s.Is(t, WBlocked) || s.Is(t, WRunnable))
    ensures !IsLast(s.idleWorkers, t)
  {
    hide Bijection, Mailboxes, ServerList, Tokens, Timers;
    assert !LinuxSafety.Listed(s.status, t);
    assert t !in s.idleWorkers;
  }

  lemma SwitchIs(s: State, t: Tid, target: Tid)
    requires s.Is(t, SRunning)
    ensures Apply(s, SwitchFromServer(t, target))
            == if target !in s.status then Live(s)
               else WakeWorker(s.(status := s.status[t := SAttached], inLoop := s.inLoop + {t}, armed := s.armed - {t}),
                               target, t)
  {
    hide WakeWorker;
  }

  lemma SwapIs(s: State, t: Tid, target: Tid, timed: bool)
    requires target in s.status && s.Is(t, WRunning) && t in s.server
    ensures var s1 := s.(status := s.status[t := WSwapping], server := s.server - {t}, waiting := s.waiting + {t},
                         armed := if timed then s.armed + {t} else s.armed);
            Apply(s, SwitchFromWorker(t, target, timed))
            == match EnqueueIdleWorker(s1, t)
               case Killed => Killed
               case Live(s2) =>
                 match WakeWorker(s2, target, s.server[t])
                 case Killed => Killed
                 case Live(s3) => Live(WakeIdleServer(s3))
  {
    hide EnqueueIdleWorker, WakeWorker, WakeIdleServer;
  }

  class Kernel {
    var status: map<Tid, Status>
    var server: map<Tid, Tid>
    var mail: map<Tid, Mail>
    var words: map<Tid, bv64>
    var ids: map<Tid, bv64>
    var head: Option<Tid>
    var next: map<Tid, Tid>
    var idleServers: seq<Tid>
    var killed: bool
    ghost var senders: map<Tid, bv64>
    ghost var list: seq<Tid>
    ghost var inLoop: set<Tid>
    ghost var waiting: set<Tid>
    ghost var credit: set<Tid>
    ghost var lost: set<Tid>
    ghost var armed: set<Tid>

    ghost function Abs(): State reads this
    {
      State(status, server, mail, list, idleServers, inLoop, waiting, credit, lost, armed)
    }

    ghost predicate Valid() reads this
    {
      Threads(head, next, list) && AlignedIds(ids) && (killed || MailWords(mail, words, senders))
    }

    function Id(t: Tid): bv64 reads this { if t in ids then ids[t] else 0 }

    ghost predicate At(o: Outcome) reads this
    {
      match o
      case Killed => killed
      case Live(s) => Abs() == s && !killed
    }

    constructor ()
      ensures Valid() && Abs() == INITIAL && !killed
    {
      status, server, mail, words, ids := map[], map[], map[], map[], map[];
      head, next, idleServers, killed := None, map[], [], false;
      senders, list, inLoop, waiting, credit, lost, armed := map[], [], {}, {}, {}, {}, {};
    }

    // -------------------------------------------------------------- helpers

    method SendMail(to: Option<Tid>, t: Tid, id: bv64, e: Event)
      requires Valid() && !killed && ValidId(id)
      modifies this`mail, this`words, this`senders, this`status, this`killed
      ensures Valid() && At(WakeServer(old(Abs()), to, Mail(t, e)))
      ensures to.None? ==> killed
      ensures to.Some? ==> words == old(words)[to.value := Encode(id, e)] && senders == old(senders)[to.value := id]
    {
      hide Threads, AlignedIds, MailWords, ValidId;
      if to.None? { killed := true; return; }
      MailPut(mail, words, senders, to.value, Mail(t, e), id);
      ghost var o := WakeServer(Abs(), to, Mail(t, e));
      var bad := to.value in mail;
      mail := mail[to.value := Mail(t, e)];
      words, senders := words[to.value := Encode(id, e)], senders[to.value := id];
      if bad { killed := true; return; }
      if to.value in status {
        if status[to.value] == SAttached { status := status[to.value := SRunning]; } else { killed := true; }
      }
      assert if killed then o.Killed? else o == Live(Abs());
      hide WakeServer;
    }

    /** The check misses the worker that is last on the list: pushed again it ties
        the list into a ring. */
    method PushIdleWorker(t: Tid)
      requires Valid() && !killed
      modifies this`head, this`next, this`list, this`killed
      ensures !old(IsLast(list, t)) ==> Valid() && At(EnqueueIdleWorker(old(Abs()), t))
      ensures old(IsLast(list, t)) ==> !killed && forall l :: !Threads(head, next, l)
    {
      LinkedMeansNext(head, next, list, t);
      LastHasNoNext(list, t);
      ThreadHead(head, next, list);
      if IsLast(list, t) {
        ghost var ring := next[t := list[0]];
        forall l ensures !Threads(Some(t), ring, l) { RingIsNoList(head, next, list, t, l); }
      } else if t !in list {
        ThreadPush(head, next, list, t);
      }
      if t in next {
        killed := true;
      } else {
        if head.Some? { next := next[t := head.value]; }
        head := Some(t);
        list := [t] + list;
      }
    }

    method PopIdleWorker() returns (w: Option<Tid>)
      requires Valid()
      modifies this`head, this`next, this`list
      ensures Valid() && w == (if old(list) == [] then None else Some(old(list)[0]))
      ensures list == if old(list) == [] then [] else old(list)[1..]
    {
      w := head;
      if head.Some? {
        ThreadPop(head, next, list);
        var t := head.value;
        head := if t in next then Some(next[t]) else None;
        next := next - {t};
        list := list[1..];
      }
    }

    method PushIdleServer(t: Tid)
      requires Valid() && !killed
      modifies this`status, this`idleServers, this`killed
      ensures Valid()
      ensures At(EnqueueIdleServer(old(Abs()), t))
    {
      if head.Some? {
        if t in status && status[t] == SIdle { status := status[t := SRunning]; } else { killed := true; }
      } else if t in idleServers {
        killed := true;
      } else {
        idleServers := [t] + idleServers;
      }
    }

    method WakeOneIdleServer() returns (woken: bool)
      modifies this`status, this`idleServers
      ensures old(Valid()) ==> Valid()
      ensures Abs() == WakeIdleServer(old(Abs())) && (woken <==> old(idleServers) != [])
    {
      woken := idleServers != [];
      if woken {
        var t := idleServers[0];
        idleServers := idleServers[1..];
        status := status[t := SRunning];
      }
    }

    method ResumeWorker(w: Tid, t: Tid)
      requires !killed
      modifies this`status, this`server, this`waiting, this`credit, this`armed, this`killed
      ensures old(Valid()) ==> Valid()
      ensures At(WakeWorker(old(Abs()), w, t))
    {
      hide Threads, AlignedIds, MailWords;
      ghost var o := WakeWorker(Abs(), w, t);
      var good := w in status && status[w] == WRunnable;
      assert o.Killed? <==> !good;
      server := server[w := t];
      status := status[w := WRunning];
      waiting, credit, armed := waiting - {w}, credit - {w}, armed - {w};
      killed := !good;
      assert good ==> o == Live(Abs());
      hide WakeWorker;
    }

    /** Puts a worker that has become idle on the list and wakes a server for it. */
    method Announce(t: Tid, st: Status)
      requires Valid() && !killed
      modifies this`status, this`head, this`next, this`list, this`idleServers, this`killed
      ensures !old(IsLast(list, t)) ==> Valid()
      ensures !old(IsLast(list, t)) ==>
              At(match EnqueueIdleWorker(old(Abs()).Set(t, st), t)
                 case Killed => Killed
                 case Live(s1) => Live(WakeIdleServer(s1)))
    {
      status := status[t := st];
      PushIdleWorker(t);
      if !killed { var _ := WakeOneIdleServer(); }
    }

    /** A worker leaves its server for `st`, reporting `e`. */
    method Detach(t: Tid, st: Status, e: Event)
      requires Valid() && !killed
      modifies this`status, this`server, this`mail, this`words, this`senders, this`killed
      ensures Valid()
      ensures At(WakeServer(old(Abs()).Set(t, st).(server := old(server) - {t}), ServerOf(old(Abs()), t), Mail(t, e)))
      ensures t in old(server) ==> words == old(words)[old(server[t]) := Encode(Id(t), e)]
    {
      hide Threads, AlignedIds, MailWords, ValidId, WakeServer;
      IdAligned(ids, t);
      var to := if t in server then Some(server[t]) else None;
      server := server - {t};
      status := status[t := st];
      SendMail(to, t, Id(t), e);
    }

    // -------------------------------------------------------- registration

    method Register(t: Tid, extra: bool, id: bv64) returns (rv: int)
      requires Valid() && !killed
      modifies this`status, this`server, this`ids
      ensures !extra && ValidId(id) ==> At(Apply(old(Abs()), RegisterWorker(t)))
      ensures extra || !ValidId(id) ==> Abs() == old(Abs())
      ensures rv == if extra || t in old(status) || !ValidId(id) then -EINVAL else 0
      ensures ids == if rv == 0 then old(ids)[t := id] else old(ids)
      ensures Valid() && !killed
      ensures old(Inv(Abs()) && CanAct(Abs(), RegisterWorker(t))) ==> Inv(Abs())
      ensures rv != 0 && !killed ==> Abs() == old(Abs())
    {
      hide Inv, CanAct, Threads, MailWords;
      StepGood(Abs(), RegisterWorker(t));
      if extra || t in status || id & EVENT_MASK != 0 { return -EINVAL; }
      server := server - {t};
      ids := ids[t := id];
      status := status[t := WBlocked];
      return 0;
    }

    method RegisterAsServer(t: Tid, extra: bool) returns (rv: int)
      requires Valid() && !killed
      modifies this`status, this`mail
      ensures !extra ==> At(Apply(old(Abs()), RegisterServer(t)))
      ensures extra ==> Abs() == old(Abs())
      ensures rv == if extra || t in old(status) then -EINVAL else 0
      ensures Valid() && !killed
      ensures old(Inv(Abs()) && CanAct(Abs(), RegisterServer(t))) ==> Inv(Abs())
      ensures rv != 0 && !killed ==> Abs() == old(Abs())
    {
      hide Inv, CanAct, Threads, AlignedIds, MailWords;
      StepGood(Abs(), RegisterServer(t));
      if extra || t in status { return -EINVAL; }
      MailDrop(mail, words, senders, t);
      mail := mail - {t};
      status := status[t := SRunning];
      return 0;
    }

    method LeaveWorker(t: Tid) returns (rv: int)
      requires Valid() && !killed && t in status
      modifies this`status, this`server, this`mail, this`words, this`senders, this`ids, this`killed
      ensures Valid()
      ensures At(WakeServer(old(Abs()).(status := old(status) - {t}, server := old(server) - {t}),
                            ServerOf(old(Abs()), t), Mail(t, Exit)))
      ensures rv == if t in old(server) then 0 else -EINVAL
      ensures rv != 0 ==> killed
      ensures t in old(server) ==> words == old(words)[old(server[t]) := Encode(old(Id(t)), Exit)]
      ensures ids == old(ids) - {t}
    {
      hide WakeServer, Threads, AlignedIds, MailWords, ValidId;
      IdAligned(ids, t);
      var to := if t in server then Some(server[t]) else None;
      status := status - {t};
      server := server - {t};
      SendMail(to, t, Id(t), Exit);
      ids := ids - {t};
      return if to.None? then -EINVAL else 0;
    }

    method Leave(t: Tid, extra: bool) returns (rv: int)
      requires Valid() && !killed
      modifies this`status, this`server, this`mail, this`words, this`senders, this`ids, this`killed
      ensures !extra ==> At(Apply(old(Abs()), Unregister(t)))
      ensures extra ==> Abs() == old(Abs()) && !killed
      ensures rv == if extra || !(old(Abs()).Is(t, SRunning) || old(Abs()).Is(t, WRunning)) then -EINVAL
                    else if old(Abs()).Is(t, WRunning) && t !in old(server) then -EINVAL else 0
      ensures Valid()
      ensures old(Inv(Abs()) && CanAct(Abs(), Unregister(t))) ==> Inv(Abs()) && !killed
      ensures rv != 0 && !killed ==> Abs() == old(Abs())
      ensures rv == 0 && old(Abs()).Is(t, WRunning) ==>
                words == old(words)[old(server[t]) := Encode(old(Id(t)), Exit)] && ids == old(ids) - {t}
      ensures rv != 0 && !killed ==> words == old(words) && ids == old(ids)
    {
      hide Inv, CanAct, WakeServer, Threads, AlignedIds, MailWords;
      StepGood(Abs(), Unregister(t));
      if extra || t !in status { return -EINVAL; }
      if status[t] == SRunning {
        status := status - {t};
        return 0;
      }
      if status[t] != WRunning { return -EINVAL; }
      rv := LeaveWorker(t);
    }

    // ------------------------------------------------------ wait and switch

    /** umcg_wait by a running server, up to where it starts to sleep. With the
        INTERRUPTED flag it goes on where a signal had stopped it. */
    method EnterWait(t: Tid, flags: nat, size: int) returns (rv: int)
      requires Valid() && !killed && t in status && status[t] == SRunning
      modifies this`status, this`mail, this`idleServers, this`inLoop, this`killed
      ensures flags == 0 ==> At(Apply(old(Abs()), ServerWait(t, size)))
      ensures flags == WAIT_FLAG_INTERRUPTED ==> Abs() == old(Abs()).(inLoop := old(inLoop) + {t}) && !killed && rv == 0
      ensures flags > WAIT_FLAG_INTERRUPTED ==> Abs() == old(Abs()) && !killed
      ensures flags != WAIT_FLAG_INTERRUPTED ==> rv == if flags != 0 || size < 2 || t in old(mail) then -EINVAL else 0
      ensures Valid()
      ensures flags != WAIT_FLAG_INTERRUPTED && old(Inv(Abs()) && CanAct(Abs(), ServerWait(t, size))) ==>
              Inv(Abs()) && !killed
      ensures rv != 0 && !killed ==> Abs() == old(Abs())
    {
      hide Inv, CanAct, Threads, MailWords, AlignedIds;
      StepGood(Abs(), ServerWait(t, size));
      assert UserRule(Abs(), ServerWait(t, size));
      if flags == WAIT_FLAG_INTERRUPTED {
        inLoop := inLoop + {t};
        return 0;
      }
      if size < 2 { return -EINVAL; }
      if flags != 0 { return -EINVAL; }
      if t in mail { killed := true; return -EINVAL; }
      status := status[t := SIdle];
      inLoop := inLoop + {t};
      PushIdleServer(t);
      return 0;
    }

    /** The same by a running worker; an interrupted wait has ended by then. */
    method EnterWorkerWait(t: Tid, flags: nat, extra: bool, timed: bool) returns (rv: int)
      requires Valid() && !killed && t in status && status[t] == WRunning
      modifies this`status, this`server, this`mail, this`words, this`senders, this`waiting, this`armed, this`killed
      ensures flags == 0 && !extra ==> At(Apply(old(Abs()), WorkerWait(t, timed))) && rv == 0
      ensures flags != 0 || extra ==> Abs() == old(Abs()) && !killed
      ensures flags != 0 || extra ==> rv == if flags == WAIT_FLAG_INTERRUPTED then 0 else -EINVAL
      ensures Valid()
      ensures old(Inv(Abs()) && CanAct(Abs(), WorkerWait(t, timed))) ==> Inv(Abs()) && !killed
      ensures rv != 0 && !killed ==> Abs() == old(Abs())
      ensures t in old(server) && flags == 0 && !extra ==>
                words == old(words)[old(server[t]) := Encode(old(Id(t)), Wait)]
    {
      hide Inv, CanAct, Threads, MailWords, AlignedIds;
      StepGood(Abs(), WorkerWait(t, timed));
      if flags == WAIT_FLAG_INTERRUPTED { return 0; }
      if flags != 0 { return -EINVAL; }
      if extra { return -EINVAL; }
      waiting := waiting + {t};
      if timed { armed := armed + {t}; }
      Detach(t, WRunnable, Wait);
      return 0;
    }

    /** umcg_wait by a thread that a signal took out of its idle loop, up to where
        it sleeps again. Only the INTERRUPTED flag lets it back in. */
    method ReenterWait(t: Tid, flags: nat, limit: Limit) returns (rv: int)
      requires Valid() && !killed && t in status
      requires status[t] in {SIdle, SAttached, WRunnable, WSwapping}
      modifies this`status, this`idleServers, this`armed
      ensures flags == WAIT_FLAG_INTERRUPTED ==> At(Apply(old(Abs()), Reenter(t, limit)))
      ensures flags != WAIT_FLAG_INTERRUPTED ==> Abs() == old(Abs()) && rv == -EINVAL
      ensures flags == WAIT_FLAG_INTERRUPTED ==>
              rv == if old(IsServer(status[t])) && limit.Poll? then -ETIMEDOUT else 0
      ensures Valid() && !killed
      ensures old(Inv(Abs()) && CanAct(Abs(), Reenter(t, limit)) && UserRule(Abs(), Reenter(t, limit))) ==> Inv(Abs())
    {
      hide Inv, CanAct, UserRule, Threads, MailWords, AlignedIds;
      StepGood(Abs(), Reenter(t, limit));
      if flags != WAIT_FLAG_INTERRUPTED { return -EINVAL; }
      if IsServer(status[t]) && limit.Poll? {
        idleServers := Without(idleServers, t);
        status := status[t := SRunning];
        return -ETIMEDOUT;
      }
      if limit.NoLimit? || status[t] == SIdle { armed := armed - {t}; } else { armed := armed + {t}; }
      return 0;
    }

    /** `thread` says whether the tid names a thread at all. */
    method SwitchFromRunningServer(t: Tid, target: Tid, thread: bool, timed: bool) returns (rv: int)
      requires Valid() && !killed && t in status && status[t] == SRunning
      modifies this`status, this`server, this`inLoop, this`waiting, this`credit, this`armed, this`killed
      ensures thread && !timed ==> At(Apply(old(Abs()), SwitchFromServer(t, target)))
      ensures !thread || timed ==> Abs() == old(Abs()) && !killed
      ensures rv == if !thread then -ESRCH else if target !in old(status) then -EPERM else if timed then -EINVAL else 0
      ensures Valid()
      ensures old(Inv(Abs()) && CanAct(Abs(), SwitchFromServer(t, target))
                  && UserRule(Abs(), SwitchFromServer(t, target)))
              ==> Inv(Abs()) && !killed
      ensures rv != 0 && !killed ==> Abs() == old(Abs())
    {
      hide Inv, CanAct, UserRule, Threads, AlignedIds, MailWords, WakeWorker;
      StepGood(Abs(), SwitchFromServer(t, target));
      SwitchIs(Abs(), t, target);
      hide Apply;
      if !thread { return -ESRCH; }
      if target !in status { return -EPERM; }
      if timed { return -EINVAL; }
      status := status[t := SAttached];
      inLoop, armed := inLoop + {t}, armed - {t};
      ResumeWorker(target, t);
      return 0;
    }

    /** The calling worker goes on the list, its server to the target. */
    method Swap(t: Tid, target: Tid, timed: bool)
      requires Valid() && !killed && t in status && status[t] == WRunning && t in server && target in status
      modifies this`status, this`server, this`head, this`next, this`list, this`idleServers
      modifies this`waiting, this`credit, this`armed, this`killed
      ensures !old(IsLast(list, t)) ==> Valid() && At(Apply(old(Abs()), SwitchFromWorker(t, target, timed)))
    {
      hide Threads, AlignedIds, MailWords, EnqueueIdleWorker, WakeWorker, WakeIdleServer, IsLast;
      SwapIs(Abs(), t, target, timed);
      hide Apply;
      var mine := server[t];
      server := server - {t};
      status := status[t := WSwapping];
      waiting, armed := waiting + {t}, if timed then armed + {t} else armed;
      ghost var s1 := Abs();
      PushIdleWorker(t);
      if killed { return; }
      assert IsLast(old(list), t) || EnqueueIdleWorker(s1, t) == Live(Abs());
      ResumeWorker(target, mine);
      if killed { return; }
      var _ := WakeOneIdleServer();
    }

    method SwitchFromRunningWorker(t: Tid, target: Tid, thread: bool, slots: bool, timed: bool) returns (rv: int)
      requires Valid() && !killed && t in status && status[t] == WRunning && t in server
      modifies this`status, this`server, this`head, this`next, this`list, this`idleServers
      modifies this`waiting, this`credit, this`armed, this`killed
      ensures thread && !slots && !old(IsLast(list, t)) ==>
              At(Apply(old(Abs()), SwitchFromWorker(t, target, timed)))
      ensures !thread || slots ==> Abs() == old(Abs()) && !killed
      ensures rv == if !thread then -ESRCH else if target !in old(status) then -EPERM else if slots then -EINVAL else 0
      ensures !old(IsLast(list, t)) ==> Valid()
      ensures old(Inv(Abs()) && CanAct(Abs(), SwitchFromWorker(t, target, timed))
                  && UserRule(Abs(), SwitchFromWorker(t, target, timed)))
              ==> Valid() && Inv(Abs()) && !killed
      ensures rv != 0 && !killed ==> Abs() == old(Abs())
    {
      hide Inv, CanAct, UserRule, Threads, AlignedIds, MailWords, IsLast;
      StepGood(Abs(), SwitchFromWorker(t, target, timed));
      if Inv(Abs()) { OffTheList(Abs(), t); }
      assert target !in status ==> Apply(Abs(), SwitchFromWorker(t, target, timed)) == Live(Abs());
      hide Apply;
      if !thread { return -ESRCH; }
      if target !in status { return -EPERM; }
      if slots { return -EINVAL; }
      Swap(t, target, timed);
      return 0;
    }

    method WakeCall(extra: bool) returns (rv: int)
      requires Valid() && !killed
      modifies this`status, this`idleServers
      ensures !extra ==> At(Apply(old(Abs()), WakeCommand))
      ensures rv == if extra then -EINVAL else if old(idleServers) == [] then -EAGAIN else 0
      ensures extra ==> Abs() == old(Abs())
      ensures Valid() && !killed
      ensures old(Inv(Abs())) ==> Inv(Abs())
      ensures rv != 0 && !killed ==> Abs() == old(Abs())
    {
      hide Inv;
      StepGood(Abs(), WakeCommand);
      assert CanAct(Abs(), WakeCommand) && UserRule(Abs(), WakeCommand);
      if extra { return -EINVAL; }
      var woken := WakeOneIdleServer();
      return if woken then 0 else -EAGAIN;
    }

    // ---------------------------------------------------------------- hooks

    method Preempt(t: Tid)
      requires Valid() && !killed
      modifies this`status, this`server, this`mail, this`words, this`senders, this`killed
      ensures Valid() && At(Apply(old(Abs()), WorkerPreempt(t)))
      ensures old(Inv(Abs()) && CanAct(Abs(), WorkerPreempt(t))) ==> Inv(Abs()) && !killed
      ensures t in old(server) && old(Abs()).Is(t, WRunning) ==>
                words == old(words)[old(server[t]) := Encode(old(Id(t)), Event.Preempt)]
    {
      hide Inv, CanAct, Threads, MailWords, AlignedIds;
      StepGood(Abs(), WorkerPreempt(t));
      if !(t in status && status[t] == WRunning) { killed := true; return; }
      Detach(t, WRunnable, Event.Preempt);
    }

    method Sleeping(t: Tid)
      requires Valid() && !killed
      modifies this`status, this`server, this`mail, this`words, this`senders, this`killed
      ensures Valid() && At(Apply(old(Abs()), WorkerBlock(t)))
      ensures old(Inv(Abs()) && CanAct(Abs(), WorkerBlock(t))) ==> Inv(Abs()) && !killed
      ensures t in old(server) && old(Abs()).Is(t, WRunning) ==>
                words == old(words)[old(server[t]) := Encode(old(Id(t)), Block)]
    {
      hide Inv, CanAct, Threads, MailWords, AlignedIds;
      StepGood(Abs(), WorkerBlock(t));
      if !(t in status && status[t] == WRunning) { killed := true; return; }
      Detach(t, WBlocked, Block);
    }

    /** The part of umcg_notify_resume for a blocked worker. */
    method NotifyResume(t: Tid)
      requires Valid() && !killed
      modifies this`status, this`head, this`next, this`list, this`idleServers, this`killed
      ensures !old(IsLast(list, t)) ==> Valid() && At(Apply(old(Abs()), WorkerWake(t)))
      ensures old(Inv(Abs()) && CanAct(Abs(), WorkerWake(t))) ==> Valid() && Inv(Abs()) && !killed
    {
      hide Inv, CanAct, Threads, MailWords, AlignedIds;
      StepGood(Abs(), WorkerWake(t));
      if !(t in status && status[t] == WBlocked) { killed := true; return; }
      if Inv(Abs()) { OffTheList(Abs(), t); }
      Announce(t, WWaking);
    }

    method TimedOutWorker(t: Tid)
      requires Valid() && !killed
      modifies this`status, this`head, this`next, this`list, this`idleServers, this`waiting, this`killed
      ensures !old(IsLast(list, t)) || old(Abs()).Is(t, WSwapping) ==>
              Valid() && At(Apply(old(Abs()), WorkerTimeout(t)))
      ensures old(Inv(Abs()) && CanAct(Abs(), WorkerTimeout(t))) ==> Valid() && Inv(Abs()) && !killed
    {
      hide Inv, CanAct, Threads, MailWords, AlignedIds;
      StepGood(Abs(), WorkerTimeout(t));
      if t in status && status[t] == WSwapping {
        status, waiting := status[t := WSwappingTimeout], waiting - {t};
      } else if t in status && status[t] == WRunnable {
        if Inv(Abs()) { OffTheList(Abs(), t); }
        waiting := waiting - {t};
        Announce(t, WRunnableTimeout);
      } else {
        killed := true;
      }
    }

    method TimedOutServer(t: Tid)
      requires Valid() && !killed
      modifies this`status, this`idleServers
      ensures Valid() && At(Apply(old(Abs()), ServerTimeout(t)))
      ensures old(Inv(Abs()) && CanAct(Abs(), ServerTimeout(t))) ==> Inv(Abs())
    {
      hide Inv, CanAct, Threads, MailWords, AlignedIds;
      StepGood(Abs(), ServerTimeout(t));
      idleServers := Without(idleServers, t);
      status := status[t := SRunning];
    }

    // ----------------------------------------------------------- collection

    /** The reports for a worker found on the list with status `st`, from word `i`;
        false if a word cannot be written. */
    method WriteReports(w: Tid, st: Status, events: array<bv64>, i: nat, faults: set<nat>) returns (ok: bool)
      requires LinuxProtocol.Owed(st) != [] && Bounded(events.Length, i, 2, faults)
      modifies events
      ensures ok <==> Writable(i, i + |LinuxProtocol.Owed(st)|, faults)
      ensures ok ==> i + |LinuxProtocol.Owed(st)| <= events.Length
      ensures ok ==> events[..] == Splice(old(events[..]), i, Words(ids, Reports(w, LinuxProtocol.Owed(st))))
    {
      ghost var was := events[..];
      var id := if w in ids then ids[w] else 0;
      var e := match st case WWaking => Wake case WRunnableTimeout => Timeout case _ => Wait;
      ok := PutUser(events, i, faults, Encode(id, e));
      if ok && st == WSwappingTimeout {
        ok := PutUser(events, i + 1, faults, Encode(id, Timeout));
      }
      ghost var ws := Words(ids, Reports(w, LinuxProtocol.Owed(st)));
      assert ws == if st == WSwappingTimeout then [Encode(id, Wait), Encode(id, Timeout)] else [Encode(id, e)];
    }

    /** One turn: the worker is taken off the list, becomes RUNNABLE and is reported. */
    method CollectTurn(events: array<bv64>, i: nat, faults: set<nat>) returns (k: nat)
      requires Valid() && !killed && list != [] && Bounded(events.Length, i, 2, faults)
      modifies this`status, this`head, this`next, this`list, this`credit, this`armed, this`killed, events
      ensures Valid()
      ensures CollectOne(old(Abs())).Killed? ==> killed
      ensures CollectOne(old(Abs())).Live? ==>
                && (killed <==> !Writable(i, i + |Turn(old(Abs()))|, faults))
                && (!killed ==>
                      && Abs() == CollectOne(old(Abs())).state && k == |Turn(old(Abs()))| && i + k <= events.Length
                      && events[..] == Splice(old(events[..]), i, Words(ids, Turn(old(Abs())))))
    {
      hide Threads, AlignedIds, MailWords, Words, Splice;
      var w := PopIdleWorker();
      var t := w.value;
      k := 0;
      if t !in status { killed := true; return; }
      var st := status[t];
      if LinuxProtocol.Owed(st) == [] { killed := true; return; }
      status := status[t := WRunnable];
      var ok := WriteReports(t, st, events, i, faults);
      if !ok { killed := true; return; }
      k := |LinuxProtocol.Owed(st)|;
      Tell(t, LinuxProtocol.Owed(st));
    }

    /** What user space learns from the reports `es` about worker `t`. */
    ghost method Tell(t: Tid, es: seq<Event>)
      modifies this`credit, this`armed
      ensures Abs() == Learn(old(Abs()), t, es)
    {
      credit := if Wake in es || Wait in es || Event.Preempt in es then credit + {t} else credit;
      armed := if Timeout in es then armed - {t} else armed;
    }

    /** The loop over the idle list. A fault kills, as does a strange status. */
    method CollectWorkers(events: array<bv64>, at: nat, size: int, faults: set<nat>) returns (n: nat)
      requires Valid() && !killed && Bounded(events.Length, at, size, faults)
      modifies this`status, this`head, this`next, this`list, this`credit, this`armed, this`killed, events
      ensures Valid()
      ensures Looped(ids, old(Abs()), size, old(events[..]), at, faults, killed, Abs(), n, events[..])
      ensures n <= if size < 0 then 0 else size
    {
      hide Midway, CollectIdle, Collected, CollectOne, Turn, Words, Splice, Bounded, Writable, Threads;
      ghost var s, was, written := Abs(), events[..], [];
      var sz := size;
      n := 0;
      MidwayStart(ids, s, size, was, at, faults);
      while sz > 1
        invariant Valid() && !killed && n == |written|
        invariant Midway(ids, s, size, was, at, faults, Abs(), sz, written, events[..])
        decreases |list|
      {
        ghost var now, buf := Abs(), events[..];
        MidwayFacts(ids, s, size, was, at, faults, now, sz, written, buf);
        MidwayFits(ids, s, size, was, at, faults, now, sz, written, buf);
        ThreadHead(head, next, list);
        if head.None? { break; }
        var k := CollectTurn(events, at + n, faults);
        if killed {
          if CollectOne(now).Killed? {
            MidwayKill(ids, s, size, was, at, faults, now, sz, written, buf);
          } else {
            MidwayFault(ids, s, size, was, at, faults, now, sz, written, buf);
          }
          return;
        }
        MidwayTurn(ids, s, size, was, at, faults, now, sz, written, buf);
        written := written + Turn(now);
        n, sz := n + k, sz - k;
      }
      MidwayFits(ids, s, size, was, at, faults, Abs(), sz, written, events[..]);
      MidwayEnd(ids, s, size, was, at, faults, Abs(), sz, written, events[..]);
      MidwayOpen(ids, s, size, was, at, faults, Abs(), sz, written, events[..]);
    }

    /** The loop and the zero behind its reports. */
    method CollectAll(events: array<bv64>, at: nat, size: int, faults: set<nat>) returns (n: nat)
      requires Valid() && !killed && Bounded(events.Length, at, size, faults)
      modifies this`status, this`head, this`next, this`list, this`credit, this`armed, this`killed, events
      ensures Valid() && Gathered(ids, old(Abs()), size, old(events[..]), at, faults, killed, Abs(), events[..])
      ensures !killed ==> n == |Collected(old(Abs()), size)|
      ensures !killed ==> Live(Abs()) == CollectIdle(old(Abs()), size)
    {
      hide Gathered, Looped, Collected, CollectIdle, Words, Splice, Threads, Bounded;
      ghost var s, was := Abs(), events[..];
      n := CollectWorkers(events, at, size, faults);
      ghost var buf := events[..];
      if !killed { LoopedLive(ids, s, size, was, at, faults, Abs(), n, buf); }
      if killed {
        GatherKilled(ids, s, size, was, at, faults, Abs(), n, buf);
      } else if size - n > 0 {
        GatherZero(ids, s, size, was, at, faults, Abs(), n, buf);
        var ok := PutUser(events, at + n, faults, 0);
        if !ok { killed := true; }
      } else {
        GatherFull(ids, s, size, was, at, faults, Abs(), n, buf);
      }
    }

    /** The server's own mail goes into the first word. */
    method TakeMail(t: Tid, events: array<bv64>, size: nat, faults: set<nat>) returns (ok: bool)
      requires Valid() && !killed && t in mail && size > 0 && Bounded(events.Length, 0, size, faults)
      modifies this`mail, this`inLoop, this`credit, this`lost, this`armed, events
      ensures Valid() && t in words
      ensures ok <==> 0 !in faults
      ensures !ok ==> Live(Abs()) == Apply(old(Abs()), LoseMail(t))
      ensures ok ==>
              Abs() == AfterMail(old(Abs()), t) && events.Length > 0 && Bounded(events.Length, 1, size - 1, faults)
      ensures ok ==> events[..] == old(events[..])[0 := words[t]]
    {
      hide Threads, AlignedIds, MailWords, ValidId;
      MailDrop(mail, words, senders, t);
      ghost var m := mail[t];
      mail := mail - {t};
      inLoop := inLoop - {t};
      ok := PutUser(events, 0, faults, words[t]);
      if !ok {
        lost := if m.event.Wait? || m.event.Preempt? then lost + {m.worker} else lost;
        return;
      }
      Tell(m.worker, [m.event]);
    }

    /** Mail goes first. A fault on its word loses it. */
    method CollectBehindMail(t: Tid, events: array<bv64>, size: nat, faults: set<nat>) returns (rv: int)
      requires Valid() && !killed && t in mail && size > 0 && Bounded(events.Length, 0, size, faults)
      modifies this`status, this`mail, this`head, this`next, this`list, this`inLoop
      modifies this`credit, this`lost, this`armed, this`killed, events
      ensures Valid() && t in senders && t in words
      ensures 0 in faults ==> rv == -EFAULT && At(Apply(old(Abs()), LoseMail(t)))
      ensures 0 !in faults ==>
                && events.Length > 0
                && Gathered(ids, AfterMail(old(Abs()), t), size - 1, old(events[..])[0 := words[t]], 1, faults,
                            killed, Abs(), events[..])
                && (!killed ==> rv == 0 && At(Apply(old(Abs()), Collect(t, size))))
      ensures size == events.Length && !killed && 0 !in faults ==>
                Decode(events[..]) == [Report(senders[t], old(mail)[t].event)]
                                      + ToReports(ids, Collected(AfterMail(old(Abs()), t), size - 1))
    {
      hide Gathered, CollectIdle, Collected, Threads, AfterMail, Bounded, Decode, AlignedIds, MailWords, ValidId;
      ghost var s := Abs();
      MailDrop(mail, words, senders, t);
      CollectIs(s, t, size);
      hide Apply;
      ghost var front := [Report(senders[t], mail[t].event)];
      var ok := TakeMail(t, events, size, faults);
      if !ok { return -EFAULT; }
      ghost var first := events[..];
      var _ := CollectAll(events, 1, size - 1, faults);
      if !killed && size == events.Length {
        assert first[..1] == EncodeAll(front);
        ReaderDecodes(ids, AfterMail(s, t), front, first, faults, Abs(), events[..]);
      }
      return 0;
    }

    method CollectWithoutMail(t: Tid, ret: int, events: array<bv64>, size: nat, faults: set<nat>) returns (rv: int)
      requires Valid() && !killed && t !in mail && size > 0 && Bounded(events.Length, 0, size, faults)
      modifies this`status, this`head, this`next, this`list, this`inLoop, this`credit, this`armed, this`killed, events
      ensures Valid()
      ensures Gathered(ids, AfterMail(old(Abs()), t), size, old(events[..]), 0, faults, killed, Abs(), events[..])
      ensures !killed ==> rv == if Collected(AfterMail(old(Abs()), t), size) != [] then 0 else ret
      ensures !killed ==> At(Apply(old(Abs()), Collect(t, size)))
      ensures size == events.Length && !killed ==>
                Decode(events[..]) == ToReports(ids, Collected(AfterMail(old(Abs()), t), size))
    {
      hide Gathered, CollectIdle, Collected, Threads, AfterMail, Bounded, Decode, AlignedIds, MailWords, ValidId;
      ghost var s, was := Abs(), events[..];
      CollectIs(s, t, size);
      hide Apply;
      inLoop := inLoop - {t};
      var n := CollectAll(events, 0, size, faults);
      if !killed && size == events.Length {
        assert was[..0] == EncodeAll([]);
        ReaderDecodes(ids, AfterMail(s, t), [], was, faults, Abs(), events[..]);
        ghost var rs := ToReports(ids, Collected(AfterMail(s, t), size));
        assert [] + rs == rs;
      }
      return if n > 0 then 0 else ret;
    }

    /** umcg_server_idle_loop once the server is awake; `ret` is 0 or the timeout.
        A fault on the first word loses the mail, a later one kills. */
    method CollectEvents(t: Tid, ret: int, events: array<bv64>, size: nat, faults: set<nat>) returns (rv: int)
      requires Valid() && !killed && Bounded(events.Length, 0, size, faults)
      modifies this`status, this`mail, this`head, this`next, this`list, this`inLoop
      modifies this`credit, this`lost, this`armed, this`killed, events
      ensures Valid() && (t in old(mail) ==> t in senders && t in words)
      ensures size == 0 ==> rv == ret && At(Apply(old(Abs()), Collect(t, size))) && events[..] == old(events[..])
      ensures size > 0 && t in old(mail) && 0 in faults ==>
                rv == -EFAULT && At(Apply(old(Abs()), LoseMail(t)))
      ensures size > 0 && t in old(mail) && 0 !in faults ==>
                && events.Length > 0
                && Gathered(ids, AfterMail(old(Abs()), t), size - 1, old(events[..])[0 := words[t]], 1, faults,
                            killed, Abs(), events[..])
                && (!killed ==> rv == 0)
      ensures size > 0 && t !in old(mail) ==>
                && Gathered(ids, AfterMail(old(Abs()), t), size, old(events[..]), 0, faults, killed, Abs(), events[..])
                && (!killed ==> rv == if Collected(AfterMail(old(Abs()), t), size) != [] then 0 else ret)
      ensures size > 0 && !killed && (t in old(mail) ==> 0 !in faults) ==> At(Apply(old(Abs()), Collect(t, size)))
      ensures size == events.Length > 0 && !killed && (t in old(mail) ==> 0 !in faults) ==>
                var front := if t in old(mail) then [Report(senders[t], old(mail)[t].event)] else [];
                Decode(events[..]) == front + ToReports(ids, Collected(AfterMail(old(Abs()), t), size - |front|))
    {
      hide Gathered, CollectIdle, Collected, Threads, AfterMail, Bounded, Decode, AlignedIds, MailWords, ValidId;
      CollectIs(Abs(), t, size);
      hide Apply;
      if size == 0 {
        MailDrop(mail, words, senders, t);
        inLoop := inLoop - {t};
        return ret;
      }
      if t in mail {
        rv := CollectBehindMail(t, events, size, faults);
      } else {
        rv := CollectWithoutMail(t, ret, events, size, faults);
      }
    }
  }
}
