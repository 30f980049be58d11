/** What every run of the Linux protocol keeps. */
module LinuxSafety {
  import opened Lists
  import opened LinuxProtocol

  // -------------------------------------------------------------- invariant

  type Statuses = map<Tid, Status>

  predicate Has(st: Statuses, t: Tid, x: Status) { t in st && st[t] == x }

  /** `umcg_server` maps the RUNNING workers one-to-one onto the ATTACHED
      servers and is NULL everywhere else. */
  ghost predicate Bijection(st: Statuses, server: map<Tid, Tid>)
  {
    && (forall w :: w in server <==> Has(st, w, WRunning))
    && (forall t :: t in server.Values <==> Has(st, t, SAttached))
    && (forall w, x :: w in server && x in server && server[w] == server[x] ==> w == x)
  }

  /** Only a woken server that has not collected yet has mail. */
  ghost predicate Mailboxes(st: Statuses, mail: map<Tid, Mail>, inLoop: set<Tid>)
  {
    && (forall t :: t in inLoop ==> t in st && IsServer(st[t]))
    && (forall t :: Has(st, t, SIdle) || Has(st, t, SAttached) ==> t in inLoop)
    && (forall t :: t in mail ==> Has(st, t, SRunning) && t in inLoop)
    && (forall t :: t in mail ==> !mail[t].event.Wake? && !mail[t].event.Timeout?)
  }

  ghost predicate ServerList(st: Statuses, list: seq<Tid>)
  {
    NoDup(list) && forall t :: t in list <==> Has(st, t, SIdle)
  }

  predicate OnIdleList(st: Status)
  {
    st.WWaking? || st.WSwapping? || st.WSwappingTimeout? || st.WRunnableTimeout?
  }

  predicate Listed(st: Statuses, w: Tid) { w in st && OnIdleList(st[w]) }

  ghost predicate WorkerList(st: Statuses, list: seq<Tid>)
  {
    NoDup(list) && forall w :: w in list <==> Listed(st, w)
  }

  predicate Parked(st: Statuses, w: Tid) { w in st && (st[w].WRunnable? || st[w].WRunnableTimeout?) }

  predicate Announces(mail: map<Tid, Mail>, t: Tid, w: Tid)
  {
    t in mail && mail[t].worker == w && (mail[t].event.Wait? || mail[t].event.Preempt?)
  }

  ghost predicate Announced(mail: map<Tid, Mail>, w: Tid) { exists t :: Announces(mail, t, w) }

  /** The workers whose last report has left the kernel, for user space or for
      nobody. */
  function Told(s: State): set<Tid> { s.credit + s.lost }

  /** A parked worker is in `credit` or announced in exactly one mailbox, never
      both. */
  ghost predicate Tokens(st: Statuses, mail: map<Tid, Mail>, credit: set<Tid>)
  {
    && (forall w :: w in credit ==> Parked(st, w))
    && (forall t, w :: Announces(mail, t, w) ==> Parked(st, w) && w !in credit)
    && (forall t, u, w :: Announces(mail, t, w) && Announces(mail, u, w) ==> t == u)
    && (forall w :: Parked(st, w) ==> w in credit || Announced(mail, w))
  }

  ghost predicate Timers(st: Statuses, armed: set<Tid>)
  {
    && (forall w :: w in armed ==> Parked(st, w) || (Listed(st, w) && st[w] != WWaking))
    && (forall w :: Has(st, w, WRunnableTimeout) || Has(st, w, WSwappingTimeout) ==> w in armed)
  }

  ghost predicate Inv(s: State)
  {
    && Bijection(s.status, s.server)
    && Mailboxes(s.status, s.mail, s.inLoop)
    && ServerList(s.status, s.idleServers)
    && WorkerList(s.status, s.idleWorkers)
    && Tokens(s.status, s.mail, Told(s)) && s.credit !! s.lost
    && Timers(s.status, s.armed)
  }

  ghost predicate Good(o: Outcome) { o.Live? && Inv(o.state) }

  // ------------------------------------------------- one relation at a time

  /** Statuses agree except on `ts`. */
  ghost predicate Same(a: Statuses, b: Statuses, ts: set<Tid>)
  {
    forall t :: t !in ts ==> (t in a <==> t in b) && (t in a ==> a[t] == b[t])
  }

  lemma Detach(st: Statuses, server: map<Tid, Tid>, w: Tid, st2: Statuses)
    requires Bijection(st, server) && w in server
    requires Same(st, st2, {w, server[w]}) && Has(st2, server[w], SRunning)
    requires !Has(st2, w, WRunning) && !Has(st2, w, SAttached)
    ensures Bijection(st2, server - {w})
  {
    var t := server[w];
    assert t in server.Values;
    forall u ensures u in (server - {w}).Values <==> Has(st2, u, SAttached) {
      if u != t && u in server.Values {
        var x :| x in server && server[x] == u;
        assert x in server - {w};
      }
    }
  }

  lemma Attach(st: Statuses, server: map<Tid, Tid>, w: Tid, t: Tid, st2: Statuses)
    requires Bijection(st, server) && w !in server && w != t
    requires Same(st, st2, {w, t}) && Has(st2, w, WRunning) && Has(st2, t, SAttached)
    requires !Has(st, t, SAttached) && !Has(st, t, WRunning) && !Has(st, w, SAttached)
    ensures Bijection(st2, server[w := t])
  {
    var r := server[w := t];
    assert w in r;
    forall u ensures u in r.Values <==> Has(st2, u, SAttached) {
      if u in server.Values {
        var x :| x in server && server[x] == u;
        assert x in r && r[x] == u;
      }
    }
  }

  lemma PushWorker(st: Statuses, list: seq<Tid>, w: Tid, st2: Statuses)
    requires WorkerList(st, list) && !Listed(st, w) && Listed(st2, w)
    requires forall x :: x != w ==> (Listed(st, x) <==> Listed(st2, x))
    ensures WorkerList(st2, [w] + list) && !HasNext(list, w)
  {
  }

  lemma HandOver(st: Statuses, server: map<Tid, Tid>, w: Tid, x: Tid, st2: Statuses)
    requires Bijection(st, server) && w in server && x !in server
    requires Same(st, st2, {w, x}) && Has(st2, x, WRunning) && !Has(st, x, SAttached)
    requires !Has(st2, w, WRunning) && !Has(st2, w, SAttached)
    ensures Bijection(st2, (server - {w})[x := server[w]])
  {
    var r := (server - {w})[x := server[w]];
    assert server[w] in server.Values && x in r;
    forall u ensures u in r.Values <==> Has(st2, u, SAttached) {
      assert Has(st, u, SAttached) <==> Has(st2, u, SAttached);
      if u in server.Values {
        var y :| y in server && server[y] == u;
        assert y != w ==> y in r && r[y] == u;
      }
    }
  }

  /** Worker `w` parks and the mailbox of `t` says so. */
  lemma Announce(st: Statuses, mail: map<Tid, Mail>, credit: set<Tid>, w: Tid, t: Tid, m: Mail, st2: Statuses)
    requires Tokens(st, mail, credit) && t !in mail
    requires m.worker == w && (m.event.Wait? || m.event.Preempt?)
    requires !Parked(st, w) && Parked(st2, w)
    requires forall x :: x != w ==> (Parked(st, x) <==> Parked(st2, x))
    ensures Tokens(st2, mail[t := m], credit)
  {
    var mail2 := mail[t := m];
    assert forall u, x :: u != t ==> (Announces(mail, u, x) <==> Announces(mail2, u, x));
    assert Announces(mail2, t, w);
    forall x | Parked(st2, x) ensures x in credit || Announced(mail2, x) {
      if x != w && x !in credit {
        var u :| Announces(mail, u, x);
        assert Announces(mail2, u, x);
      }
    }
  }

  /** The parked workers stay the same and one mailbox gets other news. */
  lemma OtherMail(st: Statuses, mail: map<Tid, Mail>, credit: set<Tid>, t: Tid, m: Mail, st2: Statuses)
    requires Tokens(st, mail, credit) && t !in mail
    requires !m.event.Wait? && !m.event.Preempt?
    requires forall x :: Parked(st, x) <==> Parked(st2, x)
    ensures Tokens(st2, mail[t := m], credit)
  {
    var mail2 := mail[t := m];
    assert forall u, x :: Announces(mail, u, x) <==> Announces(mail2, u, x);
  }

  /** The mailbox of `t` is read. */
  lemma ReadMail(st: Statuses, mail: map<Tid, Mail>, credit: set<Tid>, t: Tid, credit2: set<Tid>)
    requires Tokens(st, mail, credit) && t in mail
    requires credit2 == if mail[t].event.Wait? || mail[t].event.Preempt? then credit + {mail[t].worker} else credit
    ensures Tokens(st, mail - {t}, credit2)
  {
    var mail2 := mail - {t};
    var w := mail[t].worker;
    assert credit2 != credit ==> Announces(mail, t, w);
    assert forall u, x :: u != t ==> (Announces(mail, u, x) <==> Announces(mail2, u, x));
    assert forall x :: !Announces(mail2, t, x);
    forall x | Parked(st, x) ensures x in credit2 || Announced(mail2, x) {
      if x !in credit {
        var u :| Announces(mail, u, x);
        if u == t { assert x in credit2; } else { assert Announces(mail2, u, x); }
      }
    }
  }

  /** Only a server changed, and neither to nor from ATTACHED: whatever is said
      about workers still holds. */
  ghost predicate ServerMove(st: Statuses, t: Tid, st2: Statuses)
  {
    && Same(st, st2, {t})
    && (t in st ==> st[t].SIdle? || st[t].SRunning?)
    && (t in st2 ==> st2[t].SIdle? || st2[t].SRunning?)
  }

  lemma ServerMoveKeeps(st: Statuses, t: Tid, st2: Statuses, s: State)
    requires ServerMove(st, t, st2) && st == s.status
    ensures Bijection(st, s.server) ==> Bijection(st2, s.server)
    ensures WorkerList(st, s.idleWorkers) ==> WorkerList(st2, s.idleWorkers)
    ensures Timers(st, s.armed) ==> Timers(st2, s.armed)
  {
    assert forall x :: Has(st, x, WRunning) <==> Has(st2, x, WRunning);
    assert forall x :: Has(st, x, SAttached) <==> Has(st2, x, SAttached);
    assert forall x :: Listed(st, x) <==> Listed(st2, x);
  }

  lemma ServerMoveKeepsTokens(st: Statuses, t: Tid, st2: Statuses, s: State)
    requires ServerMove(st, t, st2) && st == s.status
    ensures Tokens(st, s.mail, Told(s)) ==> Tokens(st2, s.mail, Told(s))
  {
    assert forall x :: Parked(st, x) <==> Parked(st2, x);
  }

  /** Only workers in `ws` changed. */
  ghost predicate WorkerMove(st: Statuses, ws: set<Tid>, st2: Statuses)
  {
    && Same(st, st2, ws)
    && (forall w :: w in ws && w in st ==> !IsServer(st[w]))
    && (forall w :: w in ws && w in st2 ==> !IsServer(st2[w]))
  }

  lemma WorkerMoveKeeps(st: Statuses, ws: set<Tid>, st2: Statuses, s: State)
    requires WorkerMove(st, ws, st2) && st == s.status
    ensures Mailboxes(st, s.mail, s.inLoop) ==> Mailboxes(st2, s.mail, s.inLoop)
    ensures ServerList(st, s.idleServers) ==> ServerList(st2, s.idleServers)
  {
  }

  /** Worker `w` left server `t`, which woke up with mail. */
  ghost predicate Left(st: Statuses, w: Tid, t: Tid, st2: Statuses)
  {
    && Has(st, w, WRunning) && Has(st, t, SAttached)
    && Same(st, st2, {w, t}) && Has(st2, t, SRunning)
    && (w in st2 ==> st2[w].WRunnable? || st2[w].WBlocked?)
  }

  lemma LeftMailboxes(st: Statuses, w: Tid, t: Tid, st2: Statuses, s: State, mail2: map<Tid, Mail>)
    requires Left(st, w, t, st2) && Mailboxes(st, s.mail, s.inLoop)
    requires mail2.Keys == s.mail.Keys + {t} && !mail2[t].event.Wake? && !mail2[t].event.Timeout?
    requires forall u :: u in s.mail ==> mail2[u] == s.mail[u]
    ensures Mailboxes(st2, mail2, s.inLoop)
  {
  }

  lemma LeftServerList(st: Statuses, w: Tid, t: Tid, st2: Statuses, list: seq<Tid>)
    requires Left(st, w, t, st2) && ServerList(st, list)
    ensures ServerList(st2, list)
  {
  }

  lemma LeftWorkerList(st: Statuses, w: Tid, t: Tid, st2: Statuses, list: seq<Tid>)
    requires Left(st, w, t, st2) && WorkerList(st, list)
    ensures WorkerList(st2, list)
  {
  }

  lemma LeftTimers(st: Statuses, w: Tid, t: Tid, st2: Statuses, armed: set<Tid>)
    requires Left(st, w, t, st2) && Timers(st, armed)
    ensures Timers(st2, armed) && (Has(st2, w, WRunnable) ==> Timers(st2, armed + {w}))
  {
  }

  lemma LeftTokens(st: Statuses, w: Tid, t: Tid, st2: Statuses, s: State, m: Mail)
    requires Left(st, w, t, st2) && Tokens(st, s.mail, Told(s)) && t !in s.mail && m.worker == w
    requires m.event.Wait? || m.event.Preempt? <==> Has(st2, w, WRunnable)
    ensures Tokens(st2, s.mail[t := m], Told(s))
  {
    assert forall x :: x != w ==> (Parked(st, x) <==> Parked(st2, x));
    if m.event.Wait? || m.event.Preempt? {
      Announce(st, s.mail, Told(s), w, t, m, st2);
    } else {
      OtherMail(st, s.mail, Told(s), t, m, st2);
    }
  }

  lemma QuietBijection(st: Statuses, w: Tid, st2: Statuses, server: map<Tid, Tid>)
    requires WorkerMove(st, {w}, st2) && (Has(st, w, WRunning) <==> Has(st2, w, WRunning))
    requires Bijection(st, server)
    ensures Bijection(st2, server)
  {
  }

  lemma QuietTokens(st: Statuses, w: Tid, st2: Statuses, s: State)
    requires WorkerMove(st, {w}, st2) && (Parked(st, w) <==> Parked(st2, w))
    requires Tokens(st, s.mail, Told(s))
    ensures Tokens(st2, s.mail, Told(s))
  {
    assert forall x :: Parked(st, x) <==> Parked(st2, x);
  }

  // ---------------------------------------------------------------- steps

  lemma InitialInv()
    ensures Inv(INITIAL)
  {
  }

  lemma PopServer(st: Statuses, list: seq<Tid>)
    requires ServerList(st, list) && list != []
    ensures ServerList(st[list[0] := SRunning], list[1..]) && Has(st, list[0], SIdle)
  {
    assert list[0] in list;
    assert forall x :: x in list[1..] <==> x in list && x != list[0];
  }

  /** A step that moves one server between IDLE and RUNNING, or registers or
      unregisters it, only has to answer for the mailboxes and the server list. */
  lemma ServerMoveInv(s: State, t: Tid, r: State)
    requires Inv(s) && ServerMove(s.status, t, r.status)
    requires Mailboxes(r.status, r.mail, r.inLoop) && ServerList(r.status, r.idleServers)
    requires r.server == s.server && r.mail == s.mail && r.idleWorkers == s.idleWorkers
    requires r.credit == s.credit && r.lost == s.lost && r.armed == s.armed
    ensures Inv(r)
  {
    ServerMoveKeeps(s.status, t, r.status, s);
    ServerMoveKeepsTokens(s.status, t, r.status, s);
  }

  /** A worker changed its status and perhaps joined the idle list. */
  lemma QuietInv(s: State, w: Tid, r: State)
    requires Inv(s) && WorkerMove(s.status, {w}, r.status)
    requires !Has(s.status, w, WRunning) && !Has(r.status, w, WRunning)
    requires Parked(s.status, w) <==> Parked(r.status, w)
    requires Timers(r.status, r.armed) && WorkerList(r.status, r.idleWorkers)
    requires r.server == s.server && r.mail == s.mail && r.idleServers == s.idleServers
    requires r.inLoop == s.inLoop && r.credit == s.credit && r.lost == s.lost
    ensures Inv(r)
  {
    hide Bijection, Mailboxes, ServerList, WorkerList, Tokens, Timers;
    QuietBijection(s.status, w, r.status, s.server);
    QuietTokens(s.status, w, r.status, s);
    WorkerMoveKeeps(s.status, {w}, r.status, s);
  }

  lemma WakeIdleServerKeeps(s: State)
    requires Inv(s)
    ensures Inv(WakeIdleServer(s))
  {
    if s.idleServers != [] {
      PopServer(s.status, s.idleServers);
      ServerMoveInv(s, s.idleServers[0], WakeIdleServer(s));
    }
  }

  lemma RegisterServerKeeps(s: State, t: Tid)
    requires Inv(s)
    ensures Good(Apply(s, RegisterServer(t)))
  {
    hide Bijection, WorkerList, Tokens, Timers;
    if t !in s.status {
      assert s.mail - {t} == s.mail;
      ServerMoveInv(s, t, Apply(s, RegisterServer(t)).state);
    }
  }

  lemma UnregisterServerKeeps(s: State, t: Tid)
    requires Inv(s) && s.Is(t, SRunning) && t !in s.inLoop
    ensures Good(Apply(s, Unregister(t)))
  {
    ServerMoveInv(s, t, Apply(s, Unregister(t)).state);
  }

  lemma ServerWaitKeeps(s: State, t: Tid, size: int)
    requires Inv(s) && CanAct(s, ServerWait(t, size))
    ensures Good(Apply(s, ServerWait(t, size)))
  {
    hide Bijection, WorkerList, Tokens, Timers;
    if size >= 2 {
      assert t !in s.mail && s.Is(t, SRunning) && t !in s.idleServers;
      ServerMoveInv(s, t, Apply(s, ServerWait(t, size)).state);
    }
  }

  lemma NotArmed(s: State, t: Tid)
    requires Inv(s) && t in s.status && IsServer(s.status[t])
    ensures t !in s.armed
  {
    hide Bijection, Mailboxes, ServerList, WorkerList, Tokens;
  }

  /** A server in its loop that has run out of time. */
  lemma LeaveServerList(s: State, t: Tid)
    requires Inv(s) && t in s.inLoop && (s.Is(t, SIdle) || s.Is(t, SRunning))
    ensures Inv(s.Set(t, SRunning).(idleServers := Without(s.idleServers, t)))
  {
    hide Bijection, WorkerList, Tokens, Timers;
    WithoutNoDup(s.idleServers, t);
    ServerMoveInv(s, t, s.Set(t, SRunning).(idleServers := Without(s.idleServers, t)));
  }

  lemma ServerTimeoutKeeps(s: State, t: Tid)
    requires Inv(s) && CanAct(s, ServerTimeout(t))
    ensures Good(Apply(s, ServerTimeout(t)))
  {
    hide Inv;
    NotArmed(s, t);
    LeaveServerList(s, t);
  }

  lemma ReenterServerKeeps(s: State, t: Tid, limit: Limit)
    requires Inv(s) && t in s.inLoop && t in s.status && IsServer(s.status[t])
    requires s.Is(t, SAttached) ==> limit.NoLimit?
    ensures Good(Apply(s, Reenter(t, limit)))
  {
    hide Inv;
    NotArmed(s, t);
    if limit.Poll? {
      LeaveServerList(s, t);
    } else {
      assert Apply(s, Reenter(t, limit)).state == s;
    }
  }

  lemma ReenterWorkerKeeps(s: State, t: Tid, limit: Limit)
    requires Inv(s) && (s.Is(t, WRunnable) || s.Is(t, WSwapping))
    ensures Good(Apply(s, Reenter(t, limit)))
  {
    hide Bijection, Mailboxes, ServerList, WorkerList, Tokens;
  }

  lemma RegisterWorkerKeeps(s: State, t: Tid)
    requires Inv(s)
    ensures Good(Apply(s, RegisterWorker(t)))
  {
    hide Mailboxes, ServerList, Tokens;
    if t !in s.status {
      assert s.server - {t} == s.server;
      hide Bijection;
      QuietInv(s, t, Apply(s, RegisterWorker(t)).state);
    }
  }

  lemma LeaveInv(s: State, w: Tid, t: Tid, r: State, m: Mail)
    requires Inv(s) && Left(s.status, w, t, r.status) && w in s.server && s.server[w] == t && t !in s.mail
    requires r.server == s.server - {w} && r.mail == s.mail[t := m] && m.worker == w
    requires m.event.Wait? || m.event.Preempt? <==> Has(r.status, w, WRunnable)
    requires !m.event.Wake? && !m.event.Timeout?
    requires r.armed == s.armed || (r.armed == s.armed + {w} && Has(r.status, w, WRunnable))
    requires r.idleWorkers == s.idleWorkers && r.idleServers == s.idleServers
    requires r.inLoop == s.inLoop && r.credit == s.credit && r.lost == s.lost
    ensures Inv(r)
  {
    hide Bijection, Mailboxes, ServerList, WorkerList, Tokens, Timers;
    Detach(s.status, s.server, w, r.status);
    LeftMailboxes(s.status, w, t, r.status, s, r.mail);
    LeftServerList(s.status, w, t, r.status, s.idleServers);
    LeftWorkerList(s.status, w, t, r.status, s.idleWorkers);
    LeftTimers(s.status, w, t, r.status, s.armed);
    LeftTokens(s.status, w, t, r.status, s, m);
  }

  lemma RunningFacts(s: State, w: Tid)
    requires Inv(s) && s.Is(w, WRunning)
    ensures w in s.server && s.Is(s.server[w], SAttached) && s.server[w] !in s.mail && w !in s.idleWorkers
    ensures !Listed(s.status, w)
  {
    assert Has(s.status, w, WRunning);
    assert s.server[w] in s.server.Values;
    assert Has(s.status, s.server[w], SAttached);
  }

  /** A RUNNING worker leaves its server and the server is told: WAIT, PREEMPT,
      BLOCK and EXIT. */
  lemma LeaveKeeps(s: State, step: Step)
    requires Inv(s) && (step.Unregister? || step.WorkerWait? || step.WorkerPreempt? || step.WorkerBlock?)
    requires s.Is(step.t, WRunning)
    ensures Good(Apply(s, step))
  {
    hide Inv;
    var w := step.t;
    RunningFacts(s, w);
    var t := s.server[w];
    var o := Apply(s, step);
    LeaveInv(s, w, t, o.state, o.state.mail[t]);
  }

  lemma BlockedFacts(s: State, w: Tid, st: Status)
    requires Inv(s) && (s.Is(w, WBlocked) || s.Is(w, WRunnable)) && (s.Is(w, WBlocked) <==> st == WWaking)
    requires st == WWaking || (st == WRunnableTimeout && w in s.armed)
    ensures var r := s.Set(w, st).(idleWorkers := [w] + s.idleWorkers);
            Inv(r) && !HasNext(s.idleWorkers, w)
  {
    var r := s.Set(w, st).(idleWorkers := [w] + s.idleWorkers);
    PushWorker(s.status, s.idleWorkers, w, r.status);
    hide Bijection, Mailboxes, ServerList, WorkerList, Tokens;
    QuietInv(s, w, r);
  }

  lemma WorkerWakeKeeps(s: State, w: Tid)
    requires Inv(s) && s.Is(w, WBlocked)
    ensures Good(Apply(s, WorkerWake(w)))
  {
    hide Inv;
    BlockedFacts(s, w, WWaking);
    WakeIdleServerKeeps(s.Set(w, WWaking).(idleWorkers := [w] + s.idleWorkers));
  }

  lemma WaitingIsFree(s: State, ws: set<Tid>)
    requires Inv(s)
    ensures Inv(s.(waiting := ws))
  {
  }

  lemma WorkerTimeoutKeeps(s: State, w: Tid)
    requires Inv(s) && CanAct(s, WorkerTimeout(w))
    ensures Good(Apply(s, WorkerTimeout(w)))
  {
    hide Inv, HasNext, WakeIdleServer;
    if s.Is(w, WSwapping) {
      SwappingTimeout(s, w);
    } else {
      BlockedFacts(s, w, WRunnableTimeout);
      var r := s.Set(w, WRunnableTimeout).(idleWorkers := [w] + s.idleWorkers);
      WaitingIsFree(r, s.waiting - {w});
      WakeIdleServerKeeps(r.(waiting := s.waiting - {w}));
    }
  }

  lemma SwappingTimeout(s: State, w: Tid)
    requires Inv(s) && s.Is(w, WSwapping) && w in s.armed
    ensures Inv(s.Set(w, WSwappingTimeout).(waiting := s.waiting - {w}))
  {
    var r := s.Set(w, WSwappingTimeout).(waiting := s.waiting - {w});
    assert forall x :: Listed(r.status, x) <==> Listed(s.status, x);
    QuietInv(s, w, r);
  }

  lemma SafeTargetIsRunnable(s: State, w: Tid)
    requires Inv(s) && SafeTarget(s, w)
    ensures s.Is(w, WRunnable)
  {
    assert Parked(s.status, w) && !Has(s.status, w, WRunnableTimeout);
  }

  lemma Unpark(st: Statuses, w: Tid, st2: Statuses, s: State)
    requires Tokens(st, s.mail, Told(s)) && w in s.credit && s.credit !! s.lost
    requires forall x :: Parked(st2, x) <==> Parked(st, x) && x != w
    ensures Tokens(st2, s.mail, (s.credit - {w}) + s.lost)
  {
    assert (s.credit - {w}) + s.lost == Told(s) - {w};
  }

  lemma SwitchInv(s: State, t: Tid, w: Tid, r: State)
    requires Inv(s) && Has(s.status, t, SRunning) && t !in s.inLoop
    requires Has(s.status, w, WRunnable) && w in s.credit
    requires r.status == s.status[t := SAttached][w := WRunning] && r.server == s.server[w := t]
    requires r.inLoop == s.inLoop + {t} && r.armed == s.armed - {w}
    requires r.credit == s.credit - {w} && r.lost == s.lost
    requires r.mail == s.mail && r.idleWorkers == s.idleWorkers && r.idleServers == s.idleServers
    ensures Inv(r)
  {
    hide Mailboxes, ServerList, WorkerList, Timers;
    Attach(s.status, s.server, w, t, r.status);
    hide Bijection;
    assert forall x :: Parked(r.status, x) <==> Parked(s.status, x) && x != w;
    Unpark(s.status, w, r.status, s);
    SwitchServers(s, t, w, r.status);
    SwitchWorkers(s, t, w, r.status);
  }

  lemma SwitchServers(s: State, t: Tid, w: Tid, st2: Statuses)
    requires Mailboxes(s.status, s.mail, s.inLoop) && ServerList(s.status, s.idleServers)
    requires Has(s.status, t, SRunning) && t !in s.inLoop && Has(s.status, w, WRunnable)
    requires st2 == s.status[t := SAttached][w := WRunning]
    ensures Mailboxes(st2, s.mail, s.inLoop + {t}) && ServerList(st2, s.idleServers)
  {
  }

  lemma SwitchWorkers(s: State, t: Tid, w: Tid, st2: Statuses)
    requires WorkerList(s.status, s.idleWorkers) && Timers(s.status, s.armed)
    requires Has(s.status, t, SRunning) && Has(s.status, w, WRunnable)
    requires st2 == s.status[t := SAttached][w := WRunning]
    ensures WorkerList(st2, s.idleWorkers) && Timers(st2, s.armed - {w})
  {
    assert forall x :: Listed(st2, x) <==> Listed(s.status, x);
  }

  lemma SwitchFromServerKeeps(s: State, t: Tid, w: Tid)
    requires Inv(s) && CanAct(s, SwitchFromServer(t, w)) && UserRule(s, SwitchFromServer(t, w))
    ensures Good(Apply(s, SwitchFromServer(t, w)))
  {
    if w in s.status {
      SafeTargetIsRunnable(s, w);
      NotArmed(s, t);
      assert s.armed - {t} - {w} == s.armed - {w};
      SwitchInv(s, t, w, Apply(s, SwitchFromServer(t, w)).state);
    }
  }

  lemma SwapInv(s: State, t: Tid, w: Tid, r: State)
    requires Inv(s) && Has(s.status, t, WRunning)
    requires Has(s.status, w, WRunnable) && w in s.credit && w !in s.armed
    requires r.status == s.status[t := WSwapping][w := WRunning]
    requires t in s.server && r.server == (s.server - {t})[w := s.server[t]]
    requires r.armed == s.armed || r.armed == s.armed + {t}
    requires r.idleWorkers == [t] + s.idleWorkers && r.credit == s.credit - {w} && r.lost == s.lost
    requires r.mail == s.mail && r.inLoop == s.inLoop && r.idleServers == s.idleServers
    ensures Inv(r)
  {
    hide Mailboxes, ServerList, WorkerList, Timers;
    HandOver(s.status, s.server, t, w, r.status);
    hide Bijection;
    assert forall x :: Parked(r.status, x) <==> Parked(s.status, x) && x != w;
    Unpark(s.status, w, r.status, s);
    WorkerMoveKeeps(s.status, {t, w}, r.status, s);
    SwapRest(s, t, w, r);
  }

  lemma SwapRest(s: State, t: Tid, w: Tid, r: State)
    requires WorkerList(s.status, s.idleWorkers) && Timers(s.status, s.armed)
    requires Has(s.status, t, WRunning) && Has(s.status, w, WRunnable) && w !in s.armed
    requires r.status == s.status[t := WSwapping][w := WRunning]
    requires r.armed == s.armed || r.armed == s.armed + {t}
    requires r.idleWorkers == [t] + s.idleWorkers
    ensures WorkerList(r.status, r.idleWorkers) && Timers(r.status, r.armed)
  {
    assert forall x :: x != t ==> (Listed(r.status, x) <==> Listed(s.status, x));
    PushWorker(s.status, s.idleWorkers, t, r.status);
  }

  lemma SwitchFromWorkerKeeps(s: State, t: Tid, w: Tid, timed: bool)
    requires Inv(s) && s.Is(t, WRunning) && UserRule(s, SwitchFromWorker(t, w, timed))
    ensures Good(Apply(s, SwitchFromWorker(t, w, timed)))
  {
    hide Inv;
    if w in s.status {
      SafeTargetIsRunnable(s, w);
      RunningFacts(s, t);
      var r := s.Set(t, WSwapping).Set(w, WRunning).(
        server := (s.server - {t})[w := s.server[t]], idleWorkers := [t] + s.idleWorkers,
        waiting := (s.waiting + {t}) - {w}, credit := s.credit - {w},
        armed := if timed then s.armed + {t} else s.armed);
      SwapInv(s, t, w, r);
      assert r.armed - {w} == r.armed;
      WakeIdleServerKeeps(r);
    }
  }

  lemma PopWorker(st: Statuses, list: seq<Tid>, st2: Statuses)
    requires WorkerList(st, list) && list != [] && st2 == st[list[0] := WRunnable]
    ensures WorkerList(st2, list[1..]) && Listed(st, list[0])
  {
    var w := list[0];
    assert w in list;
    assert forall x :: x in list[1..] <==> x in list && x != w;
    assert forall x :: x != w ==> (Listed(st, x) <==> Listed(st2, x));
  }

  lemma CollectTokens(st: Statuses, w: Tid, st2: Statuses, s: State, credit2: set<Tid>)
    requires Tokens(st, s.mail, Told(s)) && s.credit !! s.lost && Listed(st, w) && st2 == st[w := WRunnable]
    requires credit2 == if st[w].WRunnableTimeout? then s.credit else s.credit + {w}
    ensures Tokens(st2, s.mail, credit2 + s.lost) && credit2 !! s.lost
  {
    assert credit2 + s.lost == if st[w].WRunnableTimeout? then Told(s) else Told(s) + {w};
    assert forall x :: x != w ==> (Parked(st, x) <==> Parked(st2, x));
  }

  lemma CollectTimers(st: Statuses, w: Tid, st2: Statuses, s: State, armed2: set<Tid>)
    requires Timers(st, s.armed) && Listed(st, w) && st2 == st[w := WRunnable]
    requires armed2 == if st[w].WSwappingTimeout? || st[w].WRunnableTimeout? then s.armed - {w} else s.armed
    ensures Timers(st2, armed2)
  {
  }

  /** What one turn of the loop does to a worker found on the list. */
  lemma CollectOneShape(s: State)
    requires s.idleWorkers != [] && Listed(s.status, s.idleWorkers[0])
    ensures var w := s.idleWorkers[0]; var st := s.status[w];
            CollectOne(s) == Live(s.Set(w, WRunnable).(
              idleWorkers := s.idleWorkers[1..],
              credit := if st.WRunnableTimeout? then s.credit else s.credit + {w},
              armed := if st.WSwappingTimeout? || st.WRunnableTimeout? then s.armed - {w} else s.armed))
  {
  }

  lemma CollectOneKeeps(s: State)
    requires Inv(s) && s.idleWorkers != []
    ensures Good(CollectOne(s))
  {
    hide Bijection, Mailboxes, ServerList, WorkerList, Tokens, Timers;
    var w := s.idleWorkers[0];
    var st2 := s.status[w := WRunnable];
    PopWorker(s.status, s.idleWorkers, st2);
    CollectOneShape(s);
    hide CollectOne;
    QuietBijection(s.status, w, st2, s.server);
    WorkerMoveKeeps(s.status, {w}, st2, s);
    var r := CollectOne(s).state;
    CollectTokens(s.status, w, st2, s, r.credit);
    CollectTimers(s.status, w, st2, s, r.armed);
  }

  lemma {:induction false} CollectIdleKeeps(s: State, size: int)
    requires Inv(s)
    ensures Good(CollectIdle(s, size))
    decreases |s.idleWorkers|
  {
    hide Inv;
    if size > 1 && s.idleWorkers != [] {
      CollectOneKeeps(s);
      CollectIdleKeeps(CollectOne(s).state, size - |Owed(s.status[s.idleWorkers[0]])|);
    }
  }

  lemma ReadMailInv(s: State, t: Tid, r: State)
    requires Inv(s) && s.Is(t, SRunning) && t in s.mail
    requires r == Learn(s.(inLoop := s.inLoop - {t}, mail := s.mail - {t}), s.mail[t].worker, [s.mail[t].event])
    ensures Inv(r)
  {
    var w, e := s.mail[t].worker, s.mail[t].event;
    if e.Wait? || e.Preempt? {
      assert Announces(s.mail, t, w);
      assert Told(r) == Told(s) + {w};
    }
    ReadMail(s.status, s.mail, Told(s), t, Told(r));
  }

  /** The report in the mailbox is gone with the mail. */
  lemma LoseMailKeeps(s: State, t: Tid)
    requires Inv(s) && CanAct(s, LoseMail(t))
    ensures Good(Apply(s, LoseMail(t)))
  {
    var r := Apply(s, LoseMail(t)).state;
    var w, e := s.mail[t].worker, s.mail[t].event;
    if e.Wait? || e.Preempt? {
      assert Announces(s.mail, t, w);
      assert Told(r) == Told(s) + {w};
    }
    ReadMail(s.status, s.mail, Told(s), t, Told(r));
  }

  lemma LeaveLoop(s: State, t: Tid)
    requires Inv(s) && s.Is(t, SRunning) && t !in s.mail
    ensures Inv(s.(inLoop := s.inLoop - {t}))
  {
  }

  lemma CollectKeeps(s: State, t: Tid, size: int)
    requires Inv(s) && CanAct(s, Collect(t, size)) && UserRule(s, Collect(t, size))
    ensures Good(Apply(s, Collect(t, size)))
  {
    hide Inv;
    if t in s.mail {
      var r := Learn(s.(inLoop := s.inLoop - {t}, mail := s.mail - {t}), s.mail[t].worker, [s.mail[t].event]);
      ReadMailInv(s, t, r);
      CollectIdleKeeps(r, size - 1);
    } else {
      LeaveLoop(s, t);
      CollectIdleKeeps(s.(inLoop := s.inLoop - {t}), size);
    }
  }

  /** Every step that a thread can take and that respects the user-space rule
      stays clear of every `kill` branch and keeps the invariant. */
  lemma StepKeeps(s: State, step: Step)
    requires Inv(s) && CanAct(s, step) && UserRule(s, step)
    ensures Good(Apply(s, step))
  {
    hide Inv;
    match step {
      case RegisterWorker(t) => RegisterWorkerKeeps(s, t);
      case RegisterServer(t) => RegisterServerKeeps(s, t);
      case Unregister(t) =>
        if s.Is(t, SRunning) { UnregisterServerKeeps(s, t); }
        else if s.Is(t, WRunning) { LeaveKeeps(s, step); }
      case ServerWait(t, size) => ServerWaitKeeps(s, t, size);
      case ServerTimeout(t) => ServerTimeoutKeeps(s, t);
      case Collect(t, size) => CollectKeeps(s, t, size);
      case LoseMail(t) => LoseMailKeeps(s, t);
      case SwitchFromServer(t, next) => SwitchFromServerKeeps(s, t, next);
      case SwitchFromWorker(t, next, timed) => SwitchFromWorkerKeeps(s, t, next, timed);
      case WorkerWait(_, _) => LeaveKeeps(s, step);
      case WorkerPreempt(_) => LeaveKeeps(s, step);
      case WorkerBlock(_) => LeaveKeeps(s, step);
      case WorkerWake(t) => WorkerWakeKeeps(s, t);
      case WorkerTimeout(t) => WorkerTimeoutKeeps(s, t);
      case WakeCommand => WakeIdleServerKeeps(s);
      case Reenter(t, limit) =>
        if IsServer(s.status[t]) { ReenterServerKeeps(s, t, limit); } else { ReenterWorkerKeeps(s, t, limit); }
    }
  }
}
