/** Where tasks are: from the shared queue through a worker's channel to the
    worker's loop. */
module TaskFlow {
  import opened Lists
  import opened KlibProtocol
  import opened Scheduler

  /** `started` logs every start of a task body, `done` every end of one;
      `dropped` are the tasks the full queue refused. */
  datatype State = State(
    queue: seq<TaskId>, capacity: nat,
    inbox: map<Tid, seq<TaskId>>,
    executing: map<Tid, TaskId>,
    started: seq<TaskId>, done: seq<TaskId>,
    accepted: set<TaskId>, dropped: set<TaskId>)

  function Inbox(s: State, w: Tid): seq<TaskId> { if w in s.inbox then s.inbox[w] else [] }

  /** TaskQueue::add_task. */
  function Submit(s: State, x: TaskId): State
  {
    if |s.queue| < s.capacity then s.(queue := s.queue + [x], accepted := s.accepted + {x})
    else s.(dropped := s.dropped + {x})
  }

  /** remove_task and the send into the worker's channel. */
  function Assign(s: State, w: Tid): State
    requires s.queue != []
  {
    s.(queue := s.queue[1..], inbox := s.inbox[w := Inbox(s, w) + [s.queue[0]]])
  }

  /** The worker's try_recv finds a task. */
  function Begin(s: State, w: Tid): State
    requires Inbox(s, w) != []
  {
    var x := Inbox(s, w)[0];
    s.(inbox := s.inbox[w := Inbox(s, w)[1..]], executing := s.executing[w := x], started := s.started + [x])
  }

  /** The task body returns. */
  function End(s: State, w: Tid): State
    requires w in s.executing
  {
    s.(executing := s.executing - {w}, done := s.done + [s.executing[w]])
  }

  datatype Place = Queued | Sent(worker: Tid) | Executing(worker: Tid) | Finished

  predicate At(s: State, x: TaskId, p: Place)
  {
    match p
    case Queued => x in s.queue
    case Sent(w) => x in Inbox(s, w)
    case Executing(w) => w in s.executing && s.executing[w] == x
    case Finished => x in s.done
  }

  /** Every accepted task is in exactly one place, and once there; it has started
      exactly if it is past its worker's channel, and never twice. */
  ghost predicate Inv(s: State)
  {
    && NoDup(s.queue) && NoDup(s.done) && NoDup(s.started)
    && (forall w :: |Inbox(s, w)| <= 1)
    && (forall x, p, q :: At(s, x, p) && At(s, x, q) ==> p == q)
    && (forall x, p :: At(s, x, p) ==> x in s.accepted)
    && (forall x :: x in s.accepted ==> exists p :: At(s, x, p))
    && (forall x :: x in s.started <==> x in s.done || exists w :: At(s, x, Executing(w)))
    && s.accepted !! s.dropped
  }

  /** Task `x` is now at `q` and at no other place; all others stay put. */
  ghost predicate Moved(s: State, x: TaskId, q: Place, r: State)
  {
    forall y, p :: At(r, y, p) <==> if y == x then p == q else At(s, y, p)
  }

  lemma MovedKeepsPlaces(s: State, x: TaskId, q: Place, r: State)
    requires Moved(s, x, q, r) && r.accepted == s.accepted + {x}
    requires forall y, p, p' :: At(s, y, p) && At(s, y, p') ==> p == p'
    requires forall y, p :: At(s, y, p) ==> y in s.accepted
    requires forall y :: y in s.accepted ==> exists p :: At(s, y, p)
    ensures forall y, p, p' :: At(r, y, p) && At(r, y, p') ==> p == p'
    ensures forall y, p :: At(r, y, p) ==> y in r.accepted
    ensures forall y :: y in r.accepted ==> exists p :: At(r, y, p)
  {
    forall y | y in r.accepted ensures exists p :: At(r, y, p) {
      if y == x { assert At(r, y, q); } else {
        var p :| At(s, y, p);
        assert At(r, y, p);
      }
    }
  }

  lemma MovedStarted(s: State, x: TaskId, q: Place, r: State)
    requires Moved(s, x, q, r) && (q.Executing? || q.Finished? <==> x in r.started)
    requires forall y :: y in s.started <==> y in s.done || exists w :: At(s, y, Executing(w))
    requires forall y :: y != x ==> (y in r.started <==> y in s.started)
    ensures forall y :: y in r.started <==> y in r.done || exists w :: At(r, y, Executing(w))
  {
    forall y ensures y in r.started <==> y in r.done || exists w :: At(r, y, Executing(w)) {
      assert At(r, y, Finished) <==> y in r.done;
      if y == x {
        if q.Executing? { assert At(r, x, Executing(q.worker)); }
      } else {
        assert At(s, y, Finished) <==> y in s.done;
        assert forall w :: At(r, y, Executing(w)) <==> At(s, y, Executing(w));
      }
    }
  }

  lemma SubmitKeeps(s: State, x: TaskId)
    requires Inv(s) && x !in s.accepted && x !in s.dropped
    ensures Inv(Submit(s, x))
  {
    var r := Submit(s, x);
    assert forall p :: !At(s, x, p);
    assert forall v :: Inbox(r, v) == Inbox(s, v);
    if |s.queue| < s.capacity {
      assert x !in s.queue by { assert !At(s, x, Queued); }
      assert x !in s.started by {
        assert !At(s, x, Finished);
        assert forall v :: !At(s, x, Executing(v));
      }
      forall y, p ensures At(r, y, p) <==> if y == x then p == Queued else At(s, y, p) {
        if y == x { assert !At(s, x, p); }
      }
      MovedKeepsPlaces(s, x, Queued, r);
      MovedStarted(s, x, Queued, r);
      hide At;
    } else {
      assert forall y, p :: At(r, y, p) <==> At(s, y, p);
      hide At;
    }
  }

  lemma AssignKeeps(s: State, w: Tid)
    requires Inv(s) && s.queue != [] && Inbox(s, w) == []
    ensures Inv(Assign(s, w))
  {
    var r := Assign(s, w);
    var x := s.queue[0];
    assert x in s.queue && At(s, x, Queued);
    assert forall p :: At(s, x, p) ==> p == Queued;
    assert forall y :: y in r.queue <==> y in s.queue && y != x;
    assert forall v :: Inbox(r, v) == if v == w then [x] else Inbox(s, v);
    assert x !in s.started by {
      assert !At(s, x, Finished);
      assert forall v :: !At(s, x, Executing(v));
    }
    forall y, p ensures At(r, y, p) <==> if y == x then p == Sent(w) else At(s, y, p) {
      if y == x { assert At(s, x, p) ==> p == Queued; }
    }
    assert s.accepted + {x} == s.accepted;
    MovedKeepsPlaces(s, x, Sent(w), r);
    MovedStarted(s, x, Sent(w), r);
    hide At;
  }

  lemma BeginKeeps(s: State, w: Tid)
    requires Inv(s) && Inbox(s, w) != [] && w !in s.executing
    ensures Inv(Begin(s, w)) && Inbox(Begin(s, w), w) == []
  {
    var r := Begin(s, w);
    var x := Inbox(s, w)[0];
    assert x in Inbox(s, w) && At(s, x, Sent(w));
    assert forall p :: At(s, x, p) ==> p == Sent(w);
    assert Inbox(s, w) == [x];
    assert forall v :: Inbox(r, v) == if v == w then [] else Inbox(s, v);
    assert x !in s.started by {
      assert !At(s, x, Finished);
      assert forall v :: !At(s, x, Executing(v));
    }
    forall y, p ensures At(r, y, p) <==> if y == x then p == Executing(w) else At(s, y, p) {
      if y == x { assert At(s, x, p) ==> p == Sent(w); }
    }
    assert s.accepted + {x} == s.accepted;
    MovedKeepsPlaces(s, x, Executing(w), r);
    MovedStarted(s, x, Executing(w), r);
    hide At;
  }

  lemma EndKeeps(s: State, w: Tid)
    requires Inv(s) && w in s.executing
    ensures Inv(End(s, w))
  {
    var r := End(s, w);
    var x := s.executing[w];
    assert At(s, x, Executing(w)) && !At(s, x, Finished);
    assert forall p :: At(s, x, p) ==> p == Executing(w);
    assert forall v :: Inbox(r, v) == Inbox(s, v);
    assert x in s.started;
    forall y, p ensures At(r, y, p) <==> if y == x then p == Finished else At(s, y, p) {
      if y == x { assert At(s, x, p) ==> p == Executing(w); }
    }
    assert s.accepted + {x} == s.accepted;
    MovedKeepsPlaces(s, x, Finished, r);
    MovedStarted(s, x, Finished, r);
    hide At;
  }
}
