/** How long a timer lives (networker/net/TimerQueue.cpp:119-243), over every run of the queue: a
    repeating timer waits in the sets between rounds until it is cancelled, a single one until
    its callback has run. */
module TimerLives {
  import opened TimerQueues

  /** What addTimer was called with. */
  datatype Request = Request(when: Time, interval: int)

  function Asked(step: Step): seq<Request> {
    if step.New? then [Request(step.when, step.interval)] else []
  }

  /** The requests of a run, in the order of their sequence numbers. */
  function Requests(steps: seq<Step>): seq<Request> {
    if steps == [] then [] else Asked(steps[0]) + Requests(steps[1..])
  }

  /** Sequence numbers start at 1. */
  function Of(asked: seq<Request>, n: nat): Request
    requires 1 <= n <= |asked|
  {
    asked[n - 1]
  }

  // ---------------------------------------------------------------- what happened in a run

  /** addTimerInLoop runs for timer n. */
  predicate Adds(q: Queue, step: Step, n: nat) {
    step.AddInLoop? && step.a in q.heap && q.heap[step.a].sequence == n
  }

  /** cancelInLoop runs for timer n, and addTimerInLoop has run before. */
  predicate Cancels(q: Queue, step: Step, n: nat) {
    step.CancelInLoop? && step.id.sequence == n && n in q.inserted
  }

  ghost predicate Added(q: Queue, steps: seq<Step>, n: nat)
    requires IsRun(q, steps)
    decreases steps
  {
    steps != [] && (Adds(q, steps[0], n) || Added(Apply(q, steps[0]), steps[1..], n))
  }

  ghost predicate Cancelled(q: Queue, steps: seq<Step>, n: nat)
    requires IsRun(q, steps)
    decreases steps
  {
    steps != [] && (Cancels(q, steps[0], n) || Cancelled(Apply(q, steps[0]), steps[1..], n))
  }

  lemma AddNotes(q: Queue, a: Addr, n: nat)
    requires Enabled(q, AddInLoop(a))
    ensures var q' := Apply(q, AddInLoop(a));
            && (n in q'.inserted <==> n in q.inserted || Adds(q, AddInLoop(a), n)) && q'.cancelled == q.cancelled
  {
  }

  lemma CancelNotes(q: Queue, id: Id, n: nat)
    requires Enabled(q, CancelInLoop(id))
    ensures var q' := Apply(q, CancelInLoop(id));
            && (n in q'.cancelled <==> n in q.cancelled || Cancels(q, CancelInLoop(id), n)) && q'.inserted == q.inserted
  {
  }

  lemma OthersNote(q: Queue, step: Step)
    requires Enabled(q, step) && !step.AddInLoop? && !step.CancelInLoop?
    ensures Apply(q, step).inserted == q.inserted && Apply(q, step).cancelled == q.cancelled
  {
  }

  lemma StepNotes(q: Queue, step: Step, n: nat)
    requires Enabled(q, step)
    ensures n in Apply(q, step).inserted <==> n in q.inserted || Adds(q, step, n)
    ensures n in Apply(q, step).cancelled <==> n in q.cancelled || Cancels(q, step, n)
  {
    match step {
      case AddInLoop(a) => AddNotes(q, a, n);
      case CancelInLoop(id) => CancelNotes(q, id, n);
      case _ => OthersNote(q, step);
    }
  }

  lemma {:induction false} RunNotes(q: Queue, steps: seq<Step>, n: nat)
    requires IsRun(q, steps)
    ensures n in After(q, steps).inserted <==> n in q.inserted || Added(q, steps, n)
    ensures n in After(q, steps).cancelled <==> n in q.cancelled || Cancelled(q, steps, n)
    decreases steps
  {
    if steps != [] {
      StepNotes(q, steps[0], n);
      RunNotes(Apply(q, steps[0]), steps[1..], n);
    }
  }

  // ---------------------------------------------------------------- one turn of reset()

  predicate Restarts(q: Queue, a: Addr)
    requires a in q.heap
  {
    q.heap[a].Repeat() && Id(a, q.heap[a].sequence) !in q.canceling
  }

  /** What the turn leaves when no assertion fails. */
  lemma TurnIs(q: Queue)
    requires Enabled(q, ResetNext) && !Apply(q, ResetNext).aborted
    ensures var a := q.expired[q.phase.next].addr;
            && a in q.heap
            && var q' := q.(phase := Resetting(q.phase.now, q.phase.next + 1));
               var due := q.phase.now + q.heap[a].interval;
               Apply(q, ResetNext)
               == if Restarts(q, a)
                  then q'.(heap := q.heap[a := q.heap[a].(expiration := due)],
                           timers := InsertSorted(q.timers, Entry(due, a)),
                           active := q.active + {Id(a, q.heap[a].sequence)})
                  else q'.(heap := q.heap - {a}, deleted := q.deleted + {q.heap[a].sequence})
  {
  }

  lemma TurnInv(q: Queue)
    requires Inv(q) && Enabled(q, ResetNext)
    ensures var a, q' := q.expired[q.phase.next].addr, Apply(q, ResetNext);
            && !q'.aborted && a in q.heap && InBatch(q, a) && a !in q.posted && q.heap[a].sequence !in q.deleted
            && Batch(q) != [] && Batch(q') == Batch(q)[1..] && Batch(q)[0] == q.expired[q.phase.next]
            && BatchOk(q')
  {
    StepKeepsInv(q, ResetNext);
    var a := q.expired[q.phase.next].addr;
    assert Batch(q)[0] == q.expired[q.phase.next] && Batch(q)[0] in Batch(q);
    assert InBatch(q, a);
    TurnIs(q);
  }

  /** A timer of the batch is deleted by reset() exactly if it does not repeat, or was marked by a
      cancel during the callbacks; otherwise it is the same timer, in both sets, one interval
      after the round. */
  lemma TurnOfReset(q: Queue)
    requires Inv(q) && Enabled(q, ResetNext)
    ensures var a := q.expired[q.phase.next].addr;
            && a in q.heap
            && var t, q' := q.heap[a], Apply(q, ResetNext);
            && (t.sequence in q'.deleted <==> t.interval <= 0 || Id(a, t.sequence) in q.canceling)
            && (a !in q'.heap <==> t.sequence in q'.deleted)
            && (t.sequence !in q'.deleted ==>
                  && q'.heap[a] == Timer(q.phase.now + t.interval, t.interval, t.sequence)
                  && Entry(q.phase.now + t.interval, a) in q'.timers && Id(a, t.sequence) in q'.active)
  {
    TurnInv(q);
    TurnIs(q);
  }

  // ---------------------------------------------------------------- the invariant

  /** Every live timer is as it was asked for, until its first callback. */
  ghost predicate AsAsked(q: Queue, asked: seq<Request>) {
    && |asked| == q.created
    && (forall n <- q.ran :: 1 <= n <= q.created)
    && (forall a <- q.heap :: TimerAsAsked(q, a, asked))
  }

  predicate TimerAsAsked(q: Queue, a: Addr, asked: seq<Request>)
    requires a in q.heap
  {
    var t := q.heap[a];
    && 1 <= t.sequence <= |asked| && t.interval == Of(asked, t.sequence).interval
    && (t.sequence !in q.ran ==> t.expiration == Of(asked, t.sequence).when)
  }

  /** Nothing was deleted without a reason. */
  ghost predicate DeletedOk(q: Queue, asked: seq<Request>) {
    forall n <- q.deleted :: HadReason(q, n, asked)
  }

  predicate HadReason(q: Queue, n: nat, asked: seq<Request>) {
    && 1 <= n <= |asked| && n in q.inserted
    && (n in q.cancelled || (n in q.ran && Of(asked, n).interval <= 0))
  }

  /** What waits has not run, unless it repeats. */
  ghost predicate WaitingOk(q: Queue) {
    forall a <- q.heap :: q.heap[a].sequence in q.ran ==> a !in q.posted && (Queued(q, a) ==> q.heap[a].Repeat())
  }

  /** In the batch, those before the next one have run. */
  ghost predicate TurnsOk(q: Queue) {
    forall i :: 0 <= i < |q.expired| ==> TurnOk(q, i)
  }

  predicate TurnOk(q: Queue, i: nat)
    requires i < |q.expired|
  {
    var a := q.expired[i].addr;
    match q.phase
    case Idle => true
    case Calling(_, next) =>
      a in q.heap && (if i < next then q.heap[a].sequence in q.ran
                      else q.heap[a].sequence in q.ran ==> q.heap[a].Repeat())
    case Resetting(_, next) => next <= i ==> a in q.heap && q.heap[a].sequence in q.ran
  }

  /** The marks on timers of the batch come from cancels. */
  ghost predicate MarksOk(q: Queue) {
    forall e <- Batch(q) :: e.addr in q.heap && Id(e.addr, q.heap[e.addr].sequence) in q.canceling ==>
                              q.heap[e.addr].sequence in q.cancelled
  }

  ghost predicate LifeInv(q: Queue, asked: seq<Request>) {
    AsAsked(q, asked) && DeletedOk(q, asked) && WaitingOk(q) && TurnsOk(q) && MarksOk(q)
  }

  // ---------------------------------------------------------------- every step keeps it

  /** A step that leaves the live timers, the callbacks and the batch alone. */
  ghost predicate Calm(q: Queue, q': Queue) {
    && q'.heap == q.heap && q'.ran == q.ran && q'.created == q.created && q'.deleted == q.deleted
    && q'.phase == q.phase && q'.expired == q.expired
    && q.inserted <= q'.inserted && q.cancelled <= q'.cancelled
  }

  lemma CalmKeeps(q: Queue, q': Queue, asked: seq<Request>)
    requires Calm(q, q') && AsAsked(q, asked) && DeletedOk(q, asked) && TurnsOk(q)
    ensures AsAsked(q', asked) && DeletedOk(q', asked) && TurnsOk(q')
  {
    forall a | a in q'.heap ensures TimerAsAsked(q', a, asked) { assert TimerAsAsked(q, a, asked); }
    forall n | n in q'.deleted ensures HadReason(q', n, asked) { assert HadReason(q, n, asked); }
    forall i | 0 <= i < |q'.expired| ensures TurnOk(q', i) { assert TurnOk(q, i); }
  }

  lemma NewKeepsLife(q: Queue, a: Addr, when: Time, interval: int, asked: seq<Request>)
    requires Inv(q) && LifeInv(q, asked) && Enabled(q, New(a, when, interval))
    ensures LifeInv(Apply(q, New(a, when, interval)), asked + [Request(when, interval)])
  {
    var q', asked' := Apply(q, New(a, when, interval)), asked + [Request(when, interval)];
    assert Batch(q') == Batch(q);
    forall b | b in q'.heap ensures TimerAsAsked(q', b, asked') {
      if b != a { assert TimerAsAsked(q, b, asked); }
    }
    forall n | n in q'.deleted ensures HadReason(q', n, asked') { assert HadReason(q, n, asked); }
    forall i | 0 <= i < |q'.expired| ensures TurnOk(q', i) { assert TurnOk(q, i); }
    forall b | b in q'.heap && q'.heap[b].sequence in q'.ran
      ensures b !in q'.posted && (Queued(q', b) ==> q'.heap[b].Repeat())
    {
      assert b in q.heap;
    }
  }

  lemma AddKeepsLife(q: Queue, a: Addr, asked: seq<Request>)
    requires Inv(q) && LifeInv(q, asked) && Enabled(q, AddInLoop(a))
    ensures LifeInv(Apply(q, AddInLoop(a)), asked)
  {
    var q' := Apply(q, AddInLoop(a));
    CalmKeeps(q, q', asked);
    assert Batch(q') == Batch(q);
    forall b | b in q'.heap && q'.heap[b].sequence in q'.ran
      ensures b !in q'.posted && (Queued(q', b) ==> q'.heap[b].Repeat())
    {
      assert b != a && (Queued(q', b) ==> Queued(q, b));
    }
  }

  lemma CancelKeepsLife(q: Queue, id: Id, asked: seq<Request>)
    requires Inv(q) && LifeInv(q, asked) && Enabled(q, CancelInLoop(id))
    ensures LifeInv(Apply(q, CancelInLoop(id)), asked)
  {
    if id in q.active {
      CancelQueuedKeepsLife(q, id, asked);
    } else {
      var q' := Apply(q, CancelInLoop(id));
      CalmKeeps(q, q', asked);
      CancelMarks(q, id);
    }
  }

  lemma CancelMarks(q: Queue, id: Id)
    requires OwnedOnce(q) && NumbersOk(q) && MarksOk(q) && Enabled(q, CancelInLoop(id)) && id !in q.active
    ensures MarksOk(Apply(q, CancelInLoop(id)))
  {
    var q' := Apply(q, CancelInLoop(id));
    assert Batch(q') == Batch(q);
    forall e | e in Batch(q') && e.addr in q'.heap && Id(e.addr, q'.heap[e.addr].sequence) in q'.canceling
      ensures q'.heap[e.addr].sequence in q'.cancelled
    {
      assert InBatch(q, e.addr) && e.addr !in q.posted;
    }
  }

  lemma CancelQueuedKeepsLife(q: Queue, id: Id, asked: seq<Request>)
    requires Inv(q) && LifeInv(q, asked) && Enabled(q, CancelInLoop(id)) && id in q.active
    ensures LifeInv(Apply(q, CancelInLoop(id)), asked)
  {
    StepKeepsInv(q, CancelInLoop(id));
    var q' := Apply(q, CancelInLoop(id));
    assert Queued(q, id.addr) && q.heap[id.addr].sequence == id.sequence && !InBatch(q, id.addr);
    assert id.addr !in q.posted && id.sequence in q.inserted;
    assert q'.heap == q.heap - {id.addr} && q'.deleted == q.deleted + {id.sequence} && q'.ran == q.ran;
    assert Batch(q') == Batch(q);
    FewerKeeps(q, q', id.addr, asked);
    forall n | n in q'.deleted ensures HadReason(q', n, asked) {
      if n in q.deleted { assert HadReason(q, n, asked); } else { assert TimerAsAsked(q, id.addr, asked); }
    }
    forall i | 0 <= i < |q'.expired| ensures TurnOk(q', i) {
      assert TurnOk(q, i);
      assert !q.phase.Idle? ==> q.phase.Calling?;
      assert q.phase.Calling? ==> q.expired[i] in Batch(q);
    }
    forall e | e in Batch(q') ensures e.addr in q'.heap && Id(e.addr, q'.heap[e.addr].sequence) in q'.canceling ==>
                                        q'.heap[e.addr].sequence in q'.cancelled
    {
      assert InBatch(q, e.addr);
    }
  }

  /** One timer less. */
  lemma FewerKeeps(q: Queue, q': Queue, a: Addr, asked: seq<Request>)
    requires AsAsked(q, asked) && WaitingOk(q)
    requires q'.heap == q.heap - {a} && q'.ran == q.ran && q'.created == q.created && q'.posted == q.posted
    requires forall e <- q'.timers :: e in q.timers
    ensures AsAsked(q', asked) && WaitingOk(q')
  {
    forall b | b in q'.heap ensures TimerAsAsked(q', b, asked) { assert TimerAsAsked(q, b, asked); }
    forall b | b in q'.heap ensures Queued(q', b) ==> Queued(q, b) {}
  }

  lemma ExpireKeepsLife(q: Queue, now: Time, asked: seq<Request>)
    requires Inv(q) && LifeInv(q, asked) && Enabled(q, Expire(now))
    ensures LifeInv(Apply(q, Expire(now)), asked)
  {
    ExpireIs(q, now);
    var q' := Apply(q, Expire(now));
    forall a | a in q'.heap ensures TimerAsAsked(q', a, asked) { assert TimerAsAsked(q, a, asked); }
    forall n | n in q'.deleted ensures HadReason(q', n, asked) { assert HadReason(q, n, asked); }
    forall i | 0 <= i < |q'.expired| ensures TurnOk(q', i) {
      assert q'.expired[i] in q.timers;
      assert Queued(q, q'.expired[i].addr);
    }
    forall b | b in q'.heap ensures Queued(q', b) ==> Queued(q, b) {}
    assert q'.canceling == {};
  }

  lemma RunKeepsLife(q: Queue, asked: seq<Request>)
    requires Inv(q) && LifeInv(q, asked) && Enabled(q, RunNext)
    ensures LifeInv(Apply(q, RunNext), asked)
  {
    var q' := Apply(q, RunNext);
    var k := q.phase.next;
    assert TurnOk(q, k);
    var a := q.expired[k].addr;
    var m := q.heap[a].sequence;
    assert q' == q.(ran := q.ran + [m], phase := Calling(q.phase.now, k + 1));
    assert q.expired[k] in Batch(q) && InBatch(q, a);
    forall b | b in q'.heap ensures TimerAsAsked(q', b, asked) { assert TimerAsAsked(q, b, asked); }
    forall n | n in q'.deleted ensures HadReason(q', n, asked) { assert HadReason(q, n, asked); }
    forall i | 0 <= i < |q'.expired| ensures TurnOk(q', i) {
      assert TurnOk(q, i);
      if i > k {
        assert Batch(q)[k].addr != Batch(q)[i].addr;
        OtherNumber(q, q.expired[i].addr, a);
      }
    }
    forall b | b in q'.heap && q'.heap[b].sequence in q'.ran
      ensures b !in q'.posted && (Queued(q', b) ==> q'.heap[b].Repeat())
    {
      if b == a { assert !Queued(q, a) && a !in q.posted; } else { OtherNumber(q, b, a); }
    }
    assert Batch(q') == Batch(q);
  }

  lemma OtherNumber(q: Queue, a: Addr, b: Addr)
    requires NumbersOk(q) && a in q.heap && b in q.heap && a != b
    ensures q.heap[a].sequence != q.heap[b].sequence
  {
    assert q.ids[q.heap[a].sequence] == a && q.ids[q.heap[b].sequence] == b;
  }

  lemma EndKeepsLife(q: Queue, asked: seq<Request>)
    requires Inv(q) && LifeInv(q, asked) && Enabled(q, EndCalling)
    ensures LifeInv(Apply(q, EndCalling), asked)
  {
    var q' := Apply(q, EndCalling);
    forall b | b in q'.heap ensures TimerAsAsked(q', b, asked) { assert TimerAsAsked(q, b, asked); }
    forall n | n in q'.deleted ensures HadReason(q', n, asked) { assert HadReason(q, n, asked); }
    forall i | 0 <= i < |q'.expired| ensures TurnOk(q', i) { assert TurnOk(q, i); }
    assert Batch(q') == Batch(q);
  }

  lemma ResetKeepsLife(q: Queue, asked: seq<Request>)
    requires Inv(q) && LifeInv(q, asked) && Enabled(q, ResetNext)
    ensures LifeInv(Apply(q, ResetNext), asked)
  {
    var a := q.expired[q.phase.next].addr;
    var q' := Apply(q, ResetNext);
    TurnInv(q);
    TurnIs(q);
    assert TurnOk(q, q.phase.next) && Batch(q)[0] in Batch(q);
    BatchTurned(q, q', a);
    if Restarts(q, a) {
      RestartedKeeps(q, q', a, asked);
    } else {
      assert q.heap[a].sequence in q.inserted;
      FewerKeeps(q, q', a, asked);
      DroppedHadReason(q, q', a, asked);
    }
  }

  lemma DroppedHadReason(q: Queue, q': Queue, a: Addr, asked: seq<Request>)
    requires DeletedOk(q, asked) && a in q.heap && TimerAsAsked(q, a, asked)
    requires q.heap[a].sequence in q.inserted && q.heap[a].sequence in q.ran
    requires !q.heap[a].Repeat() || q.heap[a].sequence in q.cancelled
    requires q'.deleted == q.deleted + {q.heap[a].sequence} && q'.inserted == q.inserted
    requires q'.cancelled == q.cancelled && q'.ran == q.ran
    ensures DeletedOk(q', asked)
  {
    forall n | n in q'.deleted ensures HadReason(q', n, asked) {
      if n in q.deleted { assert HadReason(q, n, asked); }
    }
  }

  /** The rest of the batch. */
  lemma BatchTurned(q: Queue, q': Queue, a: Addr)
    requires TurnsOk(q) && MarksOk(q) && q.phase.Resetting? && q.phase.next < |q.expired|
    requires q'.phase == Resetting(q.phase.now, q.phase.next + 1) && q'.expired == q.expired && q'.ran == q.ran
    requires q'.canceling == q.canceling && q'.cancelled == q.cancelled && Batch(q') == Batch(q)[1..] && BatchOk(q')
    requires forall b <- q'.heap :: b in q.heap && q'.heap[b].sequence == q.heap[b].sequence
    ensures TurnsOk(q') && MarksOk(q')
  {
    forall i | 0 <= i < |q'.expired| ensures TurnOk(q', i) {
      assert TurnOk(q, i);
      if q'.phase.next <= i { assert Batch(q')[i - q'.phase.next] == q'.expired[i] && q'.expired[i] in Batch(q'); }
    }
    forall e | e in Batch(q') ensures e.addr in q'.heap && (Id(e.addr, q'.heap[e.addr].sequence) in q'.canceling ==>
                                                              q'.heap[e.addr].sequence in q'.cancelled)
    {
      assert e in Batch(q);
    }
  }

  lemma RestartedKeeps(q: Queue, q': Queue, a: Addr, asked: seq<Request>)
    requires AsAsked(q, asked) && DeletedOk(q, asked) && WaitingOk(q)
    requires a in q.heap && q.heap[a].sequence in q.ran && a !in q.posted && q.heap[a].Repeat()
    requires q'.ran == q.ran && q'.created == q.created && q'.posted == q.posted && q'.deleted == q.deleted
    requires a in q'.heap && q'.heap == q.heap[a := q.heap[a].(expiration := q'.heap[a].expiration)]
    requires q'.inserted == q.inserted && q'.cancelled == q.cancelled
    requires forall e <- q'.timers :: e in q.timers || e.addr == a
    ensures AsAsked(q', asked) && DeletedOk(q', asked) && WaitingOk(q')
  {
    forall b | b in q'.heap ensures TimerAsAsked(q', b, asked) { assert TimerAsAsked(q, b, asked); }
    forall n | n in q'.deleted ensures HadReason(q', n, asked) { assert HadReason(q, n, asked); }
    forall b | b in q'.heap && b != a ensures Queued(q', b) ==> Queued(q, b) {}
  }

  lemma DoneKeepsLife(q: Queue, asked: seq<Request>)
    requires Inv(q) && LifeInv(q, asked) && Enabled(q, ResetDone)
    ensures LifeInv(Apply(q, ResetDone), asked)
  {
    var q' := Apply(q, ResetDone);
    forall b | b in q'.heap ensures TimerAsAsked(q', b, asked) { assert TimerAsAsked(q, b, asked); }
    forall n | n in q'.deleted ensures HadReason(q', n, asked) { assert HadReason(q, n, asked); }
  }

  lemma StepKeepsLife(q: Queue, step: Step, asked: seq<Request>)
    requires Inv(q) && LifeInv(q, asked) && Enabled(q, step)
    ensures LifeInv(Apply(q, step), asked + Asked(step))
  {
    assert asked + [] == asked;
    match step {
      case New(a, when, interval) => NewKeepsLife(q, a, when, interval, asked);
      case AddInLoop(a) => AddKeepsLife(q, a, asked);
      case CancelInLoop(id) => CancelKeepsLife(q, id, asked);
      case Expire(now) => ExpireKeepsLife(q, now, asked);
      case RunNext => RunKeepsLife(q, asked);
      case EndCalling => EndKeepsLife(q, asked);
      case ResetNext => ResetKeepsLife(q, asked);
      case ResetDone => DoneKeepsLife(q, asked);
    }
  }

  // ---------------------------------------------------------------- every run

  ghost predicate Living(q: Queue, asked: seq<Request>) { Inv(q) && LifeInv(q, asked) }

  lemma StepLives(q: Queue, step: Step, asked: seq<Request>)
    requires Living(q, asked) && Enabled(q, step)
    ensures Living(Apply(q, step), asked + Asked(step))
  {
    StepKeepsInv(q, step);
    StepKeepsLife(q, step, asked);
  }

  lemma RequestsHead(asked: seq<Request>, steps: seq<Step>)
    requires steps != []
    ensures asked + Asked(steps[0]) + Requests(steps[1..]) == asked + Requests(steps)
  {
    Joined(asked, Asked(steps[0]), Requests(steps[1..]));
  }

  lemma Joined(a: seq<Request>, b: seq<Request>, c: seq<Request>)
    ensures a + b + c == a + (b + c)
  {
  }

  lemma {:induction false} RunLives(q: Queue, steps: seq<Step>, asked: seq<Request>)
    requires Living(q, asked) && IsRun(q, steps)
    ensures Living(After(q, steps), asked + Requests(steps))
    decreases steps
  {
    if steps == [] {
      assert asked + [] == asked;
    } else {
      StepLives(q, steps[0], asked);
      RunLives(Apply(q, steps[0]), steps[1..], asked + Asked(steps[0]));
      RequestsHead(asked, steps);
    }
  }

  lemma Reached(steps: seq<Step>)
    requires IsRun(EMPTY, steps)
    ensures Living(After(EMPTY, steps), Requests(steps))
  {
    assert Batch(EMPTY) == [];
    RunLives(EMPTY, steps, []);
    assert [] + Requests(steps) == Requests(steps);
  }

  /** No timer is deleted without a reason: it was cancelled after it was added, or it was asked
      for once and its callback has run. A repeating timer that nobody cancels lives on. */
  lemma NeverDropped(steps: seq<Step>, n: nat)
    requires IsRun(EMPTY, steps) && n in After(EMPTY, steps).deleted
    ensures 1 <= n <= |Requests(steps)| && Added(EMPTY, steps, n)
    ensures Cancelled(EMPTY, steps, n)
            || (Of(Requests(steps), n).interval <= 0 && n in After(EMPTY, steps).ran)
  {
    Reached(steps);
    RunNotes(EMPTY, steps, n);
    assert HadReason(After(EMPTY, steps), n, Requests(steps));
  }

  /** The timer with this number waits in both sets. */
  predicate Waits(q: Queue, n: nat) {
    && n in q.ids && q.ids[n] in q.heap && q.heap[q.ids[n]].sequence == n
    && Queued(q, q.ids[n]) && Id(q.ids[n], n) in q.active
  }

  /** Between rounds the n-th timer asked for waits in both sets exactly if it was added, not
      cancelled since, and either repeats or has not run; with the interval asked for, and the
      expiration too until it has run. */
  lemma TimerLifetime(steps: seq<Step>, n: nat)
    requires IsRun(EMPTY, steps) && 1 <= n <= |Requests(steps)| && After(EMPTY, steps).phase.Idle?
    ensures var q := After(EMPTY, steps);
            && (Waits(q, n) <==>
                  Added(EMPTY, steps, n) && !Cancelled(EMPTY, steps, n)
                  && (Of(Requests(steps), n).interval > 0 || n !in q.ran))
            && (Waits(q, n) ==>
                  var t := q.heap[q.ids[n]];
                  && t.interval == Of(Requests(steps), n).interval
                  && (n !in q.ran ==> t.expiration == Of(Requests(steps), n).when))
  {
    Reached(steps);
    RunNotes(EMPTY, steps, n);
    var q := After(EMPTY, steps);
    if n in q.deleted {
      assert HadReason(q, n, Requests(steps));
    } else {
      assert n in q.ids && q.ids[n] in q.heap;
      assert TimerAsAsked(q, q.ids[n], Requests(steps));
      assert !InBatch(q, q.ids[n]);
    }
  }
}
