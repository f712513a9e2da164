/** networker/net/TimerQueue.cpp: timers kept in two ordered sets, deleted by hand, and
    identified outside by address and sequence number.

    The allocator is explicit: `heap` holds the live Timer objects by address, and an
    address may be handed out again once its timer is deleted. `Apply` is one step of the
    loop's thread or of a thread that creates a timer. An assertion that would fail, an
    access to a deleted timer and a second deletion all set `aborted`. */
module TimerQueues {
  import opened Options

  type Addr = nat
  type Time = int   // microseconds

  datatype Timer = Timer(expiration: Time, interval: int, sequence: nat)
  {
    predicate Repeat() { interval > 0 }
  }

  /** A key of timers_. */
  datatype Entry = Entry(when: Time, addr: Addr)

  /** A key of activeTimers_ and cancelingTimers_, and what a TimerId holds. */
  datatype Id = Id(addr: Addr, sequence: nat)

  datatype Phase =
    | Idle
    | Calling(now: Time, next: nat)      // handleRead is running the callbacks
    | Resetting(now: Time, next: nat)    // handleRead is in reset()

  datatype Queue = Queue(
    heap: map<Addr, Timer>,
    posted: set<Addr>,          // created, addTimerInLoop not yet run
    timers: seq<Entry>,         // timers_, in its order
    active: set<Id>,
    canceling: set<Id>,
    phase: Phase,
    expired: seq<Entry>,
    armed: Option<Time>,        // what the timerfd was last set to
    aborted: bool,
    created: nat,               // s_numCreated_
    // history
    ids: map<nat, Addr>,        // every sequence number given out, with its address
    inserted: set<nat>,         // sequence numbers that addTimerInLoop has run for
    cancelled: set<nat>,        // sequence numbers that cancelInLoop has run for, after that
    deleted: set<nat>,
    ran: seq<nat>)              // sequence numbers in the order of their callbacks

  // ---------------------------------------------------------------- std::set of entries

  predicate Less(a: Entry, b: Entry) {
    a.when < b.when || (a.when == b.when && a.addr < b.addr)
  }

  predicate Sorted(ts: seq<Entry>) {
    forall i, j :: 0 <= i < j < |ts| ==> Less(ts[i], ts[j])
  }

  function InsertSorted(ts: seq<Entry>, e: Entry): (r: seq<Entry>)
    ensures |r| == |ts| + 1
    ensures forall x :: x in r <==> x in ts || x == e
  {
    if ts == [] then [e]
    else if Less(ts[0], e) then
      assert ts == [ts[0]] + ts[1..];
      [ts[0]] + InsertSorted(ts[1..], e)
    else [e] + ts
  }

  lemma {:induction false} InsertSortedSorted(ts: seq<Entry>, e: Entry)
    requires Sorted(ts) && e !in ts
    ensures Sorted(InsertSorted(ts, e))
  {
    if ts != [] && Less(ts[0], e) {
      InsertSortedSorted(ts[1..], e);
      var r := InsertSorted(ts[1..], e);
      forall j | 0 <= j < |r| ensures Less(ts[0], r[j]) {
        assert r[j] in r;
      }
    }
  }

  function Erase(ts: seq<Entry>, e: Entry): (r: seq<Entry>)
    ensures e !in ts ==> r == ts
  {
    if ts == [] then []
    else if ts[0] == e then ts[1..]
    else [ts[0]] + Erase(ts[1..], e)
  }

  lemma {:induction false} EraseSorted(ts: seq<Entry>, e: Entry)
    requires Sorted(ts)
    ensures Sorted(Erase(ts, e))
    ensures forall x :: x in Erase(ts, e) <==> x in ts && x != e
  {
    if ts != [] && ts[0] != e {
      assert ts == [ts[0]] + ts[1..];
      EraseSorted(ts[1..], e);
      var r := Erase(ts[1..], e);
      forall j | 0 <= j < |r| ensures Less(ts[0], r[j]) {
        assert r[j] in r;
      }
    } else if ts != [] {
      assert forall j :: 1 <= j < |ts| ==> Less(ts[0], ts[j]);
      assert ts == [ts[0]] + ts[1..];
    }
  }

  lemma InsertStep(ts: seq<Entry>, e: Entry, i: nat)
    requires i < |ts| && Less(ts[i], e)
    ensures ts[..i] + InsertSorted(ts[i..], e) == ts[..i + 1] + InsertSorted(ts[i + 1..], e)
  {
    var rest, more := ts[i..], InsertSorted(ts[i + 1..], e);
    assert rest[0] == ts[i] && rest[1..] == ts[i + 1..];
    assert ts[..i + 1] == ts[..i] + [ts[i]];
    assert ts[..i] + ([ts[i]] + more) == (ts[..i] + [ts[i]]) + more;
  }

  lemma EraseStep(ts: seq<Entry>, e: Entry, i: nat)
    requires i < |ts| && ts[i] != e
    ensures ts[..i] + Erase(ts[i..], e) == ts[..i + 1] + Erase(ts[i + 1..], e)
  {
    var rest, more := ts[i..], Erase(ts[i + 1..], e);
    assert rest[0] == ts[i] && rest[1..] == ts[i + 1..];
    assert ts[..i + 1] == ts[..i] + [ts[i]];
    assert ts[..i] + ([ts[i]] + more) == (ts[..i] + [ts[i]]) + more;
  }

  /** How many entries are due: the position lower_bound finds for (now, UINTPTR_MAX). */
  function Due(ts: seq<Entry>, now: Time): (n: nat)
    ensures n <= |ts|
    ensures forall i :: 0 <= i < n ==> ts[i].when <= now
    ensures n < |ts| ==> ts[n].when > now
  {
    if ts == [] || ts[0].when > now then 0 else 1 + Due(ts[1..], now)
  }

  // ---------------------------------------------------------------- steps

  datatype Step =
    | New(a: Addr, when: Time, interval: int)   // new Timer, in any thread
    | AddInLoop(a: Addr)                        // addTimerInLoop
    | CancelInLoop(id: Id)
    | Expire(now: Time)                         // handleRead up to the first callback
    | RunNext
    | EndCalling
    | ResetNext                                 // one turn of the loop in reset()
    | ResetDone

  /** Functors and callbacks run on the loop's thread, outside reset(). An id comes from
      addTimer. The timerfd becomes readable, and handleRead runs, only if it was set; it fires
      once for each time it is set. */
  predicate Enabled(q: Queue, step: Step) {
    match step
    case New(a, _, _) => a !in q.heap
    case AddInLoop(a) => a in q.posted && !q.phase.Resetting?
    case CancelInLoop(id) => id.sequence in q.ids && q.ids[id.sequence] == id.addr && !q.phase.Resetting?
    case Expire(_) => q.phase.Idle? && q.armed.Some?
    case RunNext => q.phase.Calling? && q.phase.next < |q.expired|
    case EndCalling => q.phase.Calling? && q.phase.next == |q.expired|
    case ResetNext => q.phase.Resetting? && q.phase.next < |q.expired|
    case ResetDone => q.phase.Resetting? && q.phase.next == |q.expired|
  }

  function Abort(q: Queue): Queue { q.(aborted := true) }

  function InsertFn(q: Queue, a: Addr): Queue
    requires a in q.heap
  {
    var t := q.heap[a];
    var e, id := Entry(t.expiration, a), Id(a, t.sequence);
    if e in q.timers || id in q.active then Abort(q)
    else q.(timers := InsertSorted(q.timers, e), active := q.active + {id})
  }

  /** The comparison in the source: the timerfd is set when the set was empty or the new
      timer is LATER than the first one. */
  predicate EarliestChanged(q: Queue, when: Time) {
    q.timers == [] || when > q.timers[0].when
  }

  function AddInLoopFn(q: Queue, a: Addr): Queue {
    if a !in q.heap then Abort(q)
    else
      var when := q.heap[a].expiration;
      var q1 := InsertFn(q, a);
      q1.(posted := q.posted - {a}, inserted := q.inserted + {q.heap[a].sequence},
          armed := if EarliestChanged(q, when) then Some(when) else q.armed)
  }

  function Delete(q: Queue, a: Addr): Queue {
    if a !in q.heap || q.heap[a].sequence in q.deleted then Abort(q)
    else q.(heap := q.heap - {a}, deleted := q.deleted + {q.heap[a].sequence})
  }

  function CancelFn(q: Queue, id: Id): Queue {
    var q0 := if id.sequence in q.inserted then q.(cancelled := q.cancelled + {id.sequence}) else q;
    if id in q.active then
      if id.addr !in q.heap || Entry(q.heap[id.addr].expiration, id.addr) !in q.timers then Abort(q0)
      else
        Delete(q0.(timers := Erase(q.timers, Entry(q.heap[id.addr].expiration, id.addr)), active := q.active - {id}),
               id.addr)
    else if q.phase.Calling? then q0.(canceling := q.canceling + {id})
    else q0
  }

  function IdsOf(heap: map<Addr, Timer>, es: seq<Entry>): set<Id> {
    set e <- es | e.addr in heap :: Id(e.addr, heap[e.addr].sequence)
  }

  function ExpireFn(q: Queue, now: Time): Queue {
    var n := Due(q.timers, now);
    var expired := q.timers[..n];
    if IdsOf(q.heap, expired) <= q.active && forall e <- expired :: e.addr in q.heap
    then q.(timers := q.timers[n..], active := q.active - IdsOf(q.heap, expired), expired := expired,
            phase := Calling(now, 0), canceling := {}, armed := None)
    else Abort(q)
  }

  function RunNextFn(q: Queue): Queue
    requires q.phase.Calling? && q.phase.next < |q.expired|
  {
    var a := q.expired[q.phase.next].addr;
    if a !in q.heap then Abort(q)
    else q.(ran := q.ran + [q.heap[a].sequence], phase := Calling(q.phase.now, q.phase.next + 1))
  }

  function ResetNextFn(q: Queue): Queue
    requires q.phase.Resetting? && q.phase.next < |q.expired|
  {
    var a := q.expired[q.phase.next].addr;
    var q1 := q.(phase := Resetting(q.phase.now, q.phase.next + 1));
    if a !in q.heap then Abort(q1)
    else if q.heap[a].Repeat() && Id(a, q.heap[a].sequence) !in q.canceling then
      InsertFn(q1.(heap := q.heap[a := q.heap[a].(expiration := q.phase.now + q.heap[a].interval)]), a)
    else Delete(q1, a)
  }

  function ResetDoneFn(q: Queue): Queue {
    q.(phase := Idle, expired := [],
       armed := if q.timers != [] && q.timers[0].when > 0 then Some(q.timers[0].when) else q.armed)
  }

  function Apply(q: Queue, step: Step): Queue
    requires Enabled(q, step)
  {
    match step
    case New(a, when, interval) =>
      var n := q.created + 1;
      q.(heap := q.heap[a := Timer(when, interval, n)], posted := q.posted + {a}, created := n, ids := q.ids[n := a])
    case AddInLoop(a) => AddInLoopFn(q, a)
    case CancelInLoop(id) => CancelFn(q, id)
    case Expire(now) => ExpireFn(q, now)
    case RunNext => RunNextFn(q)
    case EndCalling => q.(phase := Resetting(q.phase.now, 0))
    case ResetNext => ResetNextFn(q)
    case ResetDone => ResetDoneFn(q)
  }

  const EMPTY := Queue(map[], {}, [], {}, {}, Idle, [], None, false, 0, map[], {}, {}, {}, [])

  // ---------------------------------------------------------------- the invariant

  /** In the two sets, under its own keys. */
  predicate Queued(q: Queue, a: Addr) {
    a in q.heap && Entry(q.heap[a].expiration, a) in q.timers
  }

  /** The part of the current batch that reset() has not dealt with. */
  function Batch(q: Queue): seq<Entry> {
    match q.phase
    case Idle => []
    case Calling(_, _) => q.expired
    case Resetting(_, next) => if next <= |q.expired| then q.expired[next..] else []
  }

  predicate InBatch(q: Queue, a: Addr) {
    exists e <- Batch(q) :: e.addr == a
  }

  /** Both sets hold exactly the queued timers: (expiration, address) in one, (address,
      sequence) in the other. */
  ghost predicate SetsAgree(q: Queue) {
    && Sorted(q.timers)
    && (forall e <- q.timers :: e.addr in q.heap && q.heap[e.addr].expiration == e.when)
    && (forall id <- q.active :: Queued(q, id.addr) && q.heap[id.addr].sequence == id.sequence)
    && (forall a <- q.heap :: Queued(q, a) ==> Id(a, q.heap[a].sequence) in q.active)
  }

  /** Every live timer has exactly one owner: the functor that will add it, the sets, or the
      batch. */
  ghost predicate OwnedOnce(q: Queue) {
    && (forall a <- q.posted :: a in q.heap)
    && (forall a <- q.heap :: a in q.posted || Queued(q, a) || InBatch(q, a))
    && (forall a <- q.heap :: !(a in q.posted && Queued(q, a))
                              && !(a in q.posted && InBatch(q, a)) && !(Queued(q, a) && InBatch(q, a)))
    && BatchOk(q)
  }

  /** The rest of the batch holds live timers, each once. */
  ghost predicate BatchOk(q: Queue) {
    && (forall e <- Batch(q) :: e.addr in q.heap)
    && Distinct(Batch(q))
    && (q.phase.Calling? || q.phase.Resetting? ==> q.phase.next <= |q.expired|)
  }

  ghost predicate Distinct(es: seq<Entry>) {
    forall i, j :: 0 <= i < j < |es| ==> es[i].addr != es[j].addr
  }

  /** Every sequence number ever given out belongs to one live timer, or to a deleted one. */
  ghost predicate NumbersOk(q: Queue) {
    && (forall n :: n in q.ids <==> 1 <= n <= q.created)
    && (forall a <- q.heap :: q.heap[a].sequence in q.ids && q.ids[q.heap[a].sequence] == a
                              && q.heap[a].sequence !in q.deleted)
    && (forall n <- q.ids :: n in q.deleted || (q.ids[n] in q.heap && q.heap[q.ids[n]].sequence == n))
    && (forall n <- q.deleted :: n in q.ids)
    && (forall a <- q.heap :: q.heap[a].sequence in q.inserted <==> a !in q.posted)
    && (forall n <- q.inserted :: n in q.ids)
  }

  /** A cancelled timer is gone, or in the batch and marked. */
  ghost predicate CancelOk(q: Queue) {
    && q.cancelled <= q.inserted
    && (forall a <- q.heap :: q.heap[a].sequence in q.cancelled ==>
          !Queued(q, a) && Id(a, q.heap[a].sequence) in q.canceling)
  }

  ghost predicate Inv(q: Queue) {
    !q.aborted && SetsAgree(q) && OwnedOnce(q) && NumbersOk(q) && CancelOk(q)
  }

  // ---------------------------------------------------------------- every step keeps it

  lemma NewNumbersOk(q: Queue, a: Addr, when: Time, interval: int)
    requires NumbersOk(q) && a !in q.heap
    ensures NumbersOk(Apply(q, New(a, when, interval)))
  {
    var q' := Apply(q, New(a, when, interval));
    assert q.created + 1 !in q.ids;
    forall b | b in q.heap ensures q'.heap[b] == q.heap[b] && q.heap[b].sequence in q.ids {}
  }

  lemma NewKeepsInv(q: Queue, a: Addr, when: Time, interval: int)
    requires Inv(q) && a !in q.heap
    ensures Inv(Apply(q, New(a, when, interval)))
  {
    var q' := Apply(q, New(a, when, interval));
    NewNumbersOk(q, a, when, interval);
    assert Batch(q') == Batch(q);
    forall b | b in q.heap ensures Queued(q', b) == Queued(q, b) && InBatch(q', b) == InBatch(q, b) {}
    assert !Queued(q', a) && !InBatch(q', a);
    assert SetsAgree(q');
    assert OwnedOnce(q');
  }

  /** Inserting a live timer that is not queued adds it to both sets and touches no other. */
  lemma InsertKeepsSets(q: Queue, a: Addr)
    requires SetsAgree(q) && !q.aborted && a in q.heap
    requires forall e <- q.timers :: e.addr != a
    ensures var q' := InsertFn(q, a);
            && !q'.aborted && SetsAgree(q') && Queued(q', a)
            && (forall b :: b != a ==> Queued(q', b) == Queued(q, b))
  {
    var e := Entry(q.heap[a].expiration, a);
    assert Id(a, q.heap[a].sequence) !in q.active;
    InsertSortedSorted(q.timers, e);
    var q' := InsertFn(q, a);
    forall b | b != a ensures Queued(q', b) == Queued(q, b) {}
  }

  lemma AddKeepsInv(q: Queue, a: Addr)
    requires Inv(q) && Enabled(q, AddInLoop(a))
    ensures Inv(Apply(q, AddInLoop(a)))
  {
    assert forall e <- q.timers :: Queued(q, e.addr);
    InsertKeepsSets(q, a);
    var q' := Apply(q, AddInLoop(a));
    assert !InBatch(q, a) && !Queued(q, a);
    assert q'.timers == InsertFn(q, a).timers && q'.active == InsertFn(q, a).active;
    assert forall b :: Queued(q', b) == Queued(InsertFn(q, a), b);
    AddedOwned(q, q', a);
    AddedNumbers(q, q', a);
  }

  /** The timer has moved from its functor into the sets. */
  lemma AddedOwned(q: Queue, q': Queue, a: Addr)
    requires OwnedOnce(q) && a in q.heap && a in q.posted && !InBatch(q, a)
    requires q'.heap == q.heap && q'.posted == q.posted - {a} && q'.phase == q.phase && q'.expired == q.expired
    requires Queued(q', a) && forall b :: b != a ==> Queued(q', b) == Queued(q, b)
    ensures OwnedOnce(q')
  {
    assert Batch(q') == Batch(q);
    assert forall b :: InBatch(q', b) == InBatch(q, b);
  }

  lemma AddedNumbers(q: Queue, q': Queue, a: Addr)
    requires NumbersOk(q) && CancelOk(q) && a in q.posted && a in q.heap
    requires q'.heap == q.heap && q'.posted == q.posted - {a} && q'.inserted == q.inserted + {q.heap[a].sequence}
    requires q'.ids == q.ids && q'.created == q.created && q'.deleted == q.deleted
    requires q'.cancelled == q.cancelled && q'.canceling == q.canceling
    requires forall b :: b != a ==> Queued(q', b) == Queued(q, b)
    ensures NumbersOk(q') && CancelOk(q')
  {
    forall b | b in q.heap && q.heap[b].sequence == q.heap[a].sequence ensures b == a {}
  }

  lemma CancelQueuedKeepsInv(q: Queue, id: Id)
    requires Inv(q) && Enabled(q, CancelInLoop(id)) && id in q.active
    ensures Inv(Apply(q, CancelInLoop(id)))
  {
    var a := id.addr;
    var q' := Apply(q, CancelInLoop(id));
    assert Queued(q, a) && q.heap[a].sequence == id.sequence && !InBatch(q, a) && a !in q.posted;
    assert q' == q.(heap := q.heap - {a}, timers := Erase(q.timers, Entry(q.heap[a].expiration, a)),
                    active := q.active - {id}, deleted := q.deleted + {id.sequence}, cancelled := q'.cancelled);
    ErasedSets(q, q', a);
    RemovedOwned(q, q', a);
    DeletedNumbersOk(q, q', a);
    ErasedCancel(q, q', a);
  }

  /** A queued timer taken out of both sets and deleted. */
  lemma ErasedSets(q: Queue, q': Queue, a: Addr)
    requires SetsAgree(q) && Queued(q, a) && q'.heap == q.heap - {a}
    requires q'.timers == Erase(q.timers, Entry(q.heap[a].expiration, a))
    requires q'.active == q.active - {Id(a, q.heap[a].sequence)}
    ensures SetsAgree(q') && forall b :: b != a ==> Queued(q', b) == Queued(q, b)
  {
    EraseSorted(q.timers, Entry(q.heap[a].expiration, a));
    forall b | b != a ensures Queued(q', b) == Queued(q, b) {}
  }

  /** A timer that nothing else owned is gone. */
  lemma RemovedOwned(q: Queue, q': Queue, a: Addr)
    requires OwnedOnce(q) && a in q.heap && a !in q.posted && !InBatch(q, a)
    requires q'.heap == q.heap - {a} && q'.posted == q.posted && q'.phase == q.phase && q'.expired == q.expired
    requires forall b :: b != a ==> Queued(q', b) == Queued(q, b)
    ensures OwnedOnce(q')
  {
    assert Batch(q') == Batch(q);
    assert forall b :: InBatch(q', b) == InBatch(q, b);
    assert forall x <- Batch(q') :: InBatch(q, x.addr);
  }

  lemma ErasedCancel(q: Queue, q': Queue, a: Addr)
    requires CancelOk(q) && NumbersOk(q) && a in q.heap && q'.heap == q.heap - {a}
    requires q'.inserted == q.inserted && q'.canceling == q.canceling
    requires q.cancelled <= q'.cancelled <= q.cancelled + {q.heap[a].sequence} && q'.cancelled <= q.inserted
    requires forall b :: b != a ==> Queued(q', b) == Queued(q, b)
    ensures CancelOk(q')
  {
    forall b | b in q'.heap ensures q.heap[b].sequence != q.heap[a].sequence {
      assert q.ids[q.heap[b].sequence] == b;
    }
  }

  lemma DeletedNumbersOk(q: Queue, q': Queue, a: Addr)
    requires NumbersOk(q) && a in q.heap && a !in q.posted
    requires q'.heap == q.heap - {a} && q'.deleted == q.deleted + {q.heap[a].sequence}
    requires q'.ids == q.ids && q'.created == q.created && q'.inserted == q.inserted && q'.posted == q.posted
    ensures NumbersOk(q')
  {
    forall n | n in q'.ids && n !in q'.deleted
      ensures q'.ids[n] in q'.heap && q'.heap[q'.ids[n]].sequence == n
    {}
  }

  lemma CancelOtherKeepsInv(q: Queue, id: Id)
    requires Inv(q) && Enabled(q, CancelInLoop(id)) && id !in q.active
    ensures Inv(Apply(q, CancelInLoop(id)))
  {
    var q' := Apply(q, CancelInLoop(id));
    assert q' == q.(cancelled := q'.cancelled, canceling := q'.canceling);
    assert Batch(q') == Batch(q);
    assert forall b :: Queued(q', b) == Queued(q, b) && InBatch(q', b) == InBatch(q, b);
    CancelOtherMarks(q, id);
  }

  lemma CancelOtherMarks(q: Queue, id: Id)
    requires Inv(q) && Enabled(q, CancelInLoop(id)) && id !in q.active
    ensures CancelOk(Apply(q, CancelInLoop(id)))
  {
    var q' := Apply(q, CancelInLoop(id));
    forall b | b in q'.heap && q'.heap[b].sequence in q'.cancelled
      ensures !Queued(q', b) && Id(b, q'.heap[b].sequence) in q'.canceling
    {
      if q.heap[b].sequence == id.sequence {
        assert b == id.addr && !Queued(q, b);
        assert InBatch(q, b) ==> q.phase.Calling?;
      } else {
        assert Queued(q', b) == Queued(q, b);
      }
    }
  }

  lemma DueSplit(ts: seq<Entry>, now: Time)
    requires Sorted(ts)
    ensures var n := Due(ts, now);
            && Sorted(ts[n..])
            && (forall e :: e in ts <==> e in ts[..n] || e in ts[n..])
            && (forall e <- ts[..n] :: e.when <= now) && (forall e <- ts[n..] :: e.when > now)
  {
    var n := Due(ts, now);
    assert ts == ts[..n] + ts[n..];
    AllLater(ts, n, now);
    SuffixSorted(ts, n);
  }

  lemma SuffixSorted(ts: seq<Entry>, n: nat)
    requires Sorted(ts) && n <= |ts|
    ensures Sorted(ts[n..])
  {
  }

  lemma AllLater(ts: seq<Entry>, n: nat, now: Time)
    requires Sorted(ts) && n <= |ts| && (n < |ts| ==> ts[n].when > now)
    ensures forall i :: 0 <= i < |ts[n..]| ==> ts[n..][i].when > now
  {
    forall i | 0 <= i < |ts[n..]| ensures ts[n..][i].when > now {
      assert i == 0 || Less(ts[n], ts[n + i]);
    }
  }

  lemma DueIds(q: Queue, n: nat)
    requires SetsAgree(q) && n <= |q.timers|
    ensures Distinct(q.timers[..n]) && forall e <- q.timers[..n] :: e.addr in q.heap
    ensures IdsOf(q.heap, q.timers[..n]) <= q.active
  {
    forall i, j | 0 <= i < j < n ensures q.timers[i].addr != q.timers[j].addr {
      assert Less(q.timers[i], q.timers[j]);
      assert q.timers[i] in q.timers && q.timers[j] in q.timers;
    }
    forall e | e in q.timers[..n] ensures e in q.timers && Queued(q, e.addr) {}
  }

  lemma ExpireIs(q: Queue, now: Time)
    requires SetsAgree(q)
    ensures var n := Due(q.timers, now);
            ExpireFn(q, now) == q.(timers := q.timers[n..], active := q.active - IdsOf(q.heap, q.timers[..n]),
                                   expired := q.timers[..n], phase := Calling(now, 0), canceling := {}, armed := None)
  {
    DueIds(q, Due(q.timers, now));
  }

  lemma ExpireKeepsInv(q: Queue, now: Time)
    requires Inv(q) && Enabled(q, Expire(now))
    ensures Inv(Apply(q, Expire(now)))
    ensures Apply(q, Expire(now)).expired == q.timers[..Due(q.timers, now)]
    ensures Apply(q, Expire(now)).timers == q.timers[Due(q.timers, now)..]
  {
    var q' := Apply(q, Expire(now));
    ExpireIs(q, now);
    ExpireSplits(q, now);
    ExpiredSets(q, now);
    ExpiredOwned(q, now);
    assert forall a <- q'.heap :: q'.heap[a].sequence !in q'.cancelled by {
      assert forall a :: !InBatch(q, a);
    }
  }

  /** What was queued is queued still or in the batch. */
  lemma ExpireSplits(q: Queue, now: Time)
    requires SetsAgree(q)
    ensures var q' := ExpireFn(q, now);
            && q'.heap == q.heap && Batch(q') == q.timers[..Due(q.timers, now)]
            && (forall b :: Queued(q, b) <==> Queued(q', b) || InBatch(q', b))
            && (forall b :: !(Queued(q', b) && InBatch(q', b)))
            && (forall e <- Batch(q') :: e in q.timers)
  {
    ExpireIs(q, now);
    DueSplit(q.timers, now);
    var q' := ExpireFn(q, now);
    var first := q.timers[..Due(q.timers, now)];
    assert Batch(q') == first;
    forall b
      ensures Queued(q, b) <==> Queued(q', b) || InBatch(q', b)
      ensures !(Queued(q', b) && InBatch(q', b))
    {
      if InBatch(q', b) {
        var e :| e in first && e.addr == b;
        assert e in q.timers && e == Entry(q.heap[b].expiration, b);
      }
      if Queued(q, b) && !Queued(q', b) {
        assert Entry(q.heap[b].expiration, b) in first;
      }
    }
  }

  lemma ExpiredSets(q: Queue, now: Time)
    requires SetsAgree(q)
    ensures SetsAgree(ExpireFn(q, now))
  {
    ExpireIs(q, now);
    ExpireSplits(q, now);
    DueSplit(q.timers, now);
    var q' := ExpireFn(q, now);
    var first := q.timers[..Due(q.timers, now)];
    forall id | id in q'.active ensures Queued(q', id.addr) {
      assert Queued(q, id.addr);
      assert InBatch(q', id.addr) ==> id in IdsOf(q.heap, first);
    }
    forall a | a in q'.heap && Queued(q', a) ensures Id(a, q'.heap[a].sequence) in q'.active {
      assert Queued(q, a);
      assert Id(a, q'.heap[a].sequence) in IdsOf(q.heap, first) ==> InBatch(q', a);
    }
  }

  lemma ExpiredOwned(q: Queue, now: Time)
    requires SetsAgree(q) && OwnedOnce(q) && q.phase.Idle?
    ensures OwnedOnce(ExpireFn(q, now))
  {
    ExpireIs(q, now);
    ExpireSplits(q, now);
    DueIds(q, Due(q.timers, now));
    assert forall b :: !InBatch(q, b);
  }

  lemma PhaseOnlyKeepsInv(q: Queue, q': Queue)
    requires Inv(q) && q' == q.(phase := q'.phase, ran := q'.ran, expired := q'.expired, armed := q'.armed)
    requires Batch(q') == Batch(q)
    requires q'.phase.Calling? || q'.phase.Resetting? ==> q'.phase.next <= |q'.expired|
    ensures Inv(q')
  {
    forall b | b in q'.heap
      ensures Queued(q', b) == Queued(q, b) && InBatch(q', b) == InBatch(q, b)
    {}
  }

  lemma RunNextKeepsInv(q: Queue)
    requires Inv(q) && Enabled(q, RunNext)
    ensures Inv(Apply(q, RunNext))
    ensures var t := q.expired[q.phase.next];
            t.addr in q.heap && Apply(q, RunNext).ran == q.ran + [q.heap[t.addr].sequence]
  {
    assert q.expired[q.phase.next] in Batch(q);
    PhaseOnlyKeepsInv(q, Apply(q, RunNext));
  }

  /** What is left of the batch after one turn of reset(). */
  lemma BatchTail(q: Queue, q': Queue)
    requires q.phase.Resetting? && q.phase.next < |q.expired| && OwnedOnce(q)
    requires q'.phase == Resetting(q.phase.now, q.phase.next + 1) && q'.expired == q.expired
    ensures var a := q.expired[q.phase.next].addr;
            && Batch(q') == Batch(q)[1..]
            && a in q.heap && InBatch(q, a) && !InBatch(q', a)
            && (forall b :: b != a ==> InBatch(q', b) == InBatch(q, b))
            && (forall e <- Batch(q') :: e in Batch(q))
  {
    var a := q.expired[q.phase.next].addr;
    assert Batch(q)[0] == q.expired[q.phase.next];
    assert Batch(q') == Batch(q)[1..];
    assert Batch(q)[0] in Batch(q);
    forall j | 0 <= j < |Batch(q')| ensures Batch(q')[j].addr != a {
      assert Batch(q)[j + 1] == Batch(q')[j];
    }
    forall b | b != a ensures InBatch(q', b) == InBatch(q, b) {
      if InBatch(q, b) {
        var e :| e in Batch(q) && e.addr == b;
        assert e in Batch(q)[1..];
      }
    }
  }

  /** One turn for a timer that repeats: it is restarted, and inserted. */
  function Restarted(q: Queue): Queue
    requires q.phase.Resetting? && q.phase.next < |q.expired| && q.expired[q.phase.next].addr in q.heap
  {
    var a := q.expired[q.phase.next].addr;
    q.(phase := Resetting(q.phase.now, q.phase.next + 1),
       heap := q.heap[a := q.heap[a].(expiration := q.phase.now + q.heap[a].interval)])
  }

  lemma ResetRepeatKeepsInv(q: Queue)
    requires Inv(q) && Enabled(q, ResetNext)
    requires var a := q.expired[q.phase.next].addr;
             a in q.heap && q.heap[a].Repeat() && Id(a, q.heap[a].sequence) !in q.canceling
    ensures Inv(ResetNextFn(q))
  {
    var a, q1 := q.expired[q.phase.next].addr, Restarted(q);
    BatchTail(q, q1);
    RestartedSets(q, q1, a);
    var q' := InsertFn(q1, a);
    assert q' == q1.(timers := q'.timers, active := q'.active) && Batch(q') == Batch(q1);
    SameBatch(q1, q');
    RestartedRest(q, q', a);
    assert Inv(q');
  }

  lemma SameBatch(q: Queue, q': Queue)
    requires Batch(q') == Batch(q)
    ensures forall b :: InBatch(q', b) == InBatch(q, b)
  {
  }

  lemma RestartedSets(q: Queue, q1: Queue, a: Addr)
    requires Inv(q) && InBatch(q, a) && a in q.heap
    requires a in q1.heap && q1.heap == q.heap[a := q.heap[a].(expiration := q1.heap[a].expiration)]
    requires !q1.aborted
    requires q1.timers == q.timers && q1.active == q.active
    ensures var q' := InsertFn(q1, a);
            && !q'.aborted && SetsAgree(q') && Queued(q', a)
            && (forall b :: b != a ==> Queued(q', b) == Queued(q, b))
  {
    assert forall e <- q.timers :: Queued(q, e.addr);
    assert forall e <- q.timers :: e.addr != a;
    forall b ensures Queued(q1, b) == Queued(q, b) {}
    assert SetsAgree(q1);
    InsertKeepsSets(q1, a);
  }

  /** The repeating timer has moved from the batch into the sets. */
  lemma RestartedRest(q: Queue, q': Queue, a: Addr)
    requires Inv(q) && a in q.heap && InBatch(q, a) && Id(a, q.heap[a].sequence) !in q.canceling
    requires a in q'.heap && q'.heap == q.heap[a := q.heap[a].(expiration := q'.heap[a].expiration)]
    requires q' == q.(heap := q'.heap, timers := q'.timers, active := q'.active, phase := q'.phase)
    requires Queued(q', a) && !InBatch(q', a) && Batch(q) != [] && Batch(q') == Batch(q)[1..]
    requires forall b :: b != a ==> Queued(q', b) == Queued(q, b) && InBatch(q', b) == InBatch(q, b)
    requires q'.phase.Calling? || q'.phase.Resetting? ==> q'.phase.next <= |q'.expired|
    ensures OwnedOnce(q') && NumbersOk(q') && CancelOk(q')
  {
    assert q.heap[a].sequence !in q.cancelled && a !in q.posted;
    RestartedOwned(q, q', a);
    RestartedNumbers(q, q', a);
  }

  lemma RestartedOwned(q: Queue, q': Queue, a: Addr)
    requires OwnedOnce(q) && a in q.heap && a !in q.posted && q'.heap.Keys == q.heap.Keys && q'.posted == q.posted
    requires Queued(q', a) && !InBatch(q', a) && Batch(q) != [] && Batch(q') == Batch(q)[1..]
    requires forall b :: b != a ==> Queued(q', b) == Queued(q, b) && InBatch(q', b) == InBatch(q, b)
    requires q'.phase.Calling? || q'.phase.Resetting? ==> q'.phase.next <= |q'.expired|
    ensures OwnedOnce(q')
  {
    assert forall b :: b in q'.heap.Keys <==> b in q.heap.Keys;
    TailOk(q, q');
  }

  lemma TailOk(q: Queue, q': Queue)
    requires BatchOk(q) && Batch(q) != [] && Batch(q') == Batch(q)[1..] && q'.heap.Keys == q.heap.Keys
    requires q'.phase.Calling? || q'.phase.Resetting? ==> q'.phase.next <= |q'.expired|
    ensures BatchOk(q')
  {
    TailDistinct(Batch(q));
    assert forall e <- Batch(q') :: e in Batch(q) && (e.addr in q'.heap.Keys <==> e.addr in q.heap.Keys);
  }

  lemma TailDistinct(es: seq<Entry>)
    requires Distinct(es) && es != []
    ensures Distinct(es[1..])
  {
  }

  lemma RestartedNumbers(q: Queue, q': Queue, a: Addr)
    requires NumbersOk(q) && CancelOk(q) && a in q.heap && q.heap[a].sequence !in q.cancelled
    requires a in q'.heap && q'.heap == q.heap[a := q.heap[a].(expiration := q'.heap[a].expiration)]
    requires q' == q.(heap := q'.heap, timers := q'.timers, active := q'.active, phase := q'.phase)
    requires forall b :: b != a ==> Queued(q', b) == Queued(q, b)
    ensures NumbersOk(q') && CancelOk(q')
  {
    assert forall b <- q.heap :: b in q'.heap && q'.heap[b].sequence == q.heap[b].sequence;
  }

  lemma ResetDeleteKeepsInv(q: Queue)
    requires Inv(q) && Enabled(q, ResetNext)
    requires var a := q.expired[q.phase.next].addr;
             a in q.heap && !(q.heap[a].Repeat() && Id(a, q.heap[a].sequence) !in q.canceling)
    ensures Inv(Apply(q, ResetNext))
  {
    var a := q.expired[q.phase.next].addr;
    var q1 := q.(phase := Resetting(q.phase.now, q.phase.next + 1));
    BatchTail(q, q1);
    assert InBatch(q, a) && !Queued(q, a) && a !in q.posted;
    var q' := Apply(q, ResetNext);
    assert q' == q1.(heap := q.heap - {a}, deleted := q.deleted + {q.heap[a].sequence});
    DroppedSets(q, q', a);
    DroppedOwned(q, q1, q', a);
    DeletedNumbersOk(q, q', a);
    ErasedCancel(q, q', a);
  }

  lemma DroppedSets(q: Queue, q': Queue, a: Addr)
    requires SetsAgree(q) && a in q.heap && !Queued(q, a)
    requires q'.heap == q.heap - {a} && q'.timers == q.timers && q'.active == q.active
    ensures SetsAgree(q') && forall b :: b != a ==> Queued(q', b) == Queued(q, b)
  {
    forall e | e in q'.timers ensures e.addr != a {
      assert Queued(q, e.addr);
    }
  }

  lemma DroppedOwned(q: Queue, q1: Queue, q': Queue, a: Addr)
    requires OwnedOnce(q) && a in q.heap && a !in q.posted && q'.heap == q.heap - {a} && q'.posted == q.posted
    requires Batch(q1) != Batch(q) && Batch(q) != [] && Batch(q1) == Batch(q)[1..] && !InBatch(q1, a)
    requires q'.phase == q1.phase && q'.expired == q1.expired && q'.phase.Resetting? && q'.phase.next <= |q'.expired|
    requires forall b :: b != a ==> Queued(q', b) == Queued(q, b) && InBatch(q1, b) == InBatch(q, b)
    ensures OwnedOnce(q')
  {
    assert Batch(q') == Batch(q1);
    assert forall b :: InBatch(q', b) == InBatch(q1, b);
    ShorterOk(q, q', a);
  }

  lemma ShorterOk(q: Queue, q': Queue, a: Addr)
    requires BatchOk(q) && Batch(q) != [] && Batch(q') == Batch(q)[1..] && q'.heap == q.heap - {a} && !InBatch(q', a)
    requires q'.phase.Resetting? && q'.phase.next <= |q'.expired|
    ensures BatchOk(q')
  {
    TailDistinct(Batch(q));
    forall e | e in Batch(q') ensures e.addr in q'.heap {
      assert e in Batch(q) && InBatch(q', e.addr);
    }
  }

  lemma StepKeepsInv(q: Queue, step: Step)
    requires Inv(q) && Enabled(q, step)
    ensures Inv(Apply(q, step))
  {
    match step {
      case New(a, when, interval) => NewKeepsInv(q, a, when, interval);
      case AddInLoop(a) => AddKeepsInv(q, a);
      case CancelInLoop(id) => if id in q.active { CancelQueuedKeepsInv(q, id); } else { CancelOtherKeepsInv(q, id); }
      case Expire(now) => ExpireKeepsInv(q, now);
      case RunNext => RunNextKeepsInv(q);
      case EndCalling => PhaseOnlyKeepsInv(q, Apply(q, step));
      case ResetNext =>
        var q1 := q.(phase := Resetting(q.phase.now, q.phase.next + 1));
        BatchTail(q, q1);
        var a := q.expired[q.phase.next].addr;
        if q.heap[a].Repeat() && Id(a, q.heap[a].sequence) !in q.canceling {
          ResetRepeatKeepsInv(q);
        } else {
          ResetDeleteKeepsInv(q);
        }
      case ResetDone => PhaseOnlyKeepsInv(q, Apply(q, step));
    }
  }

  // ---------------------------------------------------------------- whole runs

  ghost predicate IsRun(q: Queue, steps: seq<Step>)
    decreases steps
  {
    steps == [] || (Enabled(q, steps[0]) && IsRun(Apply(q, steps[0]), steps[1..]))
  }

  function After(q: Queue, steps: seq<Step>): Queue
    requires IsRun(q, steps)
    decreases steps
  {
    if steps == [] then q else After(Apply(q, steps[0]), steps[1..])
  }

  lemma {:induction false} RunKeepsInv(q: Queue, steps: seq<Step>)
    requires Inv(q) && IsRun(q, steps)
    ensures Inv(After(q, steps))
    decreases steps
  {
    if steps != [] {
      StepKeepsInv(q, steps[0]);
      RunKeepsInv(Apply(q, steps[0]), steps[1..]);
    }
  }

  /** Where the timer with this sequence number is: exactly one of the four. */
  predicate Waiting(q: Queue, n: nat) {
    n in q.ids && q.ids[n] in q.heap && q.ids[n] in q.posted && q.heap[q.ids[n]].sequence == n
  }
  predicate InSets(q: Queue, n: nat) { n in q.ids && Queued(q, q.ids[n]) && q.heap[q.ids[n]].sequence == n }
  predicate BeingRun(q: Queue, n: nat) {
    n in q.ids && q.ids[n] in q.heap && InBatch(q, q.ids[n]) && q.heap[q.ids[n]].sequence == n
  }

  /** In every run, with addresses reused at will and timers created by any thread at any
      moment: no assertion fails, no deleted timer is touched, none is deleted twice; the two
      sets hold the same timers; and every timer ever created is waiting to be added, or in
      the sets, or in the current batch, or deleted, and in one of these only. */
  lemma TimerMemory(steps: seq<Step>)
    requires IsRun(EMPTY, steps)
    ensures var q := After(EMPTY, steps);
            && !q.aborted && |q.timers| == |q.active|
            && (forall e :: e in q.timers <==> Queued(q, e.addr) && q.heap[e.addr].expiration == e.when)
            && (forall id :: id in q.active <==> Queued(q, id.addr) && q.heap[id.addr].sequence == id.sequence)
  {
    RunKeepsInv(EMPTY, steps);
    SizesAgree(After(EMPTY, steps));
  }

  lemma EveryTimerOnce(steps: seq<Step>, q: Queue, n: nat)
    requires IsRun(EMPTY, steps) && q == After(EMPTY, steps) && 1 <= n <= q.created
    ensures q.posted <= q.heap.Keys
    ensures Waiting(q, n) || InSets(q, n) || BeingRun(q, n) || n in q.deleted
    ensures !(Waiting(q, n) && InSets(q, n)) && !(Waiting(q, n) && BeingRun(q, n)) && !(InSets(q, n) && BeingRun(q, n))
    ensures n in q.deleted ==> !Waiting(q, n) && !InSets(q, n) && !BeingRun(q, n)
  {
    RunKeepsInv(EMPTY, steps);
  }

  lemma SizesAgree(q: Queue)
    requires SetsAgree(q)
    ensures |q.timers| == |q.active|
  {
    DueIds(q, |q.timers|);
    assert q.timers[..|q.timers|] == q.timers;
    assert q.active == IdsOf(q.heap, q.timers) by {
      forall id | id in q.active ensures id in IdsOf(q.heap, q.timers) {
        assert Entry(q.heap[id.addr].expiration, id.addr) in q.timers;
      }
    }
    IdsCount(q.heap, q.timers);
  }

  lemma {:induction false} IdsCount(heap: map<Addr, Timer>, es: seq<Entry>)
    requires Distinct(es) && forall e <- es :: e.addr in heap
    ensures |IdsOf(heap, es)| == |es|
  {
    if es == [] {
      assert IdsOf(heap, es) == {};
    } else {
      IdsFirst(heap, es);
      IdsCount(heap, es[1..]);
    }
  }

  lemma IdsFirst(heap: map<Addr, Timer>, es: seq<Entry>)
    requires es != [] && Distinct(es) && forall e <- es :: e.addr in heap
    ensures var id := Id(es[0].addr, heap[es[0].addr].sequence);
            id !in IdsOf(heap, es[1..]) && IdsOf(heap, es) == {id} + IdsOf(heap, es[1..])
  {
    var id := Id(es[0].addr, heap[es[0].addr].sequence);
    forall e | e in es[1..] ensures e in es && e.addr != es[0].addr {
      var j :| 0 <= j < |es| - 1 && es[1..][j] == e;
      assert es[j + 1] == e;
    }
    forall x | x in IdsOf(heap, es) ensures x == id || x in IdsOf(heap, es[1..]) {
      var e :| e in es && x == Id(e.addr, heap[e.addr].sequence);
      assert e == es[0] || e in es[1..];
    }
  }

  // ---------------------------------------------------------------- cancellation

  /** Its callback is still ahead in the batch being run. */
  predicate StillToRun(q: Queue, n: nat) {
    && q.phase.Calling?
    && exists i :: && q.phase.next <= i < |q.expired|
                   && q.expired[i].addr in q.heap
                   && q.heap[q.expired[i].addr].sequence == n
  }

  function Runs(q: Queue, n: nat): nat {
    multiset(q.ran)[n]
  }

  lemma CancelledExpire(q: Queue, now: Time, n: nat)
    requires SetsAgree(q) && CancelOk(q) && Enabled(q, Expire(now)) && n in q.cancelled
    ensures !StillToRun(Apply(q, Expire(now)), n)
  {
    ExpireIs(q, now);
    var q' := Apply(q, Expire(now));
    forall e | e in q'.expired ensures e.addr in q.heap && q.heap[e.addr].sequence != n {
      assert e in q.timers;
      assert Queued(q, e.addr);
    }
  }

  /** A step that leaves the timers of the batch where they are. */
  lemma BatchKept(q: Queue, q': Queue, n: nat)
    requires OwnedOnce(q) && q'.phase == q.phase && q'.expired == q.expired
    requires forall a <- q.heap :: InBatch(q, a) ==> a in q'.heap && q'.heap[a].sequence == q.heap[a].sequence
    ensures StillToRun(q', n) == StillToRun(q, n)
  {
    if q.phase.Calling? {
      forall i | q.phase.next <= i < |q.expired|
        ensures var a := q.expired[i].addr; a in q.heap && a in q'.heap && q'.heap[a].sequence == q.heap[a].sequence
      {
        assert q.expired[i] in Batch(q) && InBatch(q, q.expired[i].addr);
      }
    }
  }

  /** Runs so far, and the one still to come. */
  ghost function RunsToCome(q: Queue, n: nat): nat {
    Runs(q, n) + if StillToRun(q, n) then 1 else 0
  }

  /** The timers of the batch are live, and known by address. */
  lemma CancelKeepsBatch(q: Queue, id: Id, n: nat)
    requires Inv(q) && Enabled(q, CancelInLoop(id))
    ensures RunsToCome(Apply(q, CancelInLoop(id)), n) == RunsToCome(q, n)
  {
    assert id in q.active ==> Queued(q, id.addr) && !InBatch(q, id.addr);
    BatchKept(q, Apply(q, CancelInLoop(id)), n);
  }

  /** Outside the callbacks none is ahead. */
  lemma NothingAhead(q: Queue, q': Queue, n: nat)
    requires q'.ran == q.ran && !q'.phase.Calling?
    ensures RunsToCome(q', n) <= RunsToCome(q, n)
  {
  }

  lemma CancelledStays(q: Queue, step: Step, n: nat)
    requires Enabled(q, step) && n in q.cancelled
    ensures n in Apply(q, step).cancelled
  {
  }

  lemma CancelledRuns(q: Queue, step: Step, n: nat)
    requires Inv(q) && Enabled(q, step) && n in q.cancelled
    ensures RunsToCome(Apply(q, step), n) <= RunsToCome(q, n)
  {
    var q' := Apply(q, step);
    match step {
      case Expire(now) => CancelledExpire(q, now, n);
      case RunNext => CancelledRunNext(q, n);
      case ResetNext => NothingAhead(q, q', n);
      case EndCalling => NothingAhead(q, q', n);
      case ResetDone => NothingAhead(q, q', n);
      case New(_, _, _) => BatchKept(q, q', n);
      case AddInLoop(a) => AddKeepsBatch(q, a, n);
      case CancelInLoop(id) => CancelKeepsBatch(q, id, n);
    }
  }

  lemma AddKeepsBatch(q: Queue, a: Addr, n: nat)
    requires Inv(q) && Enabled(q, AddInLoop(a))
    ensures RunsToCome(Apply(q, AddInLoop(a)), n) == RunsToCome(q, n)
  {
    BatchKept(q, Apply(q, AddInLoop(a)), n);
  }

  lemma CancelledStep(q: Queue, step: Step, n: nat)
    requires Inv(q) && Enabled(q, step) && n in q.cancelled
    ensures n in Apply(q, step).cancelled && RunsToCome(Apply(q, step), n) <= RunsToCome(q, n)
  {
    CancelledStays(q, step, n);
    CancelledRuns(q, step, n);
  }

  lemma CancelledRunNext(q: Queue, n: nat)
    requires Inv(q) && Enabled(q, RunNext)
    ensures RunsToCome(Apply(q, RunNext), n) <= RunsToCome(q, n)
  {
    RunNextKeepsInv(q);
    var q' := Apply(q, RunNext);
    var i := q.phase.next;
    var m := q.heap[q.expired[i].addr].sequence;
    assert q'.ran == q.ran + [m];
    if m == n {
      forall j | i < j < |q.expired| && q.expired[j].addr in q.heap
        ensures q.heap[q.expired[j].addr].sequence != n
      {
        assert Batch(q)[i].addr != Batch(q)[j].addr;
        assert q.ids[n] == q.expired[i].addr;
      }
    }
  }

  lemma {:induction false} CancelledRun(q: Queue, steps: seq<Step>, n: nat)
    requires Inv(q) && IsRun(q, steps) && n in q.cancelled
    ensures Runs(After(q, steps), n) <= RunsToCome(q, n)
    decreases steps
  {
    if steps != [] {
      CancelledStep(q, steps[0], n);
      StepKeepsInv(q, steps[0]);
      CancelledRun(Apply(q, steps[0]), steps[1..], n);
    }
  }

  /** Once cancelInLoop has run for a timer that had been added, by anyone, its own callback
      included, the timer runs in no later batch. In the batch under way it runs only if its
      turn was still to come, and then once. */
  lemma CancelIsFinal(before: seq<Step>, q: Queue, id: Id, steps: seq<Step>)
    requires IsRun(EMPTY, before) && q == After(EMPTY, before)
    requires Enabled(q, CancelInLoop(id)) && id.sequence in q.inserted
    requires IsRun(Apply(q, CancelInLoop(id)), steps)
    ensures var last := After(Apply(q, CancelInLoop(id)), steps);
            Runs(last, id.sequence) <= Runs(q, id.sequence) + if StillToRun(q, id.sequence) then 1 else 0
  {
    RunKeepsInv(EMPTY, before);
    StepKeepsInv(q, CancelInLoop(id));
    CancelKeepsBatch(q, id, id.sequence);
    assert id.sequence in CancelFn(q, id).cancelled;
    CancelledRun(CancelFn(q, id), steps, id.sequence);
  }

  /** No timer with another sequence number is touched, even one that now lives at the
      address the id holds: not by the call, and not by the reset that follows it. */
  lemma CancelIsolated(q: Queue, id: Id, a: Addr)
    requires Inv(q) && Enabled(q, CancelInLoop(id)) && a in q.heap && q.heap[a].sequence != id.sequence
    ensures var q' := Apply(q, CancelInLoop(id));
            && a in q'.heap && q'.heap[a] == q.heap[a]
            && Queued(q', a) == Queued(q, a)
            && (Id(a, q.heap[a].sequence) in q'.active <==> Id(a, q.heap[a].sequence) in q.active)
            && (Id(a, q.heap[a].sequence) in q'.canceling <==> Id(a, q.heap[a].sequence) in q.canceling)
  {
    if id in q.active {
      EraseSorted(q.timers, Entry(q.heap[id.addr].expiration, id.addr));
    }
  }

  // ---------------------------------------------------------------- expiry and re-arming

  /** handleRead takes exactly the timers due at `now`, in order of expiration. */
  lemma ExpiresExactlyTheDue(q: Queue, now: Time)
    requires Inv(q) && Enabled(q, Expire(now))
    ensures var q' := Apply(q, Expire(now));
            && q'.expired + q'.timers == q.timers && Sorted(q'.expired)
            && (forall i :: 0 <= i < |q'.expired| ==> q'.expired[i].when <= now)
            && (forall i :: 0 <= i < |q'.timers| ==> q'.timers[i].when > now)
  {
    ExpireKeepsInv(q, now);
    DueSides(q.timers, now);
  }

  lemma DueSides(ts: seq<Entry>, now: Time)
    requires Sorted(ts)
    ensures var n := Due(ts, now);
            && Sorted(ts[..n]) && ts[..n] + ts[n..] == ts
            && (forall i :: 0 <= i < |ts[..n]| ==> ts[..n][i].when <= now)
            && (forall i :: 0 <= i < |ts[n..]| ==> ts[n..][i].when > now)
  {
    var n := Due(ts, now);
    PrefixSorted(ts, n);
    AllLater(ts, n, now);
  }

  lemma PrefixSorted(ts: seq<Entry>, n: nat)
    requires Sorted(ts) && n <= |ts|
    ensures Sorted(ts[..n]) && ts[..n] + ts[n..] == ts
  {
  }

  function Numbers(heap: map<Addr, Timer>, es: seq<Entry>): seq<nat>
    requires forall e <- es :: e.addr in heap
  {
    seq(|es|, i requires 0 <= i < |es| => heap[es[i].addr].sequence)
  }

  /** While a batch is being run, whatever its callbacks add, cancel or create: the callbacks
      that run are those of the batch, each once, in order. */
  lemma {:induction false} BatchRunsInOrder(q: Queue, steps: seq<Step>)
    requires Inv(q) && q.phase.Calling? && IsRun(q, steps)
    requires forall step <- steps :: !step.Expire? && !step.EndCalling?
    ensures forall e <- q.expired :: e.addr in q.heap
    ensures var q' := After(q, steps);
            && q'.phase.Calling? && q.phase.next <= q'.phase.next <= |q.expired| && q'.expired == q.expired
            && q'.ran == q.ran + Numbers(q.heap, q.expired[q.phase.next..q'.phase.next])
    decreases steps
  {
    if steps == [] {
      assert forall e <- q.expired :: e in Batch(q);
      assert q.expired[q.phase.next..q.phase.next] == [];
    } else {
      assert steps[0] in steps;
      assert forall step <- steps[1..] :: step in steps;
      var q1 := Apply(q, steps[0]);
      BatchStep(q, steps[0]);
      StepKeepsInv(q, steps[0]);
      BatchRunsInOrder(q1, steps[1..]);
      var q' := After(q1, steps[1..]);
      var i, j, k := q.phase.next, q1.phase.next, q'.phase.next;
      NumbersSplit(q.heap, q1.heap, q.expired, i, j, k);
      Regroup(q.ran, Numbers(q.heap, q.expired[i..j]), Numbers(q1.heap, q.expired[j..k]));
    }
  }

  lemma Regroup(a: seq<nat>, b: seq<nat>, c: seq<nat>)
    ensures (a + b) + c == a + (b + c)
  {
  }

  lemma NumbersSplit(heap: map<Addr, Timer>, heap': map<Addr, Timer>, es: seq<Entry>, i: nat, j: nat, k: nat)
    requires i <= j <= k <= |es|
    requires forall e <- es :: e.addr in heap && e.addr in heap' && heap'[e.addr].sequence == heap[e.addr].sequence
    ensures Numbers(heap, es[i..k]) == Numbers(heap, es[i..j]) + Numbers(heap', es[j..k])
  {
  }

  lemma RunNextIs(q: Queue)
    requires OwnedOnce(q) && q.phase.Calling? && q.phase.next < |q.expired|
    ensures forall e <- q.expired :: e.addr in q.heap
    ensures RunNextFn(q) == q.(ran := q.ran + [q.heap[q.expired[q.phase.next].addr].sequence],
                               phase := Calling(q.phase.now, q.phase.next + 1))
  {
    assert forall e <- q.expired :: e in Batch(q);
  }

  /** Nothing but its own run moves a batch on. */
  lemma BatchWaits(q: Queue, step: Step)
    requires Inv(q) && q.phase.Calling? && Enabled(q, step)
    requires step.New? || step.AddInLoop? || step.CancelInLoop?
    ensures var q' := Apply(q, step);
            && q'.phase == q.phase && q'.expired == q.expired && q'.ran == q.ran
            && forall e <- q.expired :: e.addr in q.heap && e.addr in q'.heap
                                        && q'.heap[e.addr].sequence == q.heap[e.addr].sequence
  {
    forall e | e in q.expired ensures InBatch(q, e.addr) && !Queued(q, e.addr) {
      assert e in Batch(q);
    }
  }

  lemma BatchStep(q: Queue, step: Step)
    requires Inv(q) && q.phase.Calling? && Enabled(q, step) && !step.Expire? && !step.EndCalling?
    ensures forall e <- q.expired :: e.addr in q.heap
    ensures var q' := Apply(q, step);
            && q'.phase.Calling? && q.phase.next <= q'.phase.next <= |q.expired| && q'.expired == q.expired
            && (forall e <- q.expired :: e.addr in q'.heap && q'.heap[e.addr].sequence == q.heap[e.addr].sequence)
            && q'.ran == q.ran + Numbers(q.heap, q.expired[q.phase.next..q'.phase.next])
  {
    if step.RunNext? {
      RunNextIs(q);
      assert q.expired[q.phase.next..q.phase.next + 1] == [q.expired[q.phase.next]];
    } else {
      BatchWaits(q, step);
      assert q.phase.next <= |q.expired| && q.expired[q.phase.next..q.phase.next] == [];
    }
  }

  predicate ArmedInTime(q: Queue) {
    q.timers != [] ==> q.armed.Some? && q.armed.value <= q.timers[0].when
  }

  /** insert() compares the wrong way round. Adding a timer leaves the timerfd set no later
      than the earliest timer exactly when there was none, or the new one expires no later than
      the earliest and the timerfd was already set no later than that. */
  lemma AddArmsInTime(q: Queue, a: Addr)
    requires Inv(q) && Enabled(q, AddInLoop(a))
    ensures ArmedInTime(Apply(q, AddInLoop(a)))
            <==> q.timers == []
                 || (q.heap[a].expiration <= q.timers[0].when
                     && q.armed.Some? && q.armed.value <= q.heap[a].expiration)
    ensures Apply(q, AddInLoop(a)).armed
            == if q.timers != [] && q.heap[a].expiration <= q.timers[0].when then q.armed
               else Some(q.heap[a].expiration)
  {
    AddKeepsInv(q, a);
    var q' := Apply(q, AddInLoop(a));
    var e := Entry(q.heap[a].expiration, a);
    assert forall x <- q.timers :: Queued(q, x.addr);
    assert e !in q.timers;
    assert q'.timers == InsertSorted(q.timers, e);
  }

  /** How it is late: a timer at 10, then one at 5. */
  lemma SecondTimerLate()
    ensures var q1 := Apply(EMPTY, New(0, 10, 0));
            var q2 := Apply(q1, AddInLoop(0));
            var q3 := Apply(q2, New(1, 5, 0));
            Enabled(q3, AddInLoop(1))
            && var q4 := Apply(q3, AddInLoop(1));
               q4.timers == [Entry(5, 1), Entry(10, 0)] && q4.armed == Some(10) && !ArmedInTime(q4)
  {
    assert InsertSorted([], Entry(10, 0)) == [Entry(10, 0)];
    assert InsertSorted([Entry(10, 0)], Entry(5, 1)) == [Entry(5, 1), Entry(10, 0)];
  }

  // ---------------------------------------------------------------- no timer is forgotten

  /** An idle queue with timers in it will be woken. */
  predicate WillWake(q: Queue) {
    q.phase.Idle? && q.timers != [] ==> q.armed.Some?
  }

  /** Timers are created for a time after the epoch, and the clock is past it. */
  predicate AfterEpoch(step: Step) {
    (step.New? ==> step.when > 0) && (step.Expire? ==> step.now > 0)
  }

  ghost predicate EpochInv(q: Queue) {
    (forall a <- q.heap :: q.heap[a].expiration > 0) && (q.phase.Idle? || q.phase.now > 0)
  }

  /** An addition to an empty queue always sets the timerfd. */
  lemma AddArms(q: Queue, a: Addr)
    requires Enabled(q, AddInLoop(a)) && a in q.heap && (q.timers == [] || q.armed.Some?)
    ensures Apply(q, AddInLoop(a)).armed.Some?
  {
  }

  /** Timers are forgotten at one place only: by a reset() whose earliest timer does not lie
      after the epoch, when nothing had set the timerfd since it fired. */
  lemma ForgetsExactly(q: Queue, step: Step)
    requires WillWake(q) && Enabled(q, step)
    ensures !WillWake(Apply(q, step))
            <==> step.ResetDone? && q.timers != [] && q.timers[0].when <= 0 && q.armed.None?
  {
    match step {
      case ResetDone =>
      case AddInLoop(a) => if a in q.heap && q.phase.Idle? { AddArms(q, a); }
      case _ =>
    }
  }

  lemma StepKeepsEpoch(q: Queue, step: Step)
    requires EpochInv(q) && Enabled(q, step) && AfterEpoch(step)
    ensures EpochInv(Apply(q, step))
  {
  }

  lemma {:induction false} EpochRun(q: Queue, steps: seq<Step>)
    requires Inv(q) && WillWake(q) && EpochInv(q) && IsRun(q, steps) && forall step <- steps :: AfterEpoch(step)
    ensures Inv(After(q, steps)) && WillWake(After(q, steps)) && EpochInv(After(q, steps))
    decreases steps
  {
    if steps != [] {
      assert steps[0] in steps && forall step <- steps[1..] :: step in steps;
      StepKeepsInv(q, steps[0]);
      StepKeepsEpoch(q, steps[0]);
      ForgetsExactly(q, steps[0]);
      assert q.timers != [] ==> q.timers[0] in q.timers;
      EpochRun(Apply(q, steps[0]), steps[1..]);
    }
  }

  /** In every run past the epoch the timerfd is set whenever the queue is idle and holds a
      timer: however late it fires, no timer is forgotten. */
  lemma NoTimerForgotten(steps: seq<Step>)
    requires IsRun(EMPTY, steps) && forall step <- steps :: AfterEpoch(step)
    ensures var q := After(EMPTY, steps); q.phase.Idle? && q.timers != [] ==> q.armed.Some?
  {
    EpochRun(EMPTY, steps);
  }

  /** And after every reset() it is set to the earliest of all queued timers. */
  lemma ResetArms(steps: seq<Step>, q: Queue)
    requires IsRun(EMPTY, steps) && q == After(EMPTY, steps) && forall step <- steps :: AfterEpoch(step)
    requires Enabled(q, ResetDone)
    ensures var q' := Apply(q, ResetDone);
            q'.timers != [] ==>
              q'.armed.Some? && (exists e <- q'.timers :: e.when == q'.armed.value)
              && forall a <- q'.heap :: Queued(q', a) ==> q'.armed.value <= q'.heap[a].expiration
  {
    EpochRun(EMPTY, steps);
    if q.timers != [] {
      assert q.timers[0] in q.timers && Queued(q, q.timers[0].addr);
      FirstIsEarliest(q.timers);
    }
  }

  lemma FirstIsEarliest(timers: seq<Entry>)
    requires Sorted(timers) && timers != []
    ensures forall e <- timers :: timers[0].when <= e.when
  {
    forall e | e in timers ensures timers[0].when <= e.when {
      var i :| 0 <= i < |timers| && timers[i] == e;
      assert i == 0 || Less(timers[0], timers[i]);
    }
  }

  lemma {:induction false} Extend(q: Queue, steps: seq<Step>, step: Step)
    requires IsRun(q, steps) && Enabled(After(q, steps), step)
    ensures IsRun(q, steps + [step]) && After(q, steps + [step]) == Apply(After(q, steps), step)
    decreases steps
  {
    if steps == [] {
      assert ([] + [step])[1..] == [];
    } else {
      assert (steps + [step])[1..] == steps[1..] + [step];
      Extend(Apply(q, steps[0]), steps[1..], step);
    }
  }

  /** Two timers, at 10 and at 100. */
  lemma TwoTimers() returns (steps: seq<Step>)
    ensures IsRun(EMPTY, steps)
    ensures var q := After(EMPTY, steps);
            && q.phase == Idle && q.armed.Some?
            && q.timers == [Entry(10, 0), Entry(100, 1)] && q.active == {Id(0, 1), Id(1, 2)}
            && q.heap == map[0 := Timer(10, 0, 1), 1 := Timer(100, 0, 2)] && q.deleted == {}
  {
    steps := [New(0, 10, 0)];
    assert steps[1..] == [];
    Extend(EMPTY, steps, AddInLoop(0));
    steps := steps + [AddInLoop(0)];
    Extend(EMPTY, steps, New(1, 100, 0));
    steps := steps + [New(1, 100, 0)];
    Extend(EMPTY, steps, AddInLoop(1));
    steps := steps + [AddInLoop(1)];
  }

  /** The first comes due and its callback is about to run. */
  lemma TwoTimersOneDue() returns (steps: seq<Step>)
    ensures IsRun(EMPTY, steps)
    ensures var q := After(EMPTY, steps);
            && q.phase == Calling(20, 0) && q.expired == [Entry(10, 0)] && q.timers == [Entry(100, 1)]
            && q.heap == map[0 := Timer(10, 0, 1), 1 := Timer(100, 0, 2)] && q.armed == None && q.canceling == {}
            && q.active == {Id(1, 2)} && q.deleted == {}
  {
    steps := TwoTimers();
    var q := After(EMPTY, steps);
    assert q.timers[1..] == [Entry(100, 1)] && Due(q.timers, 20) == 1;
    assert q.timers[..1] == [Entry(10, 0)] && IdsOf(q.heap, [Entry(10, 0)]) == {Id(0, 1)};
    Extend(EMPTY, steps, Expire(20));
    steps := steps + [Expire(20)];
  }

  /** Before the epoch it can happen: that callback adds a timer for a time before it. */
  lemma EarlyTimerAdded() returns (steps: seq<Step>)
    ensures IsRun(EMPTY, steps)
    ensures var q := After(EMPTY, steps);
            && q.phase == Resetting(20, 0) && q.expired == [Entry(10, 0)] && q.armed == None && q.deleted == {}
            && q.timers == [Entry(-5, 2), Entry(100, 1)] && 0 in q.heap && q.heap[0] == Timer(10, 0, 1)
  {
    steps := TwoTimersOneDue();
    Extend(EMPTY, steps, New(2, -5, 0));
    steps := steps + [New(2, -5, 0)];
    Extend(EMPTY, steps, AddInLoop(2));
    steps := steps + [AddInLoop(2)];
    Extend(EMPTY, steps, RunNext);
    steps := steps + [RunNext];
    Extend(EMPTY, steps, EndCalling);
    steps := steps + [EndCalling];
  }

  /** Then nothing will wake the queue, also for the timer that waits behind. */
  lemma EarlyTimerForgets() returns (steps: seq<Step>)
    ensures IsRun(EMPTY, steps) && !WillWake(After(EMPTY, steps))
  {
    steps := EarlyTimerAdded();
    Extend(EMPTY, steps, ResetNext);
    steps := steps + [ResetNext];
    Extend(EMPTY, steps, ResetDone);
    steps := steps + [ResetDone];
  }

  // ---------------------------------------------------------------- the object

  /** What one turn of reset() relies on: its timer is alive and in neither set. */
  predicate ResetReady(q: Queue)
    requires q.phase.Resetting? && q.phase.next < |q.expired|
  {
    var a := q.expired[q.phase.next].addr;
    && a in q.heap && q.heap[a].sequence !in q.deleted
    && (forall e <- q.timers :: e.addr != a) && (forall id <- q.active :: id.addr != a)
  }

  lemma InvResetReady(q: Queue)
    requires Inv(q) && Enabled(q, ResetNext)
    ensures ResetReady(q)
  {
    assert q.expired[q.phase.next] == Batch(q)[0] && Batch(q)[0] in Batch(q);
    assert InBatch(q, q.expired[q.phase.next].addr);
    assert forall e <- q.timers :: Queued(q, e.addr);
  }

  /** Every turn still to come finds its timer ready. */
  predicate ResetSafe(q: Queue)
    requires q.phase.Resetting? && q.phase.next <= |q.expired|
    decreases |q.expired| - q.phase.next
  {
    q.phase.next == |q.expired| || (ResetReady(q) && ResetSafe(ResetNextFn(q)))
  }

  lemma {:induction false} InvResetSafe(q: Queue)
    requires Inv(q) && q.phase.Resetting?
    ensures q.phase.next <= |q.expired| && ResetSafe(q)
    decreases |q.expired| - q.phase.next
  {
    if q.phase.next < |q.expired| {
      InvResetReady(q);
      StepKeepsInv(q, ResetNext);
      InvResetSafe(ResetNextFn(q));
    }
  }

  /** In every reachable state reset() may be entered. */
  lemma InvEndSafe(q: Queue)
    requires Inv(q) && Enabled(q, EndCalling)
    ensures ResetSafe(Apply(q, EndCalling))
  {
    StepKeepsInv(q, EndCalling);
    InvResetSafe(Apply(q, EndCalling));
  }

  /** All turns of the loop in reset(). */
  function ResetRest(q: Queue): Queue
    requires q.phase.Resetting? && q.phase.next <= |q.expired|
    decreases |q.expired| - q.phase.next
  {
    if q.phase.next == |q.expired| then q
    else
      var q1 := ResetNextFn(q);
      ResetRest(q1)
  }

  lemma ResetTurn(q: Queue)
    requires q.phase.Resetting? && q.phase.next < |q.expired| && ResetSafe(q)
    ensures ResetReady(q)
    ensures var q' := ResetNextFn(q);
            q'.phase == Resetting(q.phase.now, q.phase.next + 1) && q'.expired == q.expired && ResetSafe(q')
            && ResetRest(q') == ResetRest(q)
  {
  }

  /** The queue's own fields. User callbacks are the calls made between `RunCallback`s. */
  class TimerQueue {
    var heap: map<Addr, Timer>
    var timers: seq<Entry>
    var active: set<Id>
    var canceling: set<Id>
    var callingExpired: bool
    var armed: Option<Time>
    var expired: seq<Entry>
    ghost var phase: Phase
    ghost var posted: set<Addr>
    ghost var created: nat
    ghost var ids: map<nat, Addr>
    ghost var inserted: set<nat>
    ghost var cancelled: set<nat>
    ghost var deleted: set<nat>
    ghost var ran: seq<nat>

    ghost function Value(): Queue
      reads this
    {
      Queue(heap, posted, timers, active, canceling, phase, expired, armed, false, created,
            ids, inserted, cancelled, deleted, ran)
    }

    /** The flag the source keeps is the phase. The other precondition of the methods is that
        the source's assertions hold; in every reachable state they do (StepKeepsInv). */
    ghost predicate Consistent()
      reads this
    {
      callingExpired == phase.Calling?
    }

    constructor ()
      ensures Consistent() && Value() == EMPTY
    {
      heap, timers, active, canceling, callingExpired, armed, expired := map[], [], {}, {}, false, None, [];
      phase, posted, created, ids, inserted, cancelled, deleted, ran := Idle, {}, 0, map[], {}, {}, {}, [];
    }

    /** timers_.insert: where the entry goes in the order of the set. */
    static method Place(ts: seq<Entry>, e: Entry) returns (r: seq<Entry>)
      ensures r == InsertSorted(ts, e)
    {
      var i := 0;
      while i < |ts| && Less(ts[i], e)
        invariant i <= |ts|
        invariant InsertSorted(ts, e) == ts[..i] + InsertSorted(ts[i..], e)
      {
        InsertStep(ts, e, i);
        i := i + 1;
      }
      assert InsertSorted(ts[i..], e) == [e] + ts[i..];
      r := ts[..i] + ([e] + ts[i..]);
    }

    /** timers_.erase by key. */
    static method Without(ts: seq<Entry>, e: Entry) returns (r: seq<Entry>)
      ensures r == Erase(ts, e)
    {
      var i := 0;
      while i < |ts| && ts[i] != e
        invariant i <= |ts|
        invariant Erase(ts, e) == ts[..i] + Erase(ts[i..], e)
      {
        EraseStep(ts, e, i);
        i := i + 1;
      }
      if i < |ts| {
        assert ts[i..][1..] == ts[i + 1..];
        r := ts[..i] + ts[i + 1..];
      } else {
        assert ts[i..] == [];
        r := ts;
      }
    }

    method Insert(a: Addr) returns (earliestChanged: bool)
      requires a in heap
      requires Entry(heap[a].expiration, a) !in timers && Id(a, heap[a].sequence) !in active
      modifies this`timers, this`active
      ensures Value() == InsertFn(old(Value()), a)
      ensures earliestChanged == EarliestChanged(old(Value()), heap[a].expiration)
    {
      var when := heap[a].expiration;
      earliestChanged := |timers| == 0 || when > timers[0].when;
      timers := Place(timers, Entry(when, a));
      active := active + {Id(a, heap[a].sequence)};
    }

    method AddTimerInLoop(a: Addr)
      requires Consistent() && !AddInLoopFn(Value(), a).aborted
      modifies this`timers, this`active, this`armed, this`posted, this`inserted
      ensures Value() == AddInLoopFn(old(Value()), a) && Consistent()
    {
      var earliestChanged := Insert(a);
      if earliestChanged {
        armed := Some(heap[a].expiration);
      }
      posted := posted - {a};
      inserted := inserted + {heap[a].sequence};
    }

    method CancelTimerInLoop(id: Id)
      requires Consistent() && !CancelFn(Value(), id).aborted
      modifies this`heap, this`timers, this`active, this`canceling, this`cancelled, this`deleted
      ensures Value() == CancelFn(old(Value()), id) && Consistent()
    {
      if id.sequence in inserted {
        cancelled := cancelled + {id.sequence};
      }
      if id in active {
        timers := Without(timers, Entry(heap[id.addr].expiration, id.addr));
        deleted := deleted + {heap[id.addr].sequence};
        heap := heap - {id.addr};
        active := active - {id};
      } else if callingExpired {
        canceling := canceling + {id};
      }
    }

    /** lower_bound for (now, UINTPTR_MAX). */
    static method FindDue(ts: seq<Entry>, now: Time) returns (end: nat)
      ensures end == Due(ts, now)
    {
      end := 0;
      while end < |ts| && ts[end].when <= now
        invariant end <= |ts|
        invariant Due(ts, now) == end + Due(ts[end..], now)
      {
        assert ts[end..][1..] == ts[end + 1..];
        end := end + 1;
      }
    }

    /** The part of getExpired that takes the expired timers off activeTimers_. */
    method Deactivate()
      requires forall e <- expired :: e.addr in heap
      modifies this`active
      ensures active == old(active) - IdsOf(heap, expired)
    {
      var i := 0;
      while i < |expired|
        invariant i <= |expired|
        invariant active == old(active) - IdsOf(heap, expired[..i])
      {
        var e := expired[i];
        assert e in expired;
        assert expired[..i + 1] == expired[..i] + [e];
        assert IdsOf(heap, expired[..i + 1]) == IdsOf(heap, expired[..i]) + {Id(e.addr, heap[e.addr].sequence)};
        active := active - {Id(e.addr, heap[e.addr].sequence)};
        i := i + 1;
      }
      assert expired[..i] == expired;
    }

    /** getExpired. */
    method GetExpired(now: Time)
      requires forall e <- timers[..Due(timers, now)] :: e.addr in heap
      modifies this`expired, this`timers, this`active
      ensures var q, n := old(Value()), Due(old(timers), now);
              Value() == q.(expired := q.timers[..n], timers := q.timers[n..],
                            active := q.active - IdsOf(q.heap, q.timers[..n]))
    {
      var end := FindDue(timers, now);
      expired := timers[..end];
      timers := timers[end..];
      Deactivate();
    }

    /** handleRead up to its first callback: the timerfd is read, then getExpired and the
        flags. */
    method BeginRead(now: Time)
      requires phase.Idle? && !ExpireFn(Value(), now).aborted
      modifies this`expired, this`timers, this`active, this`armed, this`callingExpired, this`canceling, this`phase
      ensures Value() == ExpireFn(old(Value()), now) && Consistent()
    {
      armed := None;
      GetExpired(now);
      callingExpired, canceling, phase := true, {}, Calling(now, 0);
    }

    method RunCallback()
      requires Consistent() && phase.Calling? && phase.next < |expired| && !RunNextFn(Value()).aborted
      modifies this`phase, this`ran
      ensures Value() == RunNextFn(old(Value())) && Consistent()
      ensures |ran| == |old(ran)| + 1
    {
      ran := ran + [heap[expired[phase.next].addr].sequence];
      phase := Calling(phase.now, phase.next + 1);
    }

    /** reset() after its loop: the timerfd is set to the earliest timer. */
    method Rearm()
      modifies this`armed, this`expired, this`phase
      ensures Value() == ResetDoneFn(old(Value())) && phase == Idle
    {
      if |timers| != 0 {
        var nextExpire := timers[0].when;
        if nextExpire > 0 {
          armed := Some(nextExpire);
        }
      }
      expired, phase := [], Idle;
    }

    /** handleRead after its last callback, with reset(), whose turns are safe in every reachable
        state (InvEndSafe). */
    method EndRead(now: Time)
      requires phase.Calling? && phase.next == |expired| && phase.now == now
      requires ResetSafe(Value().(phase := Resetting(now, 0)))
      modifies this
      ensures Value() == ResetDoneFn(ResetRest(old(Value()).(phase := Resetting(now, 0)))) && Consistent()
    {
      callingExpired, phase := false, Resetting(now, 0);
      ResetEach(now);
      Rearm();
    }

    method ResetEach(now: Time)
      requires phase == Resetting(now, 0) && ResetSafe(Value())
      modifies this`heap, this`timers, this`active, this`deleted, this`phase
      ensures Value() == ResetRest(old(Value()))
    {
      ghost var q := Value();
      var i := 0;
      while i < |expired|
        invariant i <= |expired| && phase == Resetting(now, i)
        invariant q == Value() && ResetSafe(q)
        invariant ResetRest(q) == ResetRest(old(Value()))
        decreases |expired| - i
      {
        ResetTurn(q);
        ResetOne(now, i);
        q := ResetNextFn(q);
        i := i + 1;
      }
    }

    method ResetOne(now: Time, i: nat)
      requires phase == Resetting(now, i) && i < |expired| && ResetReady(Value())
      modifies this`heap, this`timers, this`active, this`deleted, this`phase
      ensures Value() == ResetNextFn(old(Value()))
    {
      var a := expired[i].addr;
      var id := Id(a, heap[a].sequence);
      phase := Resetting(now, i + 1);
      if heap[a].Repeat() && id !in canceling {
        heap := heap[a := heap[a].(expiration := now + heap[a].interval)];
        var _ := Insert(a);
      } else {
        deleted := deleted + {heap[a].sequence};
        heap := heap - {a};
      }
    }
  }
}
