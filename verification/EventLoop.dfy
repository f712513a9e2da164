/** networker/net/EventLoop.cpp: the loop, its functor queue and its wake-up descriptor.

    `Loop` is what the threads share. A thread that queues a functor takes two steps, the
    push under the lock and the write to the eventfd; the loop's own thread takes one step
    per line of `loop` and `doPendingFunctors`. All interleavings are covered: a run is any
    sequence of enabled steps. */
module EventLoops {
  import opened Options

  type Functor = nat
  type Thread = nat

  /** The largest count an eventfd holds; a write that would pass it fails, and the count
      stays. */
  const EVENTFD_MAX: nat := 0xffff_ffff_ffff_fffe

  datatype Event = WakeupReadable | OtherEvent

  datatype Pc =
    | NotStarted                        // before loop()
    | AtCheck                           // while (!quit_)
    | AtPoll                            // in poller_->poll
    | Handling(events: seq<Event>)      // the active channels still to handle
    | AboutToSwap                       // callingPendingFunctors_ set, lock not yet taken
    | Running                           // running the batch
    | Exited

  datatype Loop = Loop(
    pc: Pc,
    eventfd: nat,
    pending: seq<Functor>,
    batch: seq<Functor>,        // the part of the swapped-out vector not yet run
    calling: bool,              // callingPendingFunctors_
    quit: bool,
    owing: set<Thread>,         // other threads between push (or quit_ = true) and wakeup()
    loopOwes: bool,             // the loop's own thread between push and wakeup()
    posts: seq<Functor>,        // every push, in lock order
    executed: seq<Functor>)

  datatype Step =
    | Push(t: Thread, f: Functor)
    | AskQuit(t: Thread)
    | Wake(t: Thread)
    | OwnPush(f: Functor)
    | OwnWake
    | OwnQuit
    | Enter
    | CheckQuit
    | PollReturns(events: seq<Event>)
    | HandleNext
    | SetCalling
    | Swap
    | RunNext
    | EndBatch

  /** The loop's thread runs user code: before loop(), in a callback, or in a functor. */
  predicate InUserCode(s: Loop) {
    s.pc == NotStarted || s.pc.Handling? || s.pc == Running
  }

  predicate Enabled(s: Loop, step: Step) {
    match step
    case Push(t, _) => t !in s.owing
    case AskQuit(t) => t !in s.owing
    case Wake(t) => t in s.owing
    case OwnPush(_) => InUserCode(s) && !s.loopOwes
    case OwnWake => s.loopOwes
    case OwnQuit => InUserCode(s) && !s.loopOwes
    case Enter => s.pc == NotStarted && !s.loopOwes
    case CheckQuit => s.pc == AtCheck
    case PollReturns(events) => s.pc == AtPoll && (WakeupReadable in events ==> s.eventfd > 0)
    case HandleNext => s.pc.Handling? && s.pc.events != [] && !s.loopOwes
    case SetCalling => s.pc == Handling([]) && !s.loopOwes
    case Swap => s.pc == AboutToSwap
    case RunNext => s.pc == Running && s.batch != [] && !s.loopOwes
    case EndBatch => s.pc == Running && s.batch == [] && !s.loopOwes
  }

  function Bump(count: nat): nat {
    if count + 1 <= EVENTFD_MAX then count + 1 else count
  }

  function Apply(s: Loop, step: Step): Loop
    requires Enabled(s, step)
  {
    match step
    case Push(t, f) => s.(pending := s.pending + [f], posts := s.posts + [f], owing := s.owing + {t})
    case AskQuit(t) => s.(quit := true, owing := s.owing + {t})
    case Wake(t) => s.(eventfd := Bump(s.eventfd), owing := s.owing - {t})
    case OwnPush(f) => s.(pending := s.pending + [f], posts := s.posts + [f], loopOwes := s.calling)
    case OwnWake => s.(eventfd := Bump(s.eventfd), loopOwes := false)
    case OwnQuit => s.(quit := true)
    case Enter => s.(pc := AtCheck, quit := false)
    case CheckQuit => s.(pc := if s.quit then Exited else AtPoll)
    case PollReturns(events) => s.(pc := Handling(events))
    case HandleNext =>
      s.(pc := Handling(s.pc.events[1..]),
         eventfd := if s.pc.events[0] == WakeupReadable then 0 else s.eventfd)
    case SetCalling => s.(pc := AboutToSwap, calling := true)
    case Swap => s.(pc := Running, batch := s.pending, pending := [])
    case RunNext => s.(batch := s.batch[1..], executed := s.executed + [s.batch[0]])
    case EndBatch => s.(pc := AtCheck, calling := false)
  }

  ghost predicate IsRun(s: Loop, steps: seq<Step>)
    decreases steps
  {
    steps == [] || (Enabled(s, steps[0]) && IsRun(Apply(s, steps[0]), steps[1..]))
  }

  function After(s: Loop, steps: seq<Step>): Loop
    requires IsRun(s, steps)
    decreases steps
  {
    if steps == [] then s else After(Apply(s, steps[0]), steps[1..])
  }

  /** A freshly built loop. callingPendingFunctors_ is not initialised, so it is arbitrary. */
  function Built(calling: bool): Loop {
    Loop(NotStarted, 0, [], [], calling, false, {}, false, [], [])
  }

  // ---------------------------------------------------------------- wake-ups

  /** A wake-up is on its way: already in the descriptor, or owed by a thread that has
      published its request and will write next. */
  predicate Covered(s: Loop) {
    s.eventfd > 0 || s.owing != {} || s.loopOwes
  }

  ghost predicate WakeInv(s: Loop) {
    && (s.pc == Running || s.pc == AtCheck || s.pc == AtPoll ==> s.pending == [] || Covered(s))
    && (s.pc == AtPoll && s.quit ==> Covered(s))
    && (s.pc == Running || s.pc == AboutToSwap ==> s.calling)
    && (s.loopOwes ==> InUserCode(s))
  }

  lemma StepKeepsWakeInv(s: Loop, step: Step)
    requires WakeInv(s) && Enabled(s, step)
    requires step == Enter ==> s.pending == [] || Covered(s)
    ensures WakeInv(Apply(s, step))
    ensures Apply(s, step).pc != NotStarted || s.pc == NotStarted
  {
    if step.Push? || step.AskQuit? {
      assert step.t in Apply(s, step).owing;
    }
  }

  lemma {:induction false} RunKeepsWakeInv(s: Loop, steps: seq<Step>)
    requires WakeInv(s) && s.pc != NotStarted && IsRun(s, steps)
    ensures WakeInv(After(s, steps)) && After(s, steps).pc != NotStarted
    decreases steps
  {
    if steps != [] {
      StepKeepsWakeInv(s, steps[0]);
      RunKeepsWakeInv(Apply(s, steps[0]), steps[1..]);
    }
  }

  /** No wake-up is lost. Whatever any number of threads do: whenever the loop sleeps in
      poll with something queued, or with quit_ set, the descriptor is readable or some
      thread is about to make it so. The one thing a caller has to respect is stated for the
      moment loop() is entered: nothing is queued without a wake-up on its way. */
  lemma NoLostWakeup(start: Loop, steps: seq<Step>)
    requires Enabled(start, Enter) && (start.pending == [] || Covered(start))
    requires IsRun(Apply(start, Enter), steps)
    ensures var s := After(Apply(start, Enter), steps);
            s.pc == AtPoll && (s.pending != [] || s.quit) ==> s.eventfd > 0 || s.owing != {}
  {
    RunKeepsWakeInv(Apply(start, Enter), steps);
  }

  /** Other threads may queue as they like before loop() is entered: the condition holds. */
  lemma {:induction false} OthersMayQueueEarly(s: Loop, steps: seq<Step>)
    requires s.pc == NotStarted && (s.pending == [] || Covered(s)) && IsRun(s, steps)
    requires forall step <- steps :: step.Push? || step.AskQuit? || step.Wake? || step == OwnQuit
    ensures var s' := After(s, steps); s'.pc == NotStarted && (s'.pending == [] || Covered(s'))
    decreases steps
  {
    if steps != [] {
      var step := steps[0];
      assert step in steps;
      if step.Push? || step.AskQuit? {
        assert step.t in Apply(s, step).owing;
      }
      assert forall step <- steps[1..] :: step in steps;
      OthersMayQueueEarly(Apply(s, step), steps[1..]);
    }
  }

  /** That condition is exact: entering the loop and reaching the first poll leaves a queued
      functor waiting with no wake-up on its way exactly when it fails. It can fail only by
      queueInLoop from the loop's own thread before loop(). */
  lemma EntryCondition(s: Loop)
    requires s.pc == NotStarted && !s.loopOwes
    ensures IsRun(s, [Enter, CheckQuit])
    ensures var p := After(s, [Enter, CheckQuit]);
            p.pc == AtPoll && ((p.pending == [] || Covered(p)) <==> (s.pending == [] || Covered(s)))
  {
    var s1 := Apply(s, Enter);
    assert [Enter, CheckQuit][1..] == [CheckQuit];
    assert [CheckQuit][1..] == [];
    assert IsRun(s1, [CheckQuit]);
    assert After(s1, [CheckQuit]) == After(Apply(s1, CheckQuit), []);
  }

  /** How it fails: one functor queued by the loop's own thread, then loop(). */
  lemma QueueBeforeLoopSleeps(f: Functor)
    ensures var steps := [OwnPush(f), Enter, CheckQuit];
            && IsRun(Built(false), steps)
            && var s := After(Built(false), steps);
               s.pc == AtPoll && s.pending == [f] && s.eventfd == 0 && s.owing == {} && !s.loopOwes
  {
    var s1 := Apply(Built(false), OwnPush(f));
    assert [OwnPush(f), Enter, CheckQuit][1..] == [Enter, CheckQuit];
    EntryCondition(s1);
    assert [Enter, CheckQuit][1..] == [CheckQuit] && [CheckQuit][1..] == [];
    assert After(s1, [Enter, CheckQuit]) == After(Apply(s1, Enter), [CheckQuit]);
    assert After(Apply(s1, Enter), [CheckQuit]) == After(Apply(Apply(s1, Enter), CheckQuit), []);
  }

  predicate Asks(step: Step) { step.AskQuit? || step.OwnQuit? }

  /** quit() was called after loop() was last entered. */
  ghost predicate AskedSinceEntry(steps: seq<Step>) {
    exists i :: 0 <= i < |steps| && Asks(steps[i]) && Enter !in steps[i + 1..]
  }

  lemma AskedFirst(steps: seq<Step>)
    requires steps != []
    ensures AskedSinceEntry(steps) <==> (Asks(steps[0]) && Enter !in steps[1..]) || AskedSinceEntry(steps[1..])
  {
    var rest := steps[1..];
    forall i | 0 <= i < |rest| ensures rest[i] == steps[i + 1] && rest[i + 1..] == steps[i + 2..] {
    }
    if AskedSinceEntry(steps) && !(Asks(steps[0]) && Enter !in rest) {
      var i :| 0 <= i < |steps| && Asks(steps[i]) && Enter !in steps[i + 1..];
      assert Asks(rest[i - 1]) && rest[i - 1 + 1..] == steps[i + 1..];
    }
    if AskedSinceEntry(rest) {
      var i :| 0 <= i < |rest| && Asks(rest[i]) && Enter !in rest[i + 1..];
      assert Asks(steps[i + 1]) && steps[i + 1 + 1..] == rest[i + 1..];
    }
  }

  /** In every run, quit_ stands at the end exactly if quit() was called since loop() was last
      entered, or it stood before and loop() was not entered: an earlier call is forgotten. */
  lemma {:induction false} QuitSurvives(s: Loop, steps: seq<Step>)
    requires IsRun(s, steps)
    ensures After(s, steps).quit <==> AskedSinceEntry(steps) || (s.quit && Enter !in steps)
    decreases steps
  {
    if steps != [] {
      var s1 := Apply(s, steps[0]);
      assert s1.quit <==> steps[0] != Enter && (s.quit || Asks(steps[0]));
      assert steps == [steps[0]] + steps[1..];
      QuitSurvives(s1, steps[1..]);
      AskedFirst(steps);
    }
  }

  /** And a quit that stands ends the loop at its next check, before another poll. */
  lemma {:induction false} QuitEndsLoop(s: Loop, steps: seq<Step>)
    requires IsRun(s, steps) && s.quit && s.pc != NotStarted && s.pc != AtPoll
    ensures After(s, steps).quit && After(s, steps).pc != AtPoll
    decreases steps
  {
    if steps != [] {
      QuitEndsLoop(Apply(s, steps[0]), steps[1..]);
    }
  }

  lemma {:induction false} ExitedAsked(s: Loop, steps: seq<Step>)
    requires IsRun(s, steps) && (s.pc == Exited ==> s.quit)
    ensures After(s, steps).pc == Exited ==> After(s, steps).quit
    decreases steps
  {
    if steps != [] {
      ExitedAsked(Apply(s, steps[0]), steps[1..]);
    }
  }

  /** It ends for no other reason. */
  lemma EndsOnlyOnQuit(calling: bool, steps: seq<Step>)
    requires IsRun(Built(calling), steps) && After(Built(calling), steps).pc == Exited
    ensures AskedSinceEntry(steps)
  {
    ExitedAsked(Built(calling), steps);
    QuitSurvives(Built(calling), steps);
  }

  // ---------------------------------------------------------------- the descriptor

  /** What `count` more wake-ups leave in a descriptor that holds `before`. */
  function Counted(before: nat, count: nat): nat {
    if before + count <= EVENTFD_MAX then before + count else if before <= EVENTFD_MAX then EVENTFD_MAX else before
  }

  /** The loop handles the wake-up channel at this step. */
  predicate ReadsWakeups(s: Loop, step: Step) {
    step == HandleNext && s.pc.Handling? && s.pc.events != [] && s.pc.events[0] == WakeupReadable
  }

  /** The wake-ups written since the loop last handled that channel; `before` were there when
      the run began. */
  ghost function Unread(s: Loop, steps: seq<Step>, before: nat): nat
    requires IsRun(s, steps)
    decreases steps
  {
    if steps == [] then before
    else
      Unread(Apply(s, steps[0]), steps[1..],
             if ReadsWakeups(s, steps[0]) then 0
             else if steps[0].Wake? || steps[0] == OwnWake then before + 1 else before)
  }

  lemma {:induction false} EventfdHolds(s: Loop, steps: seq<Step>, before: nat)
    requires IsRun(s, steps) && s.eventfd == Counted(0, before)
    ensures After(s, steps).eventfd == Counted(0, Unread(s, steps, before))
    decreases steps
  {
    if steps != [] {
      var more := if ReadsWakeups(s, steps[0]) then 0
                  else if steps[0].Wake? || steps[0] == OwnWake then before + 1 else before;
      EventfdHolds(Apply(s, steps[0]), steps[1..], more);
    }
  }

  /** In every run the descriptor holds exactly the wake-ups written since the loop last
      handled it: handling it empties it, so the loop can sleep again, and poll finds it
      readable only if one was written later. */
  lemma EventfdCounts(calling: bool, steps: seq<Step>)
    requires IsRun(Built(calling), steps)
    ensures After(Built(calling), steps).eventfd == Counted(0, Unread(Built(calling), steps, 0))
  {
    EventfdHolds(Built(calling), steps, 0);
  }

  ghost predicate CallingInv(s: Loop) {
    && (s.calling <==> s.pc == AboutToSwap || s.pc == Running)
    && (s.loopOwes ==> s.pc == Running)
  }

  lemma {:induction false} RunKeepsCalling(s: Loop, steps: seq<Step>)
    requires IsRun(s, steps) && (CallingInv(s) || EndBatch in steps)
    ensures CallingInv(After(s, steps))
    decreases steps
  {
    if steps != [] {
      assert steps == [steps[0]] + steps[1..];
      RunKeepsCalling(Apply(s, steps[0]), steps[1..]);
    }
  }

  /** What the loop's own thread queues is followed by a wake-up exactly if functors are running,
      for then the queue was swapped out already. Until the first batch has ended this needs
      callingPendingFunctors_ to start as false. */
  lemma OwnWakeWhileRunning(calling: bool, steps: seq<Step>, f: Functor)
    requires IsRun(Built(calling), steps) && (!calling || EndBatch in steps)
    requires Enabled(After(Built(calling), steps), OwnPush(f))
    ensures var s := After(Built(calling), steps);
            Enabled(Apply(s, OwnPush(f)), OwnWake) <==> s.pc == Running
  {
    RunKeepsCalling(Built(calling), steps);
  }

  /** What a wake-up is worth: from a poll with the descriptor readable the loop can go
      through one round by itself and then has run everything posted. */
  lemma WakeupDelivers(s: Loop)
    requires s.pc == AtPoll && s.eventfd > 0 && s.batch == [] && !s.loopOwes
    requires s.executed + s.pending == s.posts
    ensures exists steps :: IsRun(s, steps) && After(s, steps).executed == s.posts
  {
    var round := [PollReturns([WakeupReadable]), HandleNext, SetCalling, Swap];
    var s1 := Apply(s, round[0]);
    var s2 := Apply(s1, round[1]);
    var s3 := Apply(s2, round[2]);
    var s4 := Apply(s3, round[3]);
    var rest := seq(|s4.batch|, _ => RunNext);
    DrainBatch(s4);
    PrependStep(s3, Swap, rest);
    PrependStep(s2, SetCalling, [Swap] + rest);
    PrependStep(s1, HandleNext, [SetCalling] + ([Swap] + rest));
    PrependStep(s, PollReturns([WakeupReadable]), [HandleNext] + ([SetCalling] + ([Swap] + rest)));
  }

  lemma PrependStep(s: Loop, step: Step, rest: seq<Step>)
    requires Enabled(s, step) && IsRun(Apply(s, step), rest)
    ensures IsRun(s, [step] + rest) && After(s, [step] + rest) == After(Apply(s, step), rest)
  {
    assert ([step] + rest)[1..] == rest;
  }

  lemma {:induction false} DrainBatch(s: Loop)
    requires s.pc == Running && !s.loopOwes
    ensures var rest := seq(|s.batch|, _ => RunNext);
            IsRun(s, rest) && After(s, rest).executed == s.executed + s.batch
    decreases |s.batch|
  {
    var rest := seq(|s.batch|, _ => RunNext);
    if s.batch == [] {
      assert rest == [];
    } else {
      var s1 := Apply(s, RunNext);
      DrainBatch(s1);
      assert rest[1..] == seq(|s1.batch|, _ => RunNext);
      assert s.executed + s.batch == s1.executed + s1.batch;
    }
  }

  // ---------------------------------------------------------------- order

  ghost predicate OrderInv(s: Loop) {
    s.executed + s.batch + s.pending == s.posts && (s.pc != Running ==> s.batch == [])
  }

  lemma StepKeepsOrder(s: Loop, step: Step)
    requires OrderInv(s) && Enabled(s, step)
    ensures OrderInv(Apply(s, step))
    ensures s.posts <= Apply(s, step).posts && s.executed <= Apply(s, step).executed
  {
    var s' := Apply(s, step);
    if step == RunNext {
      assert s'.executed + s'.batch == s.executed + s.batch;
    } else if step.Push? || step.OwnPush? {
      assert s'.executed + s'.batch + s'.pending == (s.executed + s.batch + s.pending) + [step.f];
    }
  }

  lemma {:induction false} RunKeepsOrder(s: Loop, steps: seq<Step>)
    requires OrderInv(s) && IsRun(s, steps)
    ensures var s' := After(s, steps);
            OrderInv(s') && s.posts <= s'.posts && s.executed <= s'.executed
    decreases steps
  {
    if steps != [] {
      StepKeepsOrder(s, steps[0]);
      RunKeepsOrder(Apply(s, steps[0]), steps[1..]);
    }
  }

  /** The pushes of a run, in lock order. */
  function Pushes(steps: seq<Step>): seq<Functor> {
    if steps == [] then []
    else (if steps[0].Push? || steps[0].OwnPush? then [steps[0].f] else []) + Pushes(steps[1..])
  }

  lemma {:induction false} RunPosts(s: Loop, steps: seq<Step>)
    requires IsRun(s, steps)
    ensures After(s, steps).posts == s.posts + Pushes(steps)
    decreases steps
  {
    if steps != [] {
      var s1 := Apply(s, steps[0]);
      RunPosts(s1, steps[1..]);
      assert s1.posts == s.posts + if steps[0].Push? || steps[0].OwnPush? then [steps[0].f] else [];
    }
  }

  /** Functors run in the order of their pushes, none twice, none skipped: what has run, the
      rest of the batch and the queue are together every push so far, in lock order. */
  lemma FunctorOrder(calling: bool, steps: seq<Step>)
    requires IsRun(Built(calling), steps)
    ensures var s := After(Built(calling), steps);
            s.executed + s.batch + s.pending == s.posts == Pushes(steps) && s.executed <= s.posts
  {
    RunKeepsOrder(Built(calling), steps);
    RunPosts(Built(calling), steps);
  }

  /** A functor pushed while a batch runs waits for a later round: until the next swap only
      functors pushed before now can run. */
  lemma {:induction false} LaterRound(s: Loop, steps: seq<Step>)
    requires OrderInv(s) && s.pc == Running && IsRun(s, steps)
    requires forall step <- steps :: step != Swap
    ensures var s' := After(s, steps);
            |s'.executed| + |s'.batch| == |s.executed| + |s.batch| && s'.executed <= s.executed + s.batch
    decreases steps
  {
    LaterRoundFrom(s, steps, s.executed + s.batch);
  }

  lemma {:induction false} LaterRoundFrom(s: Loop, steps: seq<Step>, due: seq<Functor>)
    requires IsRun(s, steps) && s.executed + s.batch == due
    requires forall step <- steps :: step != Swap
    ensures After(s, steps).executed + After(s, steps).batch == due
    decreases steps
  {
    if steps != [] {
      var s1 := Apply(s, steps[0]);
      assert steps[0] in steps;
      if steps[0] == RunNext {
        assert s1.executed + s1.batch == s.executed + s.batch;
      }
      assert forall step <- steps[1..] :: step in steps;
      LaterRoundFrom(s1, steps[1..], due);
    }
  }

  // ---------------------------------------------------------------- the object

  lemma {:induction false} Extend(s: Loop, steps: seq<Step>, step: Step)
    requires IsRun(s, steps) && Enabled(After(s, steps), step)
    ensures IsRun(s, steps + [step]) && After(s, steps + [step]) == Apply(After(s, steps), step)
    decreases steps
  {
    if steps == [] {
      assert ([] + [step])[1..] == [];
    } else {
      assert (steps + [step])[1..] == steps[1..] + [step];
      Extend(Apply(s, steps[0]), steps[1..], step);
    }
  }

  function Concat(ss: seq<seq<Functor>>): seq<Functor> {
    if ss == [] then [] else Concat(ss[..|ss| - 1]) + ss[|ss| - 1]
  }

  lemma ConcatNext(ss: seq<seq<Functor>>, i: nat)
    requires i < |ss|
    ensures Concat(ss[..i + 1]) == Concat(ss[..i]) + ss[i]
  {
    assert ss[..i + 1][..i] == ss[..i];
  }

  lemma ReportedNext(events: seq<Event>, i: nat)
    requires i < |events|
    ensures WakeupReadable in events[..i + 1] <==> WakeupReadable in events[..i] || events[i] == WakeupReadable
  {
    assert events[..i + 1] == events[..i] + [events[i]];
  }

  /** queueInLoop in the loop's own thread: the push, and the wake-up if functors are running. */
  function Queued(s: Loop, f: Functor): Loop
    requires InUserCode(s) && !s.loopOwes
  {
    var s1 := Apply(s, OwnPush(f));
    if s.calling then Apply(s1, OwnWake) else s1
  }

  /** And in another thread. */
  function QueuedFrom(s: Loop, t: Thread, f: Functor): Loop
    requires t !in s.owing
  {
    Apply(Apply(s, Push(t, f)), Wake(t))
  }

  /** Some run goes from one state to the other. */
  ghost predicate Leads(s: Loop, s': Loop) {
    exists steps :: IsRun(s, steps) && After(s, steps) == s'
  }

  lemma LeadsNowhere(s: Loop)
    ensures Leads(s, s)
  {
    assert IsRun(s, []) && After(s, []) == s;
  }

  lemma LeadsOn(s: Loop, s1: Loop, step: Step)
    requires Leads(s, s1) && Enabled(s1, step)
    ensures Leads(s, Apply(s1, step))
  {
    var steps :| IsRun(s, steps) && After(s, steps) == s1;
    Extend(s, steps, step);
  }

  lemma LeadsQueued(s: Loop, s1: Loop, f: Functor)
    requires Leads(s, s1) && InUserCode(s1) && !s1.loopOwes
    ensures Leads(s, Queued(s1, f))
  {
    LeadsOn(s, s1, OwnPush(f));
    if s1.calling { LeadsOn(s, Apply(s1, OwnPush(f)), OwnWake); }
  }

  /** The methods are steps of the model, or runs of it, so what is proved of its runs holds of
      them. Where one takes many steps, `start` is where they began. */
  class EventLoop {
    var pendingFunctors: seq<Functor>
    var callingPendingFunctors: bool
    var eventHandling: bool
    var quit: bool
    var wakeupCount: nat            // the eventfd
    ghost var pc: Pc
    ghost var batch: seq<Functor>
    ghost var owing: set<Thread>
    ghost var loopOwes: bool
    ghost var posts: seq<Functor>
    ghost var executed: seq<Functor>   // of the functors that were queued

    ghost function Value(): Loop
      reads this
    {
      Loop(pc, wakeupCount, pendingFunctors, batch, callingPendingFunctors, quit, owing, loopOwes, posts, executed)
    }

    /** callingPendingFunctors_ keeps whatever value the memory had. */
    constructor (memory: bool)
      ensures Value() == Built(memory) && !eventHandling
    {
      pendingFunctors, callingPendingFunctors, eventHandling, quit, wakeupCount := [], memory, false, false, 0;
      pc, batch, owing, loopOwes, posts, executed := NotStarted, [], {}, false, [], [];
    }

    method Wakeup()
      modifies this`wakeupCount
      ensures wakeupCount == Bump(old(wakeupCount)) > 0
    {
      if wakeupCount + 1 <= EVENTFD_MAX {
        wakeupCount := wakeupCount + 1;
      }
    }

    method HandleRead()
      modifies this`wakeupCount
      ensures wakeupCount == 0
    {
      wakeupCount := 0;
    }

    /** From the loop's own thread. */
    method QueueInLoop(f: Functor)
      requires InUserCode(Value()) && !loopOwes
      modifies this`pendingFunctors, this`wakeupCount, this`posts
      ensures Value() == Queued(old(Value()), f)
    {
      pendingFunctors := pendingFunctors + [f];
      posts := posts + [f];
      if callingPendingFunctors {
        Wakeup();
      }
    }

    /** From another thread. */
    method QueueFromThread(t: Thread, f: Functor)
      requires t !in owing
      modifies this`pendingFunctors, this`wakeupCount, this`posts
      ensures Value() == QueuedFrom(old(Value()), t, f)
    {
      pendingFunctors := pendingFunctors + [f];
      posts := posts + [f];
      Wakeup();
      assert old(owing) + {t} - {t} == old(owing);
    }

    /** runInLoop: on the loop's own thread the functor is called on the spot, and nothing of
        the loop changes. */
    method RunInLoop(from: Option<Thread>, f: Functor) returns (ranAtOnce: bool)
      requires from.Some? ==> from.value !in owing
      modifies this`pendingFunctors, this`wakeupCount, this`posts
      ensures ranAtOnce == from.None?
      ensures Value() == if from.Some? then QueuedFrom(old(Value()), from.value, f) else old(Value())
    {
      ranAtOnce := from.None?;
      if from.Some? {
        QueueFromThread(from.value, f);
      }
    }

    method Quit(from: Option<Thread>)
      requires if from.Some? then from.value !in owing else InUserCode(Value()) && !loopOwes
      modifies this`quit, this`wakeupCount
      ensures from.Some? ==> Value() == Apply(Apply(old(Value()), AskQuit(from.value)), Wake(from.value))
      ensures from.None? ==> Value() == Apply(old(Value()), OwnQuit)
    {
      quit := true;
      if from.Some? {
        Wakeup();
        assert old(owing) + {from.value} - {from.value} == old(owing);
      }
    }

    /** A callback or functor queues these, in order. */
    method QueueAll(fs: seq<Functor>, ghost start: Loop)
      requires InUserCode(Value()) && !loopOwes && Leads(start, Value())
      modifies this`pendingFunctors, this`wakeupCount, this`posts
      ensures Leads(start, Value()) && pendingFunctors == old(pendingFunctors) + fs
      ensures wakeupCount == if callingPendingFunctors then Counted(old(wakeupCount), |fs|) else old(wakeupCount)
    {
      var i := 0;
      while i < |fs|
        invariant i <= |fs| && pendingFunctors == old(pendingFunctors) + fs[..i]
        invariant wakeupCount == if callingPendingFunctors then Counted(old(wakeupCount), i) else old(wakeupCount)
        invariant Leads(start, Value())
      {
        LeadsQueued(start, Value(), fs[i]);
        QueueInLoop(fs[i]);
        i := i + 1;
      }
    }

    /** The swap, under the lock. */
    method TakeBatch(ghost start: Loop) returns (functors: seq<Functor>)
      requires pc == Handling([]) && !loopOwes && batch == [] && Leads(start, Value())
      modifies this`callingPendingFunctors, this`pendingFunctors, this`pc, this`batch
      ensures Leads(start, Value())
      ensures functors == batch == old(pendingFunctors) && pendingFunctors == []
      ensures pc == Running && callingPendingFunctors
    {
      LeadsOn(start, Value(), SetCalling);
      LeadsOn(start, Apply(Value(), SetCalling), Swap);
      callingPendingFunctors := true;
      functors := pendingFunctors;
      pendingFunctors := [];
      pc, batch := Running, functors;
    }

    /** The next functor of the batch. */
    method RunOne(ghost start: Loop)
      requires pc == Running && batch != [] && !loopOwes && Leads(start, Value())
      modifies this`executed, this`batch
      ensures Leads(start, Value())
      ensures executed == old(executed) + [old(batch)[0]] && batch == old(batch)[1..]
    {
      LeadsOn(start, Value(), RunNext);
      executed := executed + [batch[0]];
      batch := batch[1..];
    }

    /** Runs the batch; `queued[i]` is what its i-th functor queues from inside. */
    method RunBatch(functors: seq<Functor>, queued: seq<seq<Functor>>, ghost start: Loop)
      requires pc == Running && !loopOwes && batch == functors && |queued| == |functors| && pendingFunctors == []
      requires callingPendingFunctors && Leads(start, Value())
      modifies this`executed, this`batch, this`pendingFunctors, this`wakeupCount, this`posts
      ensures Leads(start, Value())
      ensures batch == [] && executed == old(executed) + functors && pendingFunctors == Concat(queued)
      ensures wakeupCount == Counted(old(wakeupCount), |Concat(queued)|)
    {
      var i := 0;
      while i < |functors|
        invariant i <= |functors| && batch == functors[i..] && executed == old(executed) + functors[..i]
        invariant pendingFunctors == Concat(queued[..i])
        invariant wakeupCount == Counted(old(wakeupCount), |Concat(queued[..i])|)
        invariant Leads(start, Value())
      {
        RunOne(start);
        QueueAll(queued[i], start);
        ConcatNext(queued, i);
        i := i + 1;
      }
      assert queued[..i] == queued;
    }

    /** All of the old queue runs, in order; what is queued meanwhile is left. */
    method DoPendingFunctors(queued: seq<seq<Functor>>, ghost start: Loop)
      requires |queued| == |pendingFunctors| && pc == Handling([]) && !loopOwes && batch == [] && Leads(start, Value())
      modifies this
      ensures Leads(start, Value())
      ensures pc == AtCheck && batch == [] && !loopOwes && eventHandling == old(eventHandling)
      ensures executed == old(executed) + old(pendingFunctors) && pendingFunctors == Concat(queued)
      ensures wakeupCount == Counted(old(wakeupCount), |Concat(queued)|)
    {
      var functors := TakeBatch(start);
      RunBatch(functors, queued, start);
      LeadsOn(start, Value(), EndBatch);
      callingPendingFunctors := false;
      pc := AtCheck;
    }

    /** The next active channel. */
    method HandleOne(event: Event, ghost start: Loop)
      requires pc.Handling? && pc.events != [] && pc.events[0] == event && !loopOwes && Leads(start, Value())
      modifies this`wakeupCount, this`pc
      ensures Leads(start, Value()) && pc == Handling(old(pc).events[1..])
      ensures wakeupCount == if event == WakeupReadable then 0 else old(wakeupCount)
    {
      LeadsOn(start, Value(), HandleNext);
      if event == WakeupReadable {
        HandleRead();
      }
      pc := Handling(pc.events[1..]);
    }

    /** And what its callback queues. */
    method HandleChannel(event: Event, fs: seq<Functor>, ghost start: Loop)
      requires pc.Handling? && pc.events != [] && pc.events[0] == event && !loopOwes && Leads(start, Value())
      modifies this`pc, this`wakeupCount, this`pendingFunctors, this`posts
      ensures Leads(start, Value()) && pc == Handling(old(pc).events[1..])
      ensures pendingFunctors == old(pendingFunctors) + fs
      ensures !callingPendingFunctors ==> wakeupCount == if event == WakeupReadable then 0 else old(wakeupCount)
    {
      HandleOne(event, start);
      QueueAll(fs, start);
    }

    /** Each reported channel is handled, and its callback queues what `handlers` says. */
    method HandleEvents(events: seq<Event>, handlers: seq<seq<Functor>>, ghost start: Loop)
      requires pc == Handling(events) && !loopOwes && |handlers| == |events| && Leads(start, Value())
      modifies this`pc, this`wakeupCount, this`pendingFunctors, this`posts
      ensures Leads(start, Value())
      ensures pc == Handling([]) && pendingFunctors == old(pendingFunctors) + Concat(handlers)
      ensures !callingPendingFunctors ==>
                wakeupCount == if WakeupReadable in events then 0 else old(wakeupCount)
    {
      var i := 0;
      while i < |events|
        invariant i <= |events| && pc == Handling(events[i..])
        invariant pendingFunctors == old(pendingFunctors) + Concat(handlers[..i])
        invariant !callingPendingFunctors ==>
                    wakeupCount == if WakeupReadable in events[..i] then 0 else old(wakeupCount)
        invariant Leads(start, Value())
      {
        assert events[i..][1..] == events[i + 1..];
        ReportedNext(events, i);
        HandleChannel(events[i], handlers[i], start);
        ConcatNext(handlers, i);
        i := i + 1;
      }
      assert handlers[..i] == handlers && events[..i] == events;
    }

    /** One turn of loop() from its poll on: the reported channels are handled, the wake-up
        channel by reading the eventfd, and then the queue is run. If that channel was reported
        and nothing is queued while functors run, the eventfd is empty at the end. */
    method Iterate(events: seq<Event>, handlers: seq<seq<Functor>>, queued: seq<seq<Functor>>)
      requires pc == AtPoll && !loopOwes && batch == []
      requires WakeupReadable in events ==> wakeupCount > 0
      requires |handlers| == |events| && |queued| == |pendingFunctors| + |Concat(handlers)|
      modifies this
      ensures Leads(old(Value()), Value())
      ensures pc == AtCheck && !eventHandling
      ensures executed == old(executed) + (old(pendingFunctors) + Concat(handlers)) && pendingFunctors == Concat(queued)
      ensures !old(callingPendingFunctors) ==>
                wakeupCount
                == Counted(if WakeupReadable in events then 0 else old(wakeupCount), |Concat(queued)|)
    {
      ghost var start := Value();
      LeadsNowhere(start);
      LeadsOn(start, start, PollReturns(events));
      pc := Handling(events);
      eventHandling := true;
      HandleEvents(events, handlers, start);
      eventHandling := false;
      DoPendingFunctors(queued, start);
    }
  }
}
