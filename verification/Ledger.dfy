/** What becomes of each connection attempt (networker/net/Connector.cpp:27-211), over every run.

    `Ledger` is an account of a connector kept from outside, by what happens to it: starts and
    stops, answers of connect(2), the verdict on a socket, timers that fire. It has no state
    machine, no channel and no doubling; the connector is shown to agree with it. */
module Ledgers {
  import opened Options
  import opened Connectors

  datatype Ledger = Ledger(
    wanted: bool,             // the last of start, restart and stop was not a stop
    attempt: Option<nat>,     // the socket that is connecting
    due: Option<nat>,         // when the next try is
    failures: nat,            // attempts failed and to be retried, since the last restart
    sockets: nat,
    fates: map<nat, Fate>,
    through: bool,            // an attempt has come through since the last restart
    live: Option<nat>,        // the connection handed over
    queue: seq<Functor>)

  const BLANK := Ledger(false, None, None, 0, 0, map[], false, None, [])

  /** An attempt has failed: its socket is closed, and while a connection is wanted the next try
      is in min(500 * 2^failures, 30000) ms. */
  function Failed(l: Ledger, sock: nat, clock: nat): Ledger {
    var l' := l.(attempt := None, fates := l.fates[sock := Closed]);
    if l.wanted then l'.(due := Some(clock + Delay(l.failures)), failures := l.failures + 1) else l'
  }

  function Tried(l: Ledger, answer: Answer, clock: nat): Ledger {
    var sock := l.sockets;
    var l' := l.(sockets := sock + 1);
    if !l.wanted then l
    else
      match answer
      case InProgress => l'.(attempt := Some(sock))
      case Busy => Failed(l', sock, clock)
      case Hopeless => l'.(fates := l.fates[sock := Closed])
  }

  /** The connection that was handed over is gone. */
  function Over(l: Ledger, reconnect: bool, answer: Answer, clock: nat): Ledger {
    var l' := l.(live := None);
    if reconnect then Tried(l'.(wanted := true, failures := 0, through := false), answer, clock) else l'
  }

  /** The verdict on the socket that was connecting; the reset of its channel is queued. */
  function Decided(l: Ledger, sock: nat, good: bool, clock: nat): Ledger {
    var l' := l.(queue := l.queue + [ResetChannel]);
    if !good then Failed(l', sock, clock)
    else if l.wanted then l'.(attempt := None, through := true, fates := l.fates[sock := Handed], live := Some(sock))
    else l'.(attempt := None, through := true, fates := l.fates[sock := Closed])
  }

  function Ran(l: Ledger, reconnect: bool, answer: Answer, clock: nat): Ledger
    requires l.queue != []
  {
    var l' := l.(queue := l.queue[1..]);
    match l.queue[0]
    case StartInLoop => Tried(l', answer, clock)
    case StopInLoop => if l.attempt.Some? then Decided(l', l.attempt.value, false, clock) else l'
    case ResetChannel => l'
    case CloseConn(sock) => if l.live == Some(sock) then Over(l', reconnect, answer, clock) else l'
  }

  function Note(l: Ledger, step: Step, clock: nat): Ledger {
    match step
    case Start(inLoop, answer) =>
      var l' := l.(wanted := true);
      if inLoop then Tried(l', answer, clock) else l'.(queue := l.queue + [StartInLoop])
    case Stop => l.(wanted := false, queue := l.queue + [StopInLoop])
    case PostClose => if l.live.Some? then l.(queue := l.queue + [CloseConn(l.live.value)]) else l
    case ChannelEvent(error, write, outcome) =>
      if l.attempt.Some? && (error || write)
      then Decided(l, l.attempt.value, !error && outcome == Through, clock) else l
    case Fire(_, answer) => Tried(l.(due := None), answer, clock)
    case PeerClose(reconnect, answer) => Over(l, reconnect, answer, clock)
    case RunFunctor(reconnect, answer) => if l.queue != [] then Ran(l, reconnect, answer, clock) else l
    case Tick(_) => l
    case Poll(_) => l
    case BeginBatch => l
    case EndBatch => l
  }

  ghost function Kept(l: Ledger, w: World, steps: seq<Step>): Ledger
    requires IsRun(w, steps)
    decreases steps
  {
    if steps == [] then l else Kept(Note(l, steps[0], w.conn.clock), Apply(w, steps[0]), steps[1..])
  }

  /** The connector is as the ledger says, and `q` is all it has queued. */
  ghost predicate Agrees(c: Conn, q: seq<Functor>, l: Ledger) {
    && c.connect == l.wanted
    && l.attempt == (if c.state == Connecting then c.channel else None) && (l.through <==> c.state == Connected)
    && c.timers == (if l.due.Some? then [l.due.value] else [])
    && |c.delays| == l.failures
    && c.nextSock == l.sockets && c.fates == l.fates && c.live == l.live && q == l.queue
  }

  // ---------------------------------------------------------------- the parts of a step

  lemma RetryAgrees(c: Conn, q: seq<Functor>, l: Ledger, sock: nat)
    requires DelayInv(c) && sock !in c.fates && l.due.None?
    requires Agrees(c.(state := Disconnected), q, l.(attempt := None))
    ensures Agrees(Retry(c, sock), q, Failed(l, sock, c.clock))
  {
  }

  lemma StartAgrees(c: Conn, q: seq<Functor>, l: Ledger, answer: Answer)
    requires Core(c, q) && Agrees(c, q, l) && c.state == Disconnected && c.timers == []
    requires c.connect && answer == InProgress ==> c.channel.None?
    ensures Agrees(StartInTheLoop(c, answer), q, Tried(l, answer, c.clock))
  {
    if c.connect {
      var c' := c.(nextSock := c.nextSock + 1);
      match answer {
        case InProgress =>
        case Busy => RetryAgrees(c', q, l.(sockets := l.sockets + 1), c.nextSock);
        case Hopeless =>
      }
    }
  }

  lemma NoChannel(c: Conn, q: seq<Functor>)
    requires ChannelInv(c, q) && c.state == Disconnected && Resets(q) == 0
    ensures c.channel.None?
  {
  }

  /** The verdict, by each of the three ways to it. */
  lemma VerdictAgrees(c: Conn, q: seq<Functor>, l: Ledger, outcome: Outcome)
    requires Core(c, q) && Agrees(c, q, l) && c.state == Connecting
    ensures l.attempt.Some?
    ensures Agrees(HandleError(c), q + [ResetChannel], Decided(l, l.attempt.value, false, c.clock))
    ensures Agrees(StopInTheLoop(c), q + [ResetChannel], Decided(l, l.attempt.value, false, c.clock))
    ensures Agrees(HandleWrite(c, outcome), q + [ResetChannel],
                   Decided(l, l.attempt.value, outcome == Through, c.clock))
  {
    RemoveKeeps(c, q);
    var l' := l.(queue := q + [ResetChannel]);
    RetryAgrees(Remove(c), q + [ResetChannel], l', c.channel.value);
    RetryAgrees(Remove(c.(state := Disconnected)), q + [ResetChannel], l', c.channel.value);
  }

  lemma OverAgrees(c: Conn, q: seq<Functor>, l: Ledger, sock: nat, reconnect: bool, answer: Answer)
    requires Core(c, q) && Agrees(c, q, l) && c.live == Some(sock) && Resets(q) == 0
    ensures Agrees(Gone(c, sock, reconnect, answer), q, Over(l, reconnect, answer, c.clock))
  {
    if reconnect {
      var c' := c.(live := None, state := Disconnected, retryDelayMs := INIT_RETRY_DELAY_MS, connect := true,
                      delays := []);
      assert Delay(0) == INIT_RETRY_DELAY_MS by { assert Pow2(0) == 1; }
      assert Core(c', q);
      NoChannel(c', q);
      StartAgrees(c', q, l.(live := None, wanted := true, failures := 0, through := false), answer);
    }
  }

  // ---------------------------------------------------------------- every step

  lemma StartStepAgrees(w: World, l: Ledger, inLoop: bool, answer: Answer)
    requires Inv(w) && Agrees(w.conn, Queue(w), l) && Enabled(w, Start(inLoop, answer))
    ensures var w' := Apply(w, Start(inLoop, answer));
            Agrees(w'.conn, Queue(w'), Note(l, Start(inLoop, answer), w.conn.clock))
  {
    var c := w.conn.(connect := true);
    QueuePosted(w, StartInLoop);
    if inLoop {
      assert Core(c, Queue(w));
      StartAgrees(c, Queue(w), l.(wanted := true), answer);
      StartKeeps(c, Queue(w), answer);
    }
  }

  lemma EventStepAgrees(w: World, l: Ledger, error: bool, write: bool, outcome: Outcome)
    requires Inv(w) && Agrees(w.conn, Queue(w), l) && Enabled(w, ChannelEvent(error, write, outcome))
    ensures var w' := Apply(w, ChannelEvent(error, write, outcome));
            Agrees(w'.conn, Queue(w'), Note(l, ChannelEvent(error, write, outcome), w.conn.clock))
  {
    VerdictAgrees(w.conn, Queue(w), l, outcome);
    QueuePosted(w, ResetChannel);
    if error {
      ErrorKeeps(w.conn, Queue(w));
    } else if write {
      WriteKeeps(w.conn, Queue(w), outcome);
    }
  }

  lemma FireStepAgrees(w: World, l: Ledger, i: nat, answer: Answer)
    requires Inv(w) && Agrees(w.conn, Queue(w), l) && Enabled(w, Fire(i, answer)) && !FiresLate(w, Fire(i, answer))
    ensures var w' := Apply(w, Fire(i, answer));
            Agrees(w'.conn, Queue(w'), Note(l, Fire(i, answer), w.conn.clock))
  {
    var c := w.conn.(timers := Without(w.conn.timers, i));
    assert c.timers == [] && c.state == Disconnected;
    assert Core(c, Queue(w));
    if c.connect && answer == InProgress { NoChannel(c, Queue(w)); }
    StartAgrees(c, Queue(w), l.(due := None), answer);
    FireKeeps(w.conn, Queue(w), i, answer);
  }

  /** What running the head of the queue adds at its end. */
  function Added(c: Conn, f: Functor): seq<Functor> {
    if f == StopInLoop && c.state == Connecting then [ResetChannel] else []
  }

  lemma RunOnePosts(c: Conn, q: seq<Functor>, reconnect: bool, answer: Answer)
    requires Core(c, q) && q != []
    ensures RunOne(c, q[0], reconnect, answer).pending == c.pending + Added(c, q[0])
  {
    HeadKeeps(c, q);
    match q[0] {
      case StartInLoop => StartKeeps(c, q[1..], answer);
      case StopInLoop => StopKeeps(c, q[1..]);
      case ResetChannel =>
      case CloseConn(sock) => GoneKeeps(c, q[1..], sock, reconnect, answer);
    }
  }

  lemma RunOneAgrees(c: Conn, q: seq<Functor>, l: Ledger, reconnect: bool, answer: Answer)
    requires Core(c, q) && Agrees(c, q, l) && q != []
    ensures Agrees(RunOne(c, q[0], reconnect, answer), q[1..] + Added(c, q[0]), Ran(l, reconnect, answer, c.clock))
  {
    HeadKeeps(c, q);
    assert q[1..] + [] == q[1..];
    var l' := l.(queue := q[1..]);
    match q[0] {
      case StartInLoop => RunStartAgrees(c, q, l', answer);
      case StopInLoop => if c.state == Connecting { VerdictAgrees(c, q[1..], l', Through); }
      case ResetChannel => ResetAgrees(c, q, l);
      case CloseConn(sock) => if c.live == Some(sock) { OverAgrees(c, q[1..], l', sock, reconnect, answer); }
    }
  }

  lemma RunStartAgrees(c: Conn, q: seq<Functor>, l': Ledger, answer: Answer)
    requires Core(c, q) && q != [] && q[0] == StartInLoop && Agrees(c, q[1..], l')
    ensures Agrees(StartInTheLoop(c, answer), q[1..], Tried(l', answer, c.clock))
  {
    HeadKeeps(c, q);
    CountHead(q);
    NoStart(c, q);
    NoChannel(c, q[1..]);
    StartAgrees(c, q[1..], l', answer);
  }

  lemma RunStepAgrees(w: World, l: Ledger, reconnect: bool, answer: Answer)
    requires Core(w.conn, Queue(w)) && Agrees(w.conn, Queue(w), l) && Enabled(w, RunFunctor(reconnect, answer))
    ensures var w' := Apply(w, RunFunctor(reconnect, answer));
            Agrees(w'.conn, Queue(w'), Note(l, RunFunctor(reconnect, answer), w.conn.clock))
  {
    var c, q, f := w.conn, Queue(w), w.batch[0];
    assert q[0] == f && q[1..] == w.batch[1..] + c.pending;
    RunOnePosts(c, q, reconnect, answer);
    RunOneAgrees(c, q, l, reconnect, answer);
    assert w.batch[1..] + (c.pending + Added(c, f)) == q[1..] + Added(c, f);
  }

  lemma PeerStepAgrees(w: World, l: Ledger, reconnect: bool, answer: Answer)
    requires Inv(w) && Agrees(w.conn, Queue(w), l) && Enabled(w, PeerClose(reconnect, answer))
    ensures var w' := Apply(w, PeerClose(reconnect, answer));
            Agrees(w'.conn, Queue(w'), Note(l, PeerClose(reconnect, answer), w.conn.clock))
  {
    OverAgrees(w.conn, Queue(w), l, w.conn.live.value, reconnect, answer);
    GoneKeeps(w.conn, Queue(w), w.conn.live.value, reconnect, answer);
  }

  lemma QuietStepAgrees(w: World, l: Ledger, step: Step)
    requires (w.phase != Running ==> w.batch == []) && Agrees(w.conn, Queue(w), l) && Enabled(w, step)
    requires step.Stop? || step.PostClose? || step.Tick? || step.Poll? || step.BeginBatch? || step.EndBatch?
    ensures var w' := Apply(w, step); Agrees(w'.conn, Queue(w'), Note(l, step, w.conn.clock))
  {
    match step {
      case Stop => QueuePosted(w, StopInLoop);
      case PostClose => QueuePosted(w, CloseConn(w.conn.live.value));
      case BeginBatch => assert w.conn.pending == Queue(w) == Queue(Apply(w, BeginBatch));
      case _ =>
    }
  }

  lemma NoStart(c: Conn, q: seq<Functor>)
    requires Core(c, q) && Starts(q) > 0
    ensures c.state == Disconnected && c.timers == []
  {
  }

  lemma ResetAgrees(c: Conn, q: seq<Functor>, l: Ledger)
    requires Core(c, q) && Agrees(c, q, l) && q != [] && q[0] == ResetChannel
    ensures Agrees(c.(channel := None), q[1..], l.(queue := q[1..]))
  {
    CountHead(q);
  }

  lemma StepAgrees(w: World, step: Step, l: Ledger)
    requires Inv(w) && Agrees(w.conn, Queue(w), l) && Enabled(w, step) && !FiresLate(w, step)
    ensures var w' := Apply(w, step); Agrees(w'.conn, Queue(w'), Note(l, step, w.conn.clock))
  {
    match step {
      case Start(inLoop, answer) => StartStepAgrees(w, l, inLoop, answer);
      case ChannelEvent(error, write, outcome) => EventStepAgrees(w, l, error, write, outcome);
      case Fire(i, answer) => FireStepAgrees(w, l, i, answer);
      case PeerClose(reconnect, answer) => PeerStepAgrees(w, l, reconnect, answer);
      case RunFunctor(reconnect, answer) => RunStepAgrees(w, l, reconnect, answer);
      case _ => QuietStepAgrees(w, l, step);
    }
  }

  lemma {:induction false} RunAgrees(w: World, steps: seq<Step>, l: Ledger)
    requires Inv(w) && Agrees(w.conn, Queue(w), l) && IsRun(w, steps) && !SomeFiresLate(w, steps)
    ensures Agrees(After(w, steps).conn, Queue(After(w, steps)), Kept(l, w, steps))
    decreases steps
  {
    if steps != [] {
      StepAgrees(w, steps[0], l);
      StepKeepsInv(w, steps[0]);
      RunAgrees(Apply(w, steps[0]), steps[1..], Note(l, steps[0], w.conn.clock));
    }
  }

  /** In every run in which no timer fires late the connector is as the ledger says: what is
      wanted, which socket is connecting, when the next try is due and after how many failures,
      what became of every socket, and everything queued. */
  lemma ConnectorKeepsLedger(steps: seq<Step>)
    requires IsRun(New(), steps) && !SomeFiresLate(New(), steps)
    ensures Agrees(After(New(), steps).conn, Queue(After(New(), steps)), Kept(BLANK, New(), steps))
  {
    NewInv();
    assert Queue(New()) == [];
    RunAgrees(New(), steps, BLANK);
  }

  // ---------------------------------------------------------------- which sockets are handed over

  /** The step finds socket `sock` connecting, without error, connected to another end, and the
      connection still wanted. */
  predicate Hands(w: World, step: Step, sock: nat) {
    && step == ChannelEvent(false, true, Through)
    && w.conn.state == Connecting && w.conn.channel == Some(sock) && w.conn.connect
  }

  ghost predicate SomeHands(w: World, steps: seq<Step>, sock: nat)
    requires IsRun(w, steps)
    decreases steps
  {
    steps != [] && (Hands(w, steps[0], sock) || SomeHands(Apply(w, steps[0]), steps[1..], sock))
  }

  predicate IsHanded(c: Conn, sock: nat) { sock in c.fates && c.fates[sock] == Handed }

  lemma StepHands(w: World, step: Step, sock: nat)
    requires Inv(w) && Enabled(w, step) && !FiresLate(w, step)
    ensures IsHanded(Apply(w, step).conn, sock) <==> IsHanded(w.conn, sock) || Hands(w, step, sock)
  {
    var l := BookOf(w);
    BookAgrees(w);
    StepAgrees(w, step, l);
    NoteHands(l, step, w.conn.clock, sock);
    ActiveConnects(w, step);
  }

  predicate InBook(l: Ledger, sock: nat) { sock in l.fates && l.fates[sock] == Handed }

  /** Only undecided sockets get a fate. */
  ghost predicate BookOk(l: Ledger) {
    forall x <- l.fates :: x < l.sockets && l.attempt != Some(x)
  }

  lemma NoteHands(l: Ledger, step: Step, clock: nat, sock: nat)
    requires BookOk(l)
    ensures InBook(Note(l, step, clock), sock)
            <==> InBook(l, sock)
                 || (step.ChannelEvent? && !step.error && step.write && step.outcome == Through
                     && l.attempt == Some(sock) && l.wanted)
  {
    match step {
      case RunFunctor(reconnect, answer) => if l.queue != [] { RanHands(l, reconnect, answer, clock, sock); }
      case _ =>
    }
  }

  lemma RanHands(l: Ledger, reconnect: bool, answer: Answer, clock: nat, sock: nat)
    requires BookOk(l) && l.queue != []
    ensures InBook(Ran(l, reconnect, answer, clock), sock) <==> InBook(l, sock)
  {
  }

  lemma ActiveConnects(w: World, step: Step)
    requires Inv(w) && Enabled(w, step)
    ensures step.ChannelEvent? ==> w.conn.state == Connecting
  {
  }

  /** The ledger of a state. */
  function BookOf(w: World): Ledger {
    var c := w.conn;
    Ledger(c.connect, if c.state == Connecting then c.channel else None,
           if c.timers == [] then None else Some(c.timers[0]), |c.delays|, c.nextSock, c.fates,
           c.state == Connected, c.live, Queue(w))
  }

  lemma BookAgrees(w: World)
    requires Inv(w)
    ensures Agrees(w.conn, Queue(w), BookOf(w)) && BookOk(BookOf(w))
  {
  }

  lemma {:induction false} RunHands(w: World, steps: seq<Step>, sock: nat)
    requires Inv(w) && IsRun(w, steps) && !SomeFiresLate(w, steps)
    ensures IsHanded(After(w, steps).conn, sock) <==> IsHanded(w.conn, sock) || SomeHands(w, steps, sock)
    decreases steps
  {
    if steps != [] {
      StepHands(w, steps[0], sock);
      StepKeepsInv(w, steps[0]);
      RunHands(Apply(w, steps[0]), steps[1..], sock);
    }
  }

  /** In every run: a socket was handed to the user exactly if a channel event found it
      connecting, without an error, with the peer at the other end, and still wanted. Every
      other socket that is not connecting was closed. */
  lemma HandedExactly(steps: seq<Step>, sock: nat)
    requires IsRun(New(), steps) && !SomeFiresLate(New(), steps) && sock < After(New(), steps).conn.nextSock
    ensures var c := After(New(), steps).conn;
            && (IsHanded(c, sock) <==> SomeHands(New(), steps, sock))
            && (sock in c.fates && c.fates[sock] == Closed
                <==> !SomeHands(New(), steps, sock) && !(c.state == Connecting && c.channel == Some(sock)))
  {
    NewInv();
    RunHands(New(), steps, sock);
    AbortsExactly(steps);
  }

  /** The step ends an attempt in an error, in a refusal seen by getSocketError, in a connection
      to itself, or by a stop. */
  predicate Fails(w: World, step: Step)
    requires Enabled(w, step)
  {
    w.conn.state == Connecting
    && match step
       case ChannelEvent(error, write, outcome) => error || (write && outcome != Through)
       case RunFunctor(_, _) => w.batch[0] == StopInLoop
       case _ => false
  }

  /** In every state reached: an attempt that fails has its socket closed; and exactly while a
      connection is wanted the next try is scheduled, one delay from now, the delay being
      min(500 * 2^failures, 30000). */
  lemma FailedAttempt(steps: seq<Step>, step: Step)
    requires IsRun(New(), steps) && !SomeFiresLate(New(), steps) && Enabled(After(New(), steps), step)
    requires Fails(After(New(), steps), step)
    ensures var c, c' := After(New(), steps).conn, Apply(After(New(), steps), step).conn;
            && c.channel.Some? && c.channel.value in c'.fates && c'.fates[c.channel.value] == Closed
            && c'.state != Connecting
            && c'.timers == (if c.connect then [c.clock + Delay(|c.delays|)] else [])
            && |c'.delays| == |c.delays| + if c.connect then 1 else 0
  {
    NewInv();
    RunKeepsInv(New(), steps);
    FailedFrom(After(New(), steps), step);
  }

  lemma FailedFrom(w: World, step: Step)
    requires Inv(w) && Enabled(w, step) && Fails(w, step)
    ensures var c, c' := w.conn, Apply(w, step).conn;
            && c.channel.Some? && c.channel.value in c'.fates && c'.fates[c.channel.value] == Closed
            && c'.state != Connecting
            && c'.timers == (if c.connect then [c.clock + Delay(|c.delays|)] else [])
            && |c'.delays| == |c.delays| + if c.connect then 1 else 0
  {
    BookAgrees(w);
    StepAgrees(w, step, BookOf(w));
    NoTimer(w);
    NoteFailed(w, step, BookOf(w));
    Ended(w, step);
  }

  lemma NoTimer(w: World)
    requires Inv(w) && w.conn.state == Connecting
    ensures w.conn.channel.Some? && w.conn.timers == []
  {
  }

  lemma NoteFailed(w: World, step: Step, l: Ledger)
    requires Enabled(w, step) && Fails(w, step) && l == BookOf(w) && l.attempt.Some? && l.due.None?
    ensures var l' := Note(l, step, w.conn.clock);
            && l.attempt.value in l'.fates && l'.fates[l.attempt.value] == Closed
            && l'.due == (if l.wanted then Some(w.conn.clock + Delay(l.failures)) else None)
            && l'.failures == l.failures + if l.wanted then 1 else 0
  {
    if step.RunFunctor? { assert Queue(w)[0] == w.batch[0]; }
  }

  lemma Ended(w: World, step: Step)
    requires Inv(w) && Enabled(w, step) && w.conn.state == Connecting
    requires step.ChannelEvent? ==> step.error || step.write
    requires step.RunFunctor? ==> w.batch[0] == StopInLoop
    requires step.ChannelEvent? || step.RunFunctor?
    ensures Apply(w, step).conn.state != Connecting
  {
  }
}
