/** networker/net/Connector.cpp, in the phases of its event loop.

    `Conn` is the connector with what it asks of the loop: functors, timers, sockets. `World`
    adds the loop's round: poll, the events it reported, the batch of functors. A functor that
    is posted while a batch runs waits for the next batch. Other threads may start, stop, and
    close the connection that was handed over; the client restarts the connector when that
    connection is gone (networker/net/TcpClient.cpp). A C++ assertion that would fail sets
    `aborted`; a socket closed or handed over a second time sets `twice`. */
module Connectors {
  import opened Options

  datatype State = Disconnected | Connecting | Connected

  datatype Fate = Closed | Handed

  /** What the loop is asked to run; `CloseConn` ends the connection that got this socket. */
  datatype Functor = StartInLoop | StopInLoop | ResetChannel | CloseConn(sock: nat)

  /** What connect(2) says, by the switch in Connector::connect. */
  datatype Answer = InProgress | Busy | Hopeless

  /** What getSocketError and isSelfConnect say of a writable socket. */
  datatype Outcome = SocketError | SelfConnect | Through

  const INIT_RETRY_DELAY_MS := 500
  const MAX_RETRY_DELAY_MS := 30000

  datatype Conn = Conn(
    connect: bool,
    state: State,
    channel: Option<nat>,      // the socket of channel_
    registered: bool,          // channel_ is with the poller
    retryDelayMs: nat,
    nextSock: nat,             // sockets are numbered as they are created
    fates: map<nat, Fate>,
    twice: bool,
    live: Option<nat>,         // the connection that was handed over and is still there
    pending: seq<Functor>,
    timers: seq<nat>,          // when each scheduled startInLoop is due
    clock: nat,
    resetAt: nat,              // when the last resetChannel was posted
    delays: seq<nat>,          // the retry delays since the last reset of the delay
    aborted: bool)

  // ---------------------------------------------------------------- the connector

  function Decide(c: Conn, sock: nat, fate: Fate): Conn {
    if sock in c.fates then c.(twice := true) else c.(fates := c.fates[sock := fate])
  }

  function Retry(c: Conn, sock: nat): Conn {
    var c' := Decide(c, sock, Closed).(state := Disconnected);
    if c'.connect then
      c'.(timers := c'.timers + [c'.clock + c'.retryDelayMs], delays := c'.delays + [c'.retryDelayMs],
          retryDelayMs := if c'.retryDelayMs * 2 < MAX_RETRY_DELAY_MS then c'.retryDelayMs * 2 else MAX_RETRY_DELAY_MS)
    else c'
  }

  function Connect(c: Conn, answer: Answer): Conn {
    var sock := c.nextSock;
    var c' := c.(nextSock := sock + 1);
    match answer
    case InProgress =>
      var c'' := c'.(state := Connecting);
      if c''.channel.Some? then c''.(aborted := true) else c''.(channel := Some(sock), registered := true)
    case Busy => Retry(c', sock)
    case Hopeless => Decide(c', sock, Closed)
  }

  function StartInTheLoop(c: Conn, answer: Answer): Conn {
    if c.state != Disconnected then c.(aborted := true)
    else if c.connect then Connect(c, answer)
    else c
  }

  function Restart(c: Conn, answer: Answer): Conn {
    StartInTheLoop(c.(state := Disconnected, retryDelayMs := INIT_RETRY_DELAY_MS, connect := true, delays := []),
                   answer)
  }

  function Remove(c: Conn): Conn {
    if c.channel.None? || !c.registered then c.(aborted := true)
    else c.(registered := false, pending := c.pending + [ResetChannel], resetAt := c.clock)
  }

  function StopInTheLoop(c: Conn): Conn {
    if c.state == Connecting then
      var c' := Remove(c.(state := Disconnected));
      if c'.aborted || c'.channel.None? then c' else Retry(c', c'.channel.value)
    else c
  }

  function HandleWrite(c: Conn, outcome: Outcome): Conn {
    if c.state == Connecting then
      var c' := Remove(c);
      if c'.aborted || c'.channel.None? then c'
      else
        var sock := c'.channel.value;
        if outcome != Through then Retry(c', sock)
        else if c'.connect then Decide(c', sock, Handed).(state := Connected, live := Some(sock))
        else Decide(c', sock, Closed).(state := Connected)
    else if c.state != Disconnected then c.(aborted := true)
    else c
  }

  function HandleError(c: Conn): Conn {
    if c.state == Connecting then
      var c' := Remove(c);
      if c'.aborted || c'.channel.None? then c' else Retry(c', c'.channel.value)
    else c
  }

  /** TcpClient::removeConnection. */
  function Gone(c: Conn, sock: nat, reconnect: bool, answer: Answer): Conn {
    if c.live != Some(sock) then c
    else if reconnect then Restart(c.(live := None), answer)
    else c.(live := None)
  }

  // ---------------------------------------------------------------- the loop around it

  datatype Phase = Polling | Events | Running

  datatype World = World(
    conn: Conn,
    phase: Phase,
    active: bool,         // channel_ is among the active channels, and not handled yet
    batch: seq<Functor>,
    polled: bool,         // the connection that was handed over was with the poller at this poll
    started: bool)

  datatype Step =
    | Start(inLoop: bool, answer: Answer)
    | Stop
    | PostClose
    | Tick(ms: nat)
    | Poll(ready: bool)
    | ChannelEvent(error: bool, write: bool, outcome: Outcome)
    | Fire(timer: nat, answer: Answer)
    | PeerClose(reconnect: bool, answer: Answer)
    | BeginBatch
    | RunFunctor(reconnect: bool, answer: Answer)
    | EndBatch

  predicate Enabled(w: World, step: Step) {
    match step
    case Start(_, _) => !w.started
    case Stop => true
    case PostClose => w.conn.live.Some?
    case Tick(_) => true
    case Poll(_) => w.phase == Polling
    case ChannelEvent(_, _, _) => w.phase == Events && w.active
    case Fire(i, _) => w.phase == Events && i < |w.conn.timers| && w.conn.timers[i] <= w.conn.clock
    case PeerClose(_, _) => w.phase == Events && w.polled && w.conn.live.Some?
    case BeginBatch => w.phase == Events
    case RunFunctor(_, _) => w.phase == Running && w.batch != []
    case EndBatch => w.phase == Running && w.batch == []
  }

  function Post(c: Conn, f: Functor): Conn { c.(pending := c.pending + [f]) }

  function RunOne(c: Conn, f: Functor, reconnect: bool, answer: Answer): Conn {
    match f
    case StartInLoop => StartInTheLoop(c, answer)
    case StopInLoop => StopInTheLoop(c)
    case ResetChannel => c.(channel := None)
    case CloseConn(sock) => Gone(c, sock, reconnect, answer)
  }

  function Without(ts: seq<nat>, i: nat): seq<nat>
    requires i < |ts|
  {
    ts[..i] + ts[i + 1..]
  }

  function Apply(w: World, step: Step): World
    requires Enabled(w, step)
  {
    var c := w.conn;
    match step
    case Start(inLoop, answer) =>
      var c' := c.(connect := true);
      w.(started := true, conn := if inLoop then StartInTheLoop(c', answer) else Post(c', StartInLoop))
    case Stop => w.(conn := Post(c.(connect := false), StopInLoop))
    case PostClose => w.(conn := Post(c, CloseConn(c.live.value)))
    case Tick(ms) => w.(conn := c.(clock := c.clock + ms))
    case Poll(ready) => w.(phase := Events, active := ready && c.channel.Some? && c.registered, polled := c.live.Some?)
    case ChannelEvent(error, write, outcome) =>
      var c' := if error then HandleError(c) else c;
      w.(active := false, conn := if write then HandleWrite(c', outcome) else c')
    case Fire(i, answer) => w.(conn := StartInTheLoop(c.(timers := Without(c.timers, i)), answer))
    case PeerClose(reconnect, answer) => w.(conn := Gone(c, c.live.value, reconnect, answer))
    case BeginBatch => w.(phase := Running, active := false, polled := false, batch := c.pending,
                          conn := c.(pending := []))
    case RunFunctor(reconnect, answer) =>
      w.(batch := w.batch[1..], conn := RunOne(c, w.batch[0], reconnect, answer))
    case EndBatch => w.(phase := Polling)
  }

  // ---------------------------------------------------------------- the invariant

  function Queue(w: World): seq<Functor> { w.batch + w.conn.pending }

  function Starts(q: seq<Functor>): nat { multiset(q)[StartInLoop] }

  function Resets(q: seq<Functor>): nat { multiset(q)[ResetChannel] }

  /** min(500 * 2^k, 30000). */
  function Delay(k: nat): nat {
    if Pow2(k) * INIT_RETRY_DELAY_MS < MAX_RETRY_DELAY_MS then Pow2(k) * INIT_RETRY_DELAY_MS else MAX_RETRY_DELAY_MS
  }

  function Pow2(k: nat): nat { if k == 0 then 1 else 2 * Pow2(k - 1) }

  /** At most one of: a start on its way, a retry scheduled, an attempt, a connection. */
  function Outstanding(c: Conn, q: seq<Functor>): nat {
    Starts(q) + |c.timers| + if c.state == Disconnected then 0 else 1
  }

  ghost predicate AttemptInv(c: Conn, q: seq<Functor>) {
    && Outstanding(c, q) <= 1
    && (c.live.Some? ==> c.state == Connected)
  }

  /** channel_ is there while an attempt is on, and from then until its queued reset. */
  ghost predicate ChannelInv(c: Conn, q: seq<Functor>) {
    && (c.registered <==> c.state == Connecting)
    && (c.registered ==> c.channel.Some?)
    && Resets(q) == (if c.channel.Some? && !c.registered then 1 else 0)
    && (Starts(q) > 0 ==> c.channel.None?)
  }

  /** Every socket was closed or handed over, but for the one of the attempt. */
  ghost predicate SocketInv(c: Conn) {
    && !c.twice
    && (c.registered && c.channel.Some? ==> c.channel.value < c.nextSock)
    && (forall sock: nat :: sock in c.fates <==> sock < c.nextSock && !(c.registered && c.channel == Some(sock)))
    && (c.live.Some? ==> c.live.value in c.fates)
  }

  /** The delays double up to the limit. */
  ghost predicate DelayInv(c: Conn) {
    c.retryDelayMs == Delay(|c.delays|) && forall k :: 0 <= k < |c.delays| ==> c.delays[k] == Delay(k)
  }

  /** A retry is due no sooner than 500 ms after the reset that was posted with it. */
  ghost predicate TimeInv(c: Conn, q: seq<Functor>) {
    Resets(q) > 0 ==> c.resetAt <= c.clock && forall due <- c.timers :: c.resetAt + INIT_RETRY_DELAY_MS <= due
  }

  /** Requests to close are about connections that were handed over; one about the connection
      that is there comes after any reset. */
  ghost predicate OrderInv(c: Conn, q: seq<Functor>) {
    && (forall j :: 0 <= j < |q| && q[j].CloseConn? ==> q[j].sock in c.fates)
    && (forall i, j :: 0 <= j < i < |q| && q[i] == ResetChannel && q[j].CloseConn? ==> Some(q[j].sock) != c.live)
  }

  ghost predicate Core(c: Conn, q: seq<Functor>) {
    && !c.aborted && AttemptInv(c, q) && ChannelInv(c, q) && SocketInv(c) && DelayInv(c) && TimeInv(c, q)
    && OrderInv(c, q)
  }

  ghost predicate LoopInv(w: World) {
    && (!w.started ==> Outstanding(w.conn, Queue(w)) == 0 && w.conn.channel.None?)
    && (w.phase != Running ==> w.batch == [])
    && (w.active ==> w.conn.registered && w.phase == Events && !w.polled)
    && (w.conn.live.Some? && w.polled ==> Resets(Queue(w)) == 0)
    && (w.conn.live.Some? && w.phase != Events ==> Resets(w.conn.pending) == 0)
  }

  ghost predicate Inv(w: World) { Core(w.conn, Queue(w)) && LoopInv(w) }

  /** No posted reset has waited for 500 ms. */
  ghost predicate Prompt(w: World) {
    Resets(Queue(w)) > 0 ==> w.conn.clock < w.conn.resetAt + INIT_RETRY_DELAY_MS
  }

  // ---------------------------------------------------------------- the connector keeps it

  lemma CountPost(q: seq<Functor>, f: Functor)
    ensures Starts(q + [f]) == Starts(q) + if f == StartInLoop then 1 else 0
    ensures Resets(q + [f]) == Resets(q) + if f == ResetChannel then 1 else 0
  {
    assert multiset(q + [f]) == multiset(q) + multiset{f};
  }

  lemma CountHead(q: seq<Functor>)
    requires q != []
    ensures Starts(q) == Starts(q[1..]) + if q[0] == StartInLoop then 1 else 0
    ensures Resets(q) == Resets(q[1..]) + if q[0] == ResetChannel then 1 else 0
  {
    assert q == [q[0]] + q[1..];
    assert multiset(q) == multiset{q[0]} + multiset(q[1..]);
  }

  lemma CountEmpty()
    ensures Starts([]) == 0 && Resets([]) == 0
  {
  }

  lemma NoReset(q: seq<Functor>)
    ensures Resets(q) == 0 <==> forall i :: 0 <= i < |q| ==> q[i] != ResetChannel
  {
    assert ResetChannel in multiset(q) <==> ResetChannel in q;
  }

  lemma DelayBound(k: nat)
    ensures Delay(k) >= INIT_RETRY_DELAY_MS
    ensures Delay(k + 1) == if 2 * Delay(k) < MAX_RETRY_DELAY_MS then 2 * Delay(k) else MAX_RETRY_DELAY_MS
  {
    Pow2Positive(k);
  }

  lemma {:induction false} Pow2Positive(k: nat)
    ensures Pow2(k) >= 1
  {
    if k > 0 {
      Pow2Positive(k - 1);
    }
  }

  /** A socket is given up and the next start scheduled, if the connector still wants one. */
  lemma RetryKeeps(c: Conn, q: seq<Functor>, sock: nat)
    requires !c.aborted && !c.twice && sock !in c.fates && sock < c.nextSock && !c.registered && c.live.None?
    requires Starts(q) == 0 && c.timers == []
    requires Resets(q) == (if c.channel.Some? then 1 else 0) && (Resets(q) > 0 ==> c.resetAt <= c.clock)
    requires forall x: nat :: x in c.fates <==> x < c.nextSock && x != sock
    requires DelayInv(c) && OrderInv(c, q)
    ensures Core(Retry(c, sock), q) && Retry(c, sock).pending == c.pending && Retry(c, sock).live.None?
  {
    DelayBound(|c.delays|);
    if Resets(q) > 0 && c.connect {
      assert Retry(c, sock).timers == [c.clock + c.retryDelayMs];
      assert c.retryDelayMs >= INIT_RETRY_DELAY_MS;
    }
  }

  lemma StartKeeps(c: Conn, q: seq<Functor>, answer: Answer)
    requires Core(c, q) && Outstanding(c, q) == 0 && (c.connect && answer == InProgress ==> Resets(q) == 0)
    ensures Core(StartInTheLoop(c, answer), q) && StartInTheLoop(c, answer).pending == c.pending
    ensures StartInTheLoop(c, answer).live.None?
  {
    if c.connect {
      var c' := c.(nextSock := c.nextSock + 1);
      match answer {
        case InProgress =>
        case Busy => RetryKeeps(c', q, c.nextSock);
        case Hopeless =>
      }
    }
  }

  /** What an attempt leaves behind once its channel is off the poller: a reset in the queue. */
  lemma RemoveKeeps(c: Conn, q: seq<Functor>)
    requires Core(c, q) && c.state == Connecting
    ensures var c', q' := Remove(c), q + [ResetChannel];
            && c' == c.(registered := false, pending := c.pending + [ResetChannel], resetAt := c.clock)
            && !c'.twice && c'.live.None? && c'.timers == [] && Starts(q') == 0 && Resets(q') == 1
            && c'.channel.value !in c'.fates && c'.channel.value < c'.nextSock
            && (forall x: nat :: x in c'.fates <==> x < c'.nextSock && x != c'.channel.value)
            && OrderInv(c', q')
  {
    CountPost(q, ResetChannel);
  }

  lemma StopKeeps(c: Conn, q: seq<Functor>)
    requires Core(c, q)
    ensures var c' := StopInTheLoop(c);
            if c.state == Connecting
            then c'.pending == c.pending + [ResetChannel] && Core(c', q + [ResetChannel]) && c'.live.None?
            else c' == c
  {
    if c.state == Connecting {
      RemoveKeeps(c, q);
      var c' := Remove(c).(state := Disconnected);
      assert Remove(c.(state := Disconnected)) == c';
      RetryKeeps(c', q + [ResetChannel], c.channel.value);
    }
  }

  lemma ErrorKeeps(c: Conn, q: seq<Functor>)
    requires Core(c, q) && c.state == Connecting
    ensures var c' := HandleError(c);
            c'.pending == c.pending + [ResetChannel] && Core(c', q + [ResetChannel])
            && c'.live.None? && c'.state == Disconnected
  {
    RemoveKeeps(c, q);
    RetryKeeps(Remove(c), q + [ResetChannel], c.channel.value);
  }

  lemma WriteKeeps(c: Conn, q: seq<Functor>, outcome: Outcome)
    requires Core(c, q) && c.state == Connecting
    ensures var c' := HandleWrite(c, outcome);
            c'.pending == c.pending + [ResetChannel] && Core(c', q + [ResetChannel])
  {
    RemoveKeeps(c, q);
    if outcome != Through {
      RetryKeeps(Remove(c), q + [ResetChannel], c.channel.value);
    }
  }

  lemma GoneKeeps(c: Conn, q: seq<Functor>, sock: nat, reconnect: bool, answer: Answer)
    requires Core(c, q) && (c.live == Some(sock) ==> Resets(q) == 0)
    ensures var c' := Gone(c, sock, reconnect, answer);
            Core(c', q) && c'.pending == c.pending && (c'.live.None? || c' == c)
  {
    if c.live == Some(sock) && reconnect {
      var c' := c.(live := None, state := Disconnected, retryDelayMs := INIT_RETRY_DELAY_MS, connect := true,
                      delays := []);
      assert Delay(0) == INIT_RETRY_DELAY_MS by { assert Pow2(0) == 1; }
      StartKeeps(c', q, answer);
    }
  }

  // ---------------------------------------------------------------- every step keeps it

  lemma QueuePosted(w: World, f: Functor)
    ensures w.batch + (w.conn.pending + [f]) == Queue(w) + [f]
  {
  }

  /** Other functors than a reset may join the queue, a close only for the connection there. */
  lemma PostKeeps(c: Conn, q: seq<Functor>, f: Functor)
    requires Core(c, q) && f != ResetChannel
    requires f == StartInLoop ==> Outstanding(c, q) == 0 && c.channel.None?
    requires f.CloseConn? ==> f.sock in c.fates
    ensures Core(Post(c, f), q + [f])
  {
    CountPost(q, f);
  }

  lemma StartStep(w: World, inLoop: bool, answer: Answer)
    requires Inv(w) && !w.started
    ensures Inv(Apply(w, Start(inLoop, answer)))
  {
    var c := w.conn.(connect := true);
    assert Core(c, Queue(w));
    if inLoop {
      StartKeeps(c, Queue(w), answer);
    } else {
      PostKeeps(c, Queue(w), StartInLoop);
      QueuePosted(w, StartInLoop);
      CountPost(w.conn.pending, StartInLoop);
      CountPost(Queue(w), StartInLoop);
    }
  }

  lemma PostStep(w: World, f: Functor, connect: bool)
    requires Inv(w) && (f == StopInLoop || (f.CloseConn? && w.conn.live == Some(f.sock)))
    ensures Inv(w.(conn := Post(w.conn.(connect := connect), f)))
  {
    var c := w.conn.(connect := connect);
    assert Core(c, Queue(w));
    PostKeeps(c, Queue(w), f);
    QueuePosted(w, f);
    CountPost(Queue(w), f);
    CountPost(w.conn.pending, f);
  }

  lemma TickStep(w: World, ms: nat)
    requires Inv(w)
    ensures Inv(Apply(w, Tick(ms)))
  {
    assert Core(w.conn.(clock := w.conn.clock + ms), Queue(w));
  }

  lemma PollStep(w: World, ready: bool)
    requires Inv(w) && w.phase == Polling
    ensures Inv(Apply(w, Poll(ready)))
  {
    assert Queue(w) == w.conn.pending;
    assert Queue(Apply(w, Poll(ready))) == Queue(w);
  }

  lemma ChannelStep(w: World, error: bool, write: bool, outcome: Outcome)
    requires Inv(w) && w.phase == Events && w.active
    ensures Inv(Apply(w, ChannelEvent(error, write, outcome)))
  {
    var q := Queue(w);
    QueuePosted(w, ResetChannel);
    CountPost(q, ResetChannel);
    if error {
      ErrorKeeps(w.conn, q);
    } else if write {
      WriteKeeps(w.conn, q, outcome);
    }
  }

  lemma FireKeeps(c: Conn, q: seq<Functor>, i: nat, answer: Answer)
    requires Core(c, q) && i < |c.timers| && (c.connect && answer == InProgress ==> Resets(q) == 0)
    ensures var c' := StartInTheLoop(c.(timers := Without(c.timers, i)), answer);
            Core(c', q) && c'.pending == c.pending && c'.live.None?
  {
    var c' := c.(timers := Without(c.timers, i));
    assert |c'.timers| == 0;
    assert Core(c', q);
    StartKeeps(c', q, answer);
  }

  /** A timer is not due while a reset waits, if no reset waits as long as a delay. */
  lemma NoFireBeforeReset(w: World, i: nat)
    requires Inv(w) && Prompt(w) && i < |w.conn.timers| && w.conn.timers[i] <= w.conn.clock
    ensures Resets(Queue(w)) == 0
  {
    assert w.conn.timers[i] in w.conn.timers;
  }

  lemma BeginStep(w: World)
    requires Inv(w) && w.phase == Events
    ensures Inv(Apply(w, BeginBatch))
  {
    assert Queue(w) == w.conn.pending;
    assert Queue(Apply(w, BeginBatch)) == Queue(w);
    assert Core(w.conn.(pending := []), Queue(w));
    CountEmpty();
  }

  /** Taking a functor off the head of the queue. */
  lemma HeadKeeps(c: Conn, q: seq<Functor>)
    requires Core(c, q) && q != []
    ensures q[0] == StopInLoop || q[0].CloseConn? ==> Core(c, q[1..])
    ensures q[0] == ResetChannel ==> Core(c.(channel := None), q[1..])
    ensures q[0] == StartInLoop ==> Core(c, q[1..]) && Outstanding(c, q[1..]) == 0 && Resets(q[1..]) == 0
    ensures q[0].CloseConn? && c.live == Some(q[0].sock) ==> Resets(q[1..]) == 0
  {
    CountHead(q);
    NoReset(q[1..]);
    assert OrderInv(c, q[1..]);
  }

  lemma RunStep(w: World, reconnect: bool, answer: Answer)
    requires Inv(w) && w.phase == Running && w.batch != []
    ensures Inv(Apply(w, RunFunctor(reconnect, answer)))
  {
    var c, q, f := w.conn, Queue(w), w.batch[0];
    var w' := Apply(w, RunFunctor(reconnect, answer));
    assert q[0] == f && q[1..] == w.batch[1..] + c.pending;
    HeadKeeps(c, q);
    CountHead(q);
    match f {
      case StartInLoop => StartKeeps(c, q[1..], answer);
      case StopInLoop =>
        StopKeeps(c, q[1..]);
        assert w.batch[1..] + (c.pending + [ResetChannel]) == q[1..] + [ResetChannel];
      case ResetChannel =>
      case CloseConn(sock) => GoneKeeps(c, q[1..], sock, reconnect, answer);
    }
  }

  /** A retry timer fires, finds the connector wanting to connect, gets a socket that is
      connecting, and the reset posted before it has not run. */
  predicate FiresLate(w: World, step: Step) {
    step.Fire? && step.answer == InProgress && w.conn.connect && Resets(Queue(w)) > 0
  }

  lemma StepKeepsInv(w: World, step: Step)
    requires Inv(w) && Enabled(w, step) && !FiresLate(w, step)
    ensures Inv(Apply(w, step))
  {
    match step {
      case Start(inLoop, answer) => StartStep(w, inLoop, answer);
      case Stop => PostStep(w, StopInLoop, false);
      case PostClose => PostStep(w, CloseConn(w.conn.live.value), w.conn.connect);
      case Tick(ms) => TickStep(w, ms);
      case Poll(ready) => PollStep(w, ready);
      case ChannelEvent(error, write, outcome) => ChannelStep(w, error, write, outcome);
      case Fire(i, answer) => FireKeeps(w.conn, Queue(w), i, answer);
      case PeerClose(reconnect, answer) => GoneKeeps(w.conn, Queue(w), w.conn.live.value, reconnect, answer);
      case BeginBatch => BeginStep(w);
      case RunFunctor(reconnect, answer) => RunStep(w, reconnect, answer);
      case EndBatch => assert Queue(Apply(w, EndBatch)) == Queue(w);
    }
  }

  lemma LateFireAborts(w: World, step: Step)
    requires Inv(w) && Enabled(w, step) && FiresLate(w, step)
    ensures Apply(w, step).conn.aborted
  {
    var c := w.conn.(timers := Without(w.conn.timers, step.timer));
    assert c.channel.Some? && c.state == Disconnected;
    assert Apply(w, step).conn == Connect(c, step.answer);
  }

  // ---------------------------------------------------------------- whole runs

  ghost predicate IsRun(w: World, steps: seq<Step>)
    decreases steps
  {
    steps == [] || (Enabled(w, steps[0]) && IsRun(Apply(w, steps[0]), steps[1..]))
  }

  ghost function After(w: World, steps: seq<Step>): World
    requires IsRun(w, steps)
    decreases steps
  {
    if steps == [] then w else After(Apply(w, steps[0]), steps[1..])
  }

  /** Some timer of the run fires late. */
  ghost predicate SomeFiresLate(w: World, steps: seq<Step>)
    requires IsRun(w, steps)
    decreases steps
  {
    steps != [] && (FiresLate(w, steps[0]) || SomeFiresLate(Apply(w, steps[0]), steps[1..]))
  }

  /** In no state of the run has a posted reset waited for 500 ms. */
  ghost predicate PromptRun(w: World, steps: seq<Step>)
    requires IsRun(w, steps)
    decreases steps
  {
    Prompt(w) && (steps == [] || PromptRun(Apply(w, steps[0]), steps[1..]))
  }

  function New(): World {
    World(Conn(false, Disconnected, None, false, INIT_RETRY_DELAY_MS, 0, map[], false, None, [], [], 0, 0, [], false),
          Polling, false, [], false, false)
  }

  lemma NewInv()
    ensures Inv(New())
  {
    CountEmpty();
    assert Queue(New()) == [];
    assert Delay(0) == INIT_RETRY_DELAY_MS by { assert Pow2(0) == 1; }
  }

  lemma AbortedStart(c: Conn, answer: Answer)
    requires c.aborted
    ensures StartInTheLoop(c, answer).aborted
  {
  }

  lemma AbortedGone(c: Conn, sock: nat, reconnect: bool, answer: Answer)
    requires c.aborted
    ensures Gone(c, sock, reconnect, answer).aborted
  {
    var c' := c.(live := None, state := Disconnected, retryDelayMs := INIT_RETRY_DELAY_MS, connect := true,
                 delays := []);
    AbortedStart(c', answer);
  }

  lemma AbortedEvent(c: Conn, outcome: Outcome)
    requires c.aborted
    ensures HandleError(c).aborted && HandleWrite(c, outcome).aborted && StopInTheLoop(c).aborted
  {
  }

  lemma AbortedRun(c: Conn, f: Functor, reconnect: bool, answer: Answer)
    requires c.aborted
    ensures RunOne(c, f, reconnect, answer).aborted
  {
    match f {
      case StartInLoop => AbortedStart(c, answer);
      case StopInLoop => AbortedEvent(c, Through);
      case ResetChannel =>
      case CloseConn(sock) => AbortedGone(c, sock, reconnect, answer);
    }
  }

  lemma AbortedStep(w: World, step: Step)
    requires Enabled(w, step) && w.conn.aborted
    ensures Apply(w, step).conn.aborted
  {
    var c := w.conn;
    match step {
      case Start(_, answer) => AbortedStart(c.(connect := true), answer);
      case ChannelEvent(error, write, outcome) =>
        AbortedEvent(c, outcome);
        AbortedEvent(HandleError(c), outcome);
      case Fire(i, answer) => AbortedStart(c.(timers := Without(c.timers, i)), answer);
      case PeerClose(reconnect, answer) => AbortedGone(c, c.live.value, reconnect, answer);
      case RunFunctor(reconnect, answer) => AbortedRun(c, w.batch[0], reconnect, answer);
      case _ =>
    }
  }

  lemma {:induction false} AbortedStays(w: World, steps: seq<Step>)
    requires IsRun(w, steps) && w.conn.aborted
    ensures After(w, steps).conn.aborted
    decreases steps
  {
    if steps != [] {
      AbortedStep(w, steps[0]);
      AbortedStays(Apply(w, steps[0]), steps[1..]);
    }
  }

  lemma {:induction false} RunKeepsInv(w: World, steps: seq<Step>)
    requires Inv(w) && IsRun(w, steps)
    ensures After(w, steps).conn.aborted <==> SomeFiresLate(w, steps)
    ensures !SomeFiresLate(w, steps) ==> Inv(After(w, steps))
    decreases steps
  {
    if steps != [] {
      if FiresLate(w, steps[0]) {
        LateFireAborts(w, steps[0]);
        AbortedStays(Apply(w, steps[0]), steps[1..]);
      } else {
        StepKeepsInv(w, steps[0]);
        RunKeepsInv(Apply(w, steps[0]), steps[1..]);
      }
    }
  }

  /** No socket is closed or handed over twice, and every one was, but for that of the attempt;
      at most one start, retry, attempt or connection is outstanding; and the k-th delay since
      the last reset is min(500 * 2^k, 30000). */
  ghost predicate Safe(w: World) {
    var c := w.conn;
    && !c.aborted && !c.twice
    && (forall sock: nat :: sock in c.fates <==>
                              sock < c.nextSock && !(c.state == Connecting && c.channel == Some(sock)))
    && Outstanding(c, Queue(w)) <= 1
    && c.retryDelayMs == Delay(|c.delays|)
    && forall k :: 0 <= k < |c.delays| ==> c.delays[k] == Delay(k)
  }

  /** With one start, any stops, and restarts by the client whose connection is gone, in every
      run: an assertion fails exactly when some timer fires late, and if none does, all is
      well. */
  lemma AbortsExactly(steps: seq<Step>)
    requires IsRun(New(), steps)
    ensures After(New(), steps).conn.aborted <==> SomeFiresLate(New(), steps)
    ensures !SomeFiresLate(New(), steps) ==> Safe(After(New(), steps))
  {
    NewInv();
    RunKeepsInv(New(), steps);
  }

  lemma {:induction false} PromptNeverLate(w: World, steps: seq<Step>)
    requires Inv(w) && IsRun(w, steps) && PromptRun(w, steps)
    ensures !SomeFiresLate(w, steps)
    decreases steps
  {
    if steps != [] {
      if steps[0].Fire? {
        NoFireBeforeReset(w, steps[0].timer);
      }
      StepKeepsInv(w, steps[0]);
      PromptNeverLate(Apply(w, steps[0]), steps[1..]);
    }
  }

  /** A loop that runs every posted reset within 500 ms keeps the connector safe. */
  lemma ConnectorSafe(steps: seq<Step>)
    requires IsRun(New(), steps) && PromptRun(New(), steps)
    ensures Safe(After(New(), steps))
  {
    NewInv();
    PromptNeverLate(New(), steps);
    AbortsExactly(steps);
  }

  lemma StoppedStep(w: World, step: Step)
    requires Inv(w) && Enabled(w, step)
    requires w.started && !w.conn.connect && w.conn.live.None?
    ensures var w' := Apply(w, step);
            && w'.started && !w'.conn.connect && w'.conn.live.None? && w'.conn.nextSock == w.conn.nextSock
            && forall sock <- w'.conn.fates :: w'.conn.fates[sock] == Handed ==>
                 sock in w.conn.fates && w.conn.fates[sock] == Handed
  {
  }

  /** stop() is final. Once it has been called on a started connector with no connection handed
      over, then whatever attempts and timers were under way: no socket is created again, and
      none is handed over. */
  lemma {:induction false} StopIsFinal(w: World, steps: seq<Step>)
    requires Inv(w) && IsRun(w, steps)
    requires w.started && !w.conn.connect && w.conn.live.None?
    ensures var w' := After(w, steps);
            && w'.conn.nextSock == w.conn.nextSock
            && forall sock <- w'.conn.fates :: w'.conn.fates[sock] == Handed ==>
                 sock in w.conn.fates && w.conn.fates[sock] == Handed
    decreases steps
  {
    if steps != [] {
      StepKeepsInv(w, steps[0]);
      StoppedStep(w, steps[0]);
      StopIsFinal(Apply(w, steps[0]), steps[1..]);
    }
  }

  /** A loop that is late: an attempt fails, another callback of the same round takes half a
      second, and the retry timer fires in that round, before the reset. */
  lemma LateLoopAborts()
    ensures var w1 := Apply(New(), Start(true, InProgress));
            var w2 := Apply(w1, Poll(true));
            Enabled(w2, ChannelEvent(true, false, SocketError))
            && var w3 := Apply(w2, ChannelEvent(true, false, SocketError));
            var w4 := Apply(w3, Tick(500));
            Enabled(w4, Fire(0, InProgress)) && Apply(w4, Fire(0, InProgress)).conn.aborted
  {
    var w2 := Apply(Apply(New(), Start(true, InProgress)), Poll(true));
    assert w2.active && w2.conn.state == Connecting && w2.conn.channel == Some(0) && w2.conn.timers == [];
    var w3 := Apply(w2, ChannelEvent(true, false, SocketError));
    assert w3.conn == HandleError(w2.conn) && w3.conn.timers == [500] && w3.conn.channel == Some(0);
    assert w3.conn.connect && w3.conn.state == Disconnected;
    assert Without([500], 0) == [];
  }

  // ---------------------------------------------------------------- the object

  /** `loop` stands for what the connector sees of its loop: the queue, the timers, the clock. */
  class Connector {
    var connect: bool
    var state: State
    var channel: Option<nat>
    var registered: bool
    var retryDelayMs: nat
    var nextSock: nat
    var pending: seq<Functor>
    var timers: seq<nat>
    var clock: nat
    ghost var fates: map<nat, Fate>
    ghost var twice: bool
    ghost var live: Option<nat>
    ghost var resetAt: nat
    ghost var delays: seq<nat>

    ghost function Value(): Conn
      reads this
    {
      Conn(connect, state, channel, registered, retryDelayMs, nextSock, fates, twice, live, pending, timers, clock,
           resetAt, delays, false)
    }

    constructor ()
      ensures Value() == New().conn
    {
      connect, state, channel, registered := false, Disconnected, None, false;
      retryDelayMs, nextSock, pending, timers, clock := INIT_RETRY_DELAY_MS, 0, [], [], 0;
      fates, twice, live, resetAt, delays := map[], false, None, 0, [];
    }

    ghost method NoteFate(sock: nat, fate: Fate)
      modifies this`fates, this`twice
      ensures Value() == Decide(old(Value()), sock, fate)
    {
      if sock in fates {
        twice := true;
      } else {
        fates := fates[sock := fate];
      }
    }

    method DoRetry(sock: nat)
      modifies this
      ensures Value() == Retry(old(Value()), sock)
    {
      NoteFate(sock, Closed);
      state := Disconnected;
      if connect {
        timers := timers + [clock + retryDelayMs];
        delays := delays + [retryDelayMs];
        retryDelayMs := retryDelayMs * 2;
        if retryDelayMs > MAX_RETRY_DELAY_MS {
          retryDelayMs := MAX_RETRY_DELAY_MS;
        }
      }
    }

    /** Connector::connecting, whose precondition is its assertion. */
    method BeginConnecting(sock: nat)
      requires channel.None?
      modifies this
      ensures Value() == old(Value()).(state := Connecting, channel := Some(sock), registered := true)
    {
      state := Connecting;
      channel := Some(sock);
      registered := true;
    }

    method DoConnect(answer: Answer)
      requires answer == InProgress ==> channel.None?
      modifies this
      ensures Value() == Connect(old(Value()), answer)
    {
      var sock := nextSock;
      nextSock := nextSock + 1;
      ghost var c := Value();
      match answer {
        case InProgress =>
          BeginConnecting(sock);
          assert Value() == c.(state := Connecting, channel := Some(sock), registered := true);
        case Busy =>
          DoRetry(sock);
          assert Value() == Retry(c, sock);
        case Hopeless =>
          NoteFate(sock, Closed);
          assert Value() == Decide(c, sock, Closed);
      }
    }

    method DoStartInLoop(answer: Answer)
      requires state == Disconnected && (connect && answer == InProgress ==> channel.None?)
      modifies this
      ensures Value() == StartInTheLoop(old(Value()), answer)
    {
      if connect {
        DoConnect(answer);
      }
    }

    method DoRestart(answer: Answer)
      requires answer == InProgress ==> channel.None?
      modifies this
      ensures Value() == Restart(old(Value()), answer)
    {
      state := Disconnected;
      retryDelayMs := INIT_RETRY_DELAY_MS;
      delays := [];
      connect := true;
      assert Value() == old(Value()).(state := Disconnected, retryDelayMs := INIT_RETRY_DELAY_MS, connect := true,
                                      delays := []);
      DoStartInLoop(answer);
    }

    method DoStop()
      modifies this`connect, this`pending
      ensures Value() == Post(old(Value()).(connect := false), StopInLoop)
    {
      connect := false;
      pending := pending + [StopInLoop];
    }

    method RemoveAndResetChannel() returns (sock: nat)
      requires channel.Some? && registered
      modifies this`registered, this`pending, this`resetAt
      ensures Value() == Remove(old(Value())) && channel == Some(sock)
    {
      registered := false;
      sock := channel.value;
      pending := pending + [ResetChannel];
      resetAt := clock;
    }

    method DoStopInLoop()
      requires state == Connecting ==> channel.Some? && registered
      modifies this
      ensures Value() == StopInTheLoop(old(Value()))
    {
      if state == Connecting {
        state := Disconnected;
        var sock := RemoveAndResetChannel();
        DoRetry(sock);
      }
    }

    method DoResetChannel()
      modifies this`channel
      ensures Value() == old(Value()).(channel := None)
    {
      channel := None;
    }

    method DoHandleWrite(outcome: Outcome)
      requires state == Connecting ==> channel.Some? && registered
      requires state != Connecting ==> state == Disconnected
      modifies this
      ensures Value() == HandleWrite(old(Value()), outcome)
    {
      if state == Connecting {
        var sock := RemoveAndResetChannel();
        if outcome == SocketError {
          DoRetry(sock);
        } else if outcome == SelfConnect {
          DoRetry(sock);
        } else {
          state := Connected;
          if connect {
            NoteFate(sock, Handed);
            live := Some(sock);
          } else {
            NoteFate(sock, Closed);
          }
        }
      }
    }

    method DoHandleError()
      requires state == Connecting ==> channel.Some? && registered
      modifies this
      ensures Value() == HandleError(old(Value()))
    {
      if state == Connecting {
        var sock := RemoveAndResetChannel();
        DoRetry(sock);
      }
    }
  }
}
