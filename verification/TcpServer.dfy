/** networker/net/TcpServer.cpp over one base loop and any number of I/O loops.

    `Server` is the whole system: every loop with its functor queue, every connection ever
    accepted, and the server's map. `Apply` is one atomic step of it; `Enabled` says when a
    step can happen and what the kernel may answer. A C++ assertion that would fail sets
    `aborted`. */
module TcpServers {
  import opened Buffers
  import opened Channels
  import opened Options
  import opened TcpConnections

  type ConnId = nat
  type LoopId = nat

  /** The loop that accepts; the server's own functions run on it. */
  const BASE: LoopId := 0

  datatype Functor =
    | Establish(c: ConnId)                      // TcpConnection::connectEstablished
    | Destroy(c: ConnId)                        // TcpConnection::connectDestroyed
    | Remove(c: ConnId)                         // TcpServer::removeConnectionInLoop
    | SendTo(c: ConnId, data: seq<Byte>)        // sendInLoop, bound to a bare pointer
    | ShutdownOf(c: ConnId)                     // shutdownInLoop, bound to a bare pointer
    | ForceCloseOf(c: ConnId)
    | UserCallback(c: ConnId)                   // write-complete and high-water callbacks

  datatype Phase = Polling | Handling | Functors

  datatype Active = Active(c: ConnId, todo: seq<Callback>)

  datatype Loop = Loop(phase: Phase, active: seq<Active>, batch: seq<Functor>, pending: seq<Functor>)
  {
    /** Everything queued and not yet run, in order. */
    function Queue(): seq<Functor> { batch + pending }
  }

  datatype Entry = Entry(loop: LoopId, conn: Conn)

  datatype Server = Server(
    loops: seq<Loop>,
    conns: map<ConnId, Entry>,
    connections: set<ConnId>,   // connections_, keyed by the number in the name
    nextConnId: ConnId,
    aborted: bool)

  // ---------------------------------------------------------------- the parts of a step

  function Post(s: Server, l: LoopId, f: Functor): Server
    requires l < |s.loops|
  {
    s.(loops := s.loops[l := s.loops[l].(pending := s.loops[l].pending + [f])])
  }

  function SetConn(s: Server, c: ConnId, conn: Conn): Server
    requires c in s.conns
  {
    s.(conns := s.conns[c := s.conns[c].(conn := conn)])
  }

  function Abort(s: Server): Server {
    s.(aborted := true)
  }

  predicate Known(s: Server, c: ConnId) {
    c in s.conns && s.conns[c].loop < |s.loops| && BASE < |s.loops|
  }

  /** removeConnectionInLoop: the map gives up the connection, and the connection's own loop
      is asked, by queueInLoop and never at once, to destroy it. */
  function RemoveConnectionInLoop(s: Server, c: ConnId): Server
    requires Known(s, c)
  {
    if c !in s.connections then Abort(s)
    else
      var conn := s.conns[c].conn;
      var s1 := SetConn(s.(connections := s.connections - {c}), c, conn.(history := conn.history + [Erased]));
      Post(s1, s.conns[c].loop, Destroy(c))
  }

  /** removeConnection, the close callback, called on the connection's own loop: runInLoop. */
  function RemoveConnection(s: Server, c: ConnId): Server
    requires Known(s, c)
  {
    if s.conns[c].loop == BASE then RemoveConnectionInLoop(s, c) else Post(s, BASE, Remove(c))
  }

  function Emit(s: Server, c: ConnId, e: Effect): Server
    requires Known(s, c)
  {
    var l := s.conns[c].loop;
    match e
    case QueueWriteComplete => Post(s, l, UserCallback(c))
    case QueueHighWater(_) => Post(s, l, UserCallback(c))
    case QueueForceClose => Post(s, l, ForceCloseOf(c))
    case QueueSend(data) => Post(s, l, SendTo(c, data))
    case QueueShutdown => Post(s, l, ShutdownOf(c))
    case InvokeClose => RemoveConnection(s, c)
  }

  function EmitAll(s: Server, c: ConnId, es: seq<Effect>): (s': Server)
    requires Known(s, c)
    decreases es
  {
    if es == [] then s
    else
      var s1 := Emit(s, c, es[0]);
      if Known(s1, c) then EmitAll(s1, c, es[1..]) else s1
  }

  lemma EmitOne(s: Server, c: ConnId, es: seq<Effect>)
    requires Known(s, c) && |es| == 1
    ensures EmitAll(s, c, es) == Emit(s, c, es[0])
  {
    assert es[1..] == [];
  }

  function Absorb(s: Server, c: ConnId, o: Outcome): Server
    requires Known(s, c)
  {
    EmitAll(SetConn(s, c, o.conn), c, o.effects)
  }

  /** newConnection: runs on the base loop, inside the acceptor's callback. */
  function NewConnection(s: Server, ioLoop: LoopId): Server
    requires ioLoop < |s.loops|
  {
    var c := s.nextConnId;
    var conn := Fresh(true, Some(64 * 1024 * 1024));
    var s1 := s.(conns := s.conns[c := Entry(ioLoop, conn)], connections := s.connections + {c}, nextConnId := c + 1);
    if ioLoop == BASE then SetConn(s1, c, ConnectEstablished(conn)) else Post(s1, ioLoop, Establish(c))
  }

  function RunCallback(s: Server, c: ConnId, cb: Callback, rr: ReadResult, wr: WriteResult): Server
    requires Known(s, c) && rr.Legal()
    requires cb == OnWrite ==> MayAnswer(s.conns[c].conn, |s.conns[c].conn.output|, wr)
  {
    var conn := s.conns[c].conn;
    match cb
    case OnClose => if Live(conn) then Absorb(s, c, HandleClose(conn)) else Abort(s)
    case OnError => s
    case OnRead => if rr.EndOfFile? && !Live(conn) then Abort(s) else Absorb(s, c, HandleRead(conn, rr))
    case OnWrite => Absorb(s, c, HandleWrite(conn, wr))
  }

  /** removeChannel's assertion: while events are being handled, only the channel being
      handled, or one with no event in this round, may go. */
  predicate MayRemoveChannel(lp: Loop, c: ConnId) {
    lp.phase == Handling ==>
      (lp.active != [] && lp.active[0].c == c) || forall a <- lp.active :: a.c != c
  }

  function RunFunctor(s: Server, l: LoopId, f: Functor, wr: WriteResult): Server
    requires l < |s.loops| && Known(s, f.c)
    requires f.SendTo? ==> MayAnswer(s.conns[f.c].conn, |f.data|, wr)
  {
    var conn := s.conns[f.c].conn;
    match f
    case Establish(c) => if conn.state == Connecting then SetConn(s, c, ConnectEstablished(conn)) else Abort(s)
    case Destroy(c) =>
      if ConnectDestroyedPrefix(conn).interest == NONE_EVENT && MayRemoveChannel(s.loops[l], c)
      then SetConn(s, c, ConnectDestroyed(conn)) else Abort(s)
    case Remove(c) => RemoveConnectionInLoop(s, c)
    case SendTo(c, data) => Absorb(s, c, SendInLoop(conn, data, wr))
    case ShutdownOf(c) => SetConn(s, c, ShutdownInLoop(conn))
    case ForceCloseOf(c) => Absorb(s, c, ForceCloseInLoop(conn))
    case UserCallback(_) => s
  }

  // ---------------------------------------------------------------- steps

  datatype Report = Report(c: ConnId, revents: Revents)

  /** Who calls: the thread of a loop, or a thread that runs none of them. */
  datatype Caller = LoopThread(l: LoopId) | OtherThread

  datatype Step =
    | Poll(l: LoopId, reports: seq<Report>)
    | NextCallback(l: LoopId, rr: ReadResult, wr: WriteResult)
    | NextActive(l: LoopId)
    | Accept(ioLoop: LoopId)
    | EndEvents(l: LoopId)
    | NextFunctor(l: LoopId, wr: WriteResult)
    | EndFunctors(l: LoopId)
    | UserSend(who: Caller, c: ConnId, data: seq<Byte>, wr: WriteResult)
    | UserShutdown(who: Caller, c: ConnId)
    | UserForceClose(who: Caller, c: ConnId)
    | UserTakes(c: ConnId, n: nat)

  function ToActive(reports: seq<Report>): (a: seq<Active>)
    ensures |a| == |reports|
    ensures forall i :: 0 <= i < |a| ==> a[i] == Active(reports[i].c, Dispatch(reports[i].revents))
  {
    seq(|reports|, i requires 0 <= i < |reports| => Active(reports[i].c, Dispatch(reports[i].revents)))
  }

  /** The poller reports channels that ask for something, each once, and never an urgent
      event together with a hang-up without input. */
  predicate Reportable(s: Server, l: LoopId, reports: seq<Report>) {
    && (forall r <- reports ::
          && r.c in s.conns && s.conns[r.c].loop == l
          && s.conns[r.c].conn.interest != NONE_EVENT
          && Deliverable(r.revents, s.conns[r.c].conn.interest)
          && !(r.revents.pollHup && !r.revents.pollIn && r.revents.pollPri))
    && (forall i, j :: 0 <= i < j < |reports| ==> reports[i].c != reports[j].c)
  }

  /** A thread that runs user code: any foreign one, or a loop's own while it is not polling. */
  predicate CanCall(s: Server, who: Caller) {
    who.LoopThread? ==> who.l < |s.loops| && s.loops[who.l].phase != Polling
  }

  predicate Enabled(s: Server, step: Step) {
    match step
    case Poll(l, reports) => l < |s.loops| && s.loops[l].phase == Polling && Reportable(s, l, reports)
    case NextCallback(l, rr, wr) =>
      && l < |s.loops| && s.loops[l].active != [] && s.loops[l].active[0].todo != []
      && Known(s, s.loops[l].active[0].c) && rr.Legal()
      && (s.loops[l].active[0].todo[0] == OnWrite ==>
            var conn := s.conns[s.loops[l].active[0].c].conn; MayAnswer(conn, |conn.output|, wr))
    case NextActive(l) => l < |s.loops| && s.loops[l].active != [] && s.loops[l].active[0].todo == []
    case Accept(ioLoop) => ioLoop < |s.loops| && s.loops[BASE].phase == Handling
    case EndEvents(l) => l < |s.loops| && s.loops[l].phase == Handling && s.loops[l].active == []
    case NextFunctor(l, wr) =>
      && l < |s.loops| && s.loops[l].phase == Functors && s.loops[l].batch != []
      && Known(s, s.loops[l].batch[0].c)
      && (var f := s.loops[l].batch[0]; f.SendTo? ==> MayAnswer(s.conns[f.c].conn, |f.data|, wr))
    case EndFunctors(l) => l < |s.loops| && s.loops[l].phase == Functors && s.loops[l].batch == []
    case UserSend(who, c, data, wr) => CanCall(s, who) && Known(s, c) && MayAnswer(s.conns[c].conn, |data|, wr)
    case UserShutdown(who, c) => CanCall(s, who) && Known(s, c)
    case UserForceClose(who, c) => CanCall(s, who) && Known(s, c)
    case UserTakes(c, n) =>
      Known(s, c) && CanCall(s, LoopThread(s.conns[c].loop)) && s.conns[c].conn.state != Connecting
      && n <= |s.conns[c].conn.input|
  }

  function SetLoop(s: Server, l: LoopId, lp: Loop): Server
    requires l < |s.loops|
  {
    s.(loops := s.loops[l := lp])
  }

  function Apply(s: Server, step: Step): Server
    requires Enabled(s, step)
  {
    match step
    case Poll(l, reports) => SetLoop(s, l, s.loops[l].(phase := Handling, active := ToActive(reports)))
    case NextCallback(l, rr, wr) =>
      var lp := s.loops[l];
      var a := lp.active[0];
      RunCallback(SetLoop(s, l, lp.(active := [a.(todo := a.todo[1..])] + lp.active[1..])), a.c, a.todo[0], rr, wr)
    case NextActive(l) => SetLoop(s, l, s.loops[l].(active := s.loops[l].active[1..]))
    case Accept(ioLoop) => NewConnection(s, ioLoop)
    case EndEvents(l) =>
      SetLoop(s, l, s.loops[l].(phase := Functors, batch := s.loops[l].pending, pending := []))
    case NextFunctor(l, wr) =>
      var f := s.loops[l].batch[0];
      RunFunctor(SetLoop(s, l, s.loops[l].(batch := s.loops[l].batch[1..])), l, f, wr)
    case EndFunctors(l) => SetLoop(s, l, s.loops[l].(phase := Polling))
    case UserSend(who, c, data, wr) =>
      Absorb(s, c, Send(s.conns[c].conn, who == LoopThread(s.conns[c].loop), data, wr))
    case UserShutdown(who, c) => Absorb(s, c, Shutdown(s.conns[c].conn, who == LoopThread(s.conns[c].loop)))
    case UserForceClose(who, c) => Absorb(s, c, ForceClose(s.conns[c].conn))
    case UserTakes(c, n) => SetConn(s, c, TakeInput(s.conns[c].conn, n))
  }

  function Init(n: nat): Server {
    Server(seq(n + 1, _ => Loop(Polling, [], [], [])), map[], {}, 1, false)
  }

  // ---------------------------------------------------------------- the invariant

  const LIFE: seq<Life> := [Up, Down, Erased, Destroyed]

  /** The functors of one connection, in queue order. */
  function Proj(q: seq<Functor>, c: ConnId): seq<Functor> {
    if q == [] then [] else (if q[0].c == c then [q[0]] else []) + Proj(q[1..], c)
  }

  predicate Ordinary(p: seq<Functor>) {
    forall f <- p :: !f.Establish? && !f.Destroy? && !f.Remove?
  }

  /** What the connection's own loop still has to run for it, by stage of its life. */
  predicate OwnQueue(p: seq<Functor>, stage: nat, c: ConnId) {
    if stage == 0 then p == [Establish(c)]
    else if stage <= 2 then Ordinary(p)
    else if stage == 3 then p != [] && p[|p| - 1] == Destroy(c) && Ordinary(p[..|p| - 1])
    else p == []
  }

  predicate QueuesOk(s: Server, c: ConnId)
    requires Known(s, c)
  {
    var e := s.conns[c];
    var stage := |e.conn.history|;
    && (stage == 2 ==> e.loop != BASE)
    && forall l :: 0 <= l < |s.loops| ==>
         var p := Proj(s.loops[l].Queue(), c);
         if l == e.loop then OwnQueue(p, stage, c)
         else p == if l == BASE && stage == 2 then [Remove(c)] else []
  }

  /** State, interest and map membership follow from the stage. */
  ghost predicate StageOk(s: Server, c: ConnId)
    requires Known(s, c)
  {
    var conn := s.conns[c].conn;
    var stage := |conn.history|;
    && stage <= 4 && conn.history == LIFE[..stage]
    && (conn.state == Connecting <==> stage == 0)
    && (Live(conn) <==> stage == 1)
    && (conn.interest.read <==> stage == 1)
    && (stage == 0 ==> conn.output == [] && conn.accepted == [] && conn.wire == [] && !conn.interest.write)
    && (conn.added <==> 1 <= stage <= 3)
    && (c in s.connections <==> stage <= 2)
    && StreamInv(conn)
  }

  ghost predicate ConnOk(s: Server, c: ConnId) {
    Known(s, c) && StageOk(s, c) && QueuesOk(s, c)
  }

  predicate Closes(cb: Callback) {
    cb == OnClose || cb == OnRead
  }

  /** A connection with an event to handle has its channel in the loop, and at most one of
      its remaining callbacks can close it; while one remains, it is live. */
  predicate ActiveOk(s: Server, l: LoopId, a: Active) {
    && Known(s, a.c) && s.conns[a.c].loop == l
    && s.conns[a.c].conn.added
    && (forall i, j :: 0 <= i < j < |a.todo| ==> !(Closes(a.todo[i]) && Closes(a.todo[j])))
    && ((exists cb <- a.todo :: Closes(cb)) ==> Live(s.conns[a.c].conn))
  }

  predicate LoopOk(s: Server, l: LoopId)
    requires l < |s.loops|
  {
    var lp := s.loops[l];
    && (lp.phase != Handling ==> lp.active == [])
    && (lp.phase != Functors ==> lp.batch == [])
    && (forall i, j :: 0 <= i < j < |lp.active| ==> lp.active[i].c != lp.active[j].c)
    && (forall i :: 0 <= i < |lp.active| ==> ActiveOk(s, l, lp.active[i]))
  }

  ghost predicate Inv(s: Server) {
    && BASE < |s.loops|
    && !s.aborted
    && (forall c <- s.conns :: ConnOk(s, c) && c < s.nextConnId)
    && (forall c <- s.connections :: c in s.conns)
    && (forall l, c :: 0 <= l < |s.loops| && c !in s.conns ==> Proj(s.loops[l].Queue(), c) == [])
    && (forall l :: 0 <= l < |s.loops| ==> LoopOk(s, l))
  }

  // ---------------------------------------------------------------- projections

  lemma {:induction false} ProjAppend(p: seq<Functor>, q: seq<Functor>, c: ConnId)
    ensures Proj(p + q, c) == Proj(p, c) + Proj(q, c)
  {
    if p == [] {
      assert p + q == q;
    } else {
      assert (p + q)[0] == p[0] && (p + q)[1..] == p[1..] + q;
      ProjAppend(p[1..], q, c);
      var first := if p[0].c == c then [p[0]] else [];
      assert first + (Proj(p[1..], c) + Proj(q, c)) == (first + Proj(p[1..], c)) + Proj(q, c);
    }
  }

  lemma ProjPost(lp: Loop, f: Functor, c: ConnId)
    ensures Proj(lp.(pending := lp.pending + [f]).Queue(), c)
            == Proj(lp.Queue(), c) + if f.c == c then [f] else []
  {
    ProjAppend(lp.Queue(), [f], c);
    assert lp.batch + (lp.pending + [f]) == lp.Queue() + [f];
    assert Proj([f], c) == (if f.c == c then [f] else []) + Proj([], c);
  }

  lemma ProjPop(lp: Loop, c: ConnId)
    requires lp.batch != []
    ensures Proj(lp.Queue(), c)
            == (if lp.batch[0].c == c then [lp.batch[0]] else []) + Proj(lp.(batch := lp.batch[1..]).Queue(), c)
  {
    assert lp.Queue()[1..] == lp.batch[1..] + lp.pending;
  }

  // ---------------------------------------------------------------- framing

  /** Nothing that the invariant says about c differs between the two systems. */
  ghost predicate Same(s: Server, s': Server, c: ConnId) {
    && |s.loops| == |s'.loops|
    && (c in s.conns <==> c in s'.conns)
    && (c in s.conns ==> s.conns[c] == s'.conns[c])
    && (c in s.connections <==> c in s'.connections)
    && forall l :: 0 <= l < |s.loops| ==> Proj(s.loops[l].Queue(), c) == Proj(s'.loops[l].Queue(), c)
  }

  ghost predicate SameActive(s: Server, s': Server) {
    && |s.loops| == |s'.loops|
    && forall l :: 0 <= l < |s.loops| ==>
         && s'.loops[l].phase == s.loops[l].phase
         && s'.loops[l].active == s.loops[l].active
         && (s'.loops[l].batch == s.loops[l].batch || s.loops[l].phase == Functors)
  }

  lemma SameKeepsConnOk(s: Server, s': Server, c: ConnId)
    requires ConnOk(s, c) && Same(s, s', c)
    ensures ConnOk(s', c)
  {
  }

  lemma LoopOkFrame(s: Server, s': Server, l: LoopId)
    requires l < |s.loops| == |s'.loops| && LoopOk(s, l)
    requires s'.loops[l].(pending := s.loops[l].pending) == s.loops[l]
    requires forall c :: c in s.conns ==> c in s'.conns && s'.conns[c] == s.conns[c]
    ensures LoopOk(s', l)
  {
    forall i | 0 <= i < |s'.loops[l].active| ensures ActiveOk(s', l, s'.loops[l].active[i]) {
      assert ActiveOk(s, l, s.loops[l].active[i]);
    }
  }

  /** A step that concerns c alone keeps the invariant when it keeps it for c. */
  lemma Recombine(s: Server, s': Server, c: ConnId)
    requires Inv(s) && c in s.conns && c in s'.conns
    requires |s'.loops| == |s.loops| && !s'.aborted && s'.nextConnId == s.nextConnId
    requires forall c' :: c' != c ==> Same(s, s', c')
    requires ConnOk(s', c)
    requires forall l :: 0 <= l < |s'.loops| ==> LoopOk(s', l)
    ensures Inv(s')
  {
    forall c' | c' in s'.conns
      ensures ConnOk(s', c') && c' < s'.nextConnId
    {
      if c' != c {
        assert Same(s, s', c');
        assert ConnOk(s, c');
      }
    }
    forall c' | c' in s'.connections
      ensures c' in s'.conns
    {
      if c' != c { assert Same(s, s', c'); }
    }
    forall l, c' | 0 <= l < |s'.loops| && c' !in s'.conns
      ensures Proj(s'.loops[l].Queue(), c') == []
    {
      assert Same(s, s', c');
    }
  }

  ghost predicate NoCloses(s: Server, c: ConnId) {
    forall l, i :: 0 <= l < |s.loops| && 0 <= i < |s.loops[l].active| && s.loops[l].active[i].c == c ==>
      forall cb <- s.loops[l].active[i].todo :: !Closes(cb)
  }

  ghost predicate NoActive(s: Server, c: ConnId) {
    forall l, i :: 0 <= l < |s.loops| && 0 <= i < |s.loops[l].active| ==> s.loops[l].active[i].c != c
  }

  lemma LoopsKept(s: Server, s': Server, c: ConnId)
    requires forall l :: 0 <= l < |s.loops| ==> LoopOk(s, l)
    requires SameActive(s, s') && c in s.conns && c in s'.conns && s'.conns[c].loop == s.conns[c].loop
    requires forall c' :: c' != c ==> Same(s, s', c')
    requires (s.conns[c].conn.added ==> s'.conns[c].conn.added) || NoActive(s, c)
    requires NoCloses(s, c) || (Live(s.conns[c].conn) ==> Live(s'.conns[c].conn))
    ensures forall l :: 0 <= l < |s'.loops| ==> LoopOk(s', l)
  {
    forall l | 0 <= l < |s'.loops|
      ensures LoopOk(s', l)
    {
      assert LoopOk(s, l);
      forall i | 0 <= i < |s'.loops[l].active|
        ensures ActiveOk(s', l, s'.loops[l].active[i])
      {
        var a := s.loops[l].active[i];
        assert ActiveOk(s, l, a);
        if a.c != c { assert Same(s, s', a.c); }
      }
    }
  }

  lemma PostFrame(s: Server, l: LoopId, f: Functor, c: ConnId)
    requires l < |s.loops| && f.c != c
    ensures Same(s, Post(s, l, f), c)
  {
    ProjPost(s.loops[l], f, c);
  }

  // ---------------------------------------------------------------- what each part keeps

  /** A change inside a connection that leaves its stage alone. */
  ghost predicate Quiet(c: Conn, c': Conn) {
    && c'.history == c.history && c'.added == c.added
    && (c'.state == Connecting <==> c.state == Connecting)
    && (Live(c') <==> Live(c))
    && c'.interest.read == c.interest.read
    && StreamInv(c')
    && (c.state == Connecting ==> c' == c)
  }

  lemma QuietKeepsInv(s: Server, c: ConnId, conn: Conn)
    requires Inv(s) && c in s.conns && Quiet(s.conns[c].conn, conn)
    ensures Inv(SetConn(s, c, conn))
  {
    var s' := SetConn(s, c, conn);
    assert ConnOk(s, c);
    assert QueuesOk(s', c);
    LoopsKept(s, s', c);
    Recombine(s, s', c);
  }

  predicate OrdinaryFunctor(f: Functor) {
    f.SendTo? || f.ShutdownOf? || f.ForceCloseOf? || f.UserCallback?
  }

  lemma PostedOk(s: Server, c: ConnId, f: Functor)
    requires ConnOk(s, c) && |s.conns[c].conn.history| == 1
    requires OrdinaryFunctor(f) && f.c == c
    ensures ConnOk(Post(s, s.conns[c].loop, f), c)
  {
    ProjPost(s.loops[s.conns[c].loop], f, c);
  }

  lemma PostKeepsInv(s: Server, c: ConnId, f: Functor)
    requires Inv(s) && c in s.conns && |s.conns[c].conn.history| == 1
    requires OrdinaryFunctor(f) && f.c == c
    ensures Inv(Post(s, s.conns[c].loop, f))
  {
    assert ConnOk(s, c);
    var l := s.conns[c].loop;
    var s' := Post(s, l, f);
    forall c' | c' != c ensures Same(s, s', c') {
      PostFrame(s, l, f, c');
    }
    PostedOk(s, c, f);
    assert SameActive(s, s');
    LoopsKept(s, s', c);
    Recombine(s, s', c);
  }

  /** The connection comes off the map and its destruction is queued on its own loop. The
      last two requirements are what the two callers establish: the connection is closed and
      nothing else is left of its removal. */
  lemma RemoveKeepsInv(s: Server, s1: Server, c: ConnId)
    requires Inv(s) && c in s.conns && Known(s1, c) && s1.conns[c].loop == s.conns[c].loop
    requires SameActive(s, s1) && s1.nextConnId == s.nextConnId && !s1.aborted
    requires forall c' :: c' != c ==> Same(s, s1, c')
    requires NoCloses(s, c) && Closed(s1, c)
    ensures Inv(RemoveConnectionInLoop(s1, c))
  {
    var s' := RemoveConnectionInLoop(s1, c);
    forall c' | c' != c ensures Same(s, s', c') {
      RemovedFrame(s, s1, c, c');
    }
    RemovedOk(s1, c);
    LoopsKept(s, s', c);
    Recombine(s, s', c);
  }

  lemma RemovedFrame(s: Server, s1: Server, c: ConnId, c': ConnId)
    requires Known(s1, c) && c' != c && Same(s, s1, c')
    ensures Same(s, RemoveConnectionInLoop(s1, c), c')
  {
    ProjPost(s1.loops[s1.conns[c].loop], Destroy(c), c');
  }

  /** Down, still in the map, and nothing queued that removes or destroys it. */
  ghost predicate Closed(s: Server, c: ConnId) {
    && Known(s, c) && |s.conns[c].conn.history| == 2 && StageOk(s, c)
    && forall l :: 0 <= l < |s.loops| ==>
         var p := Proj(s.loops[l].Queue(), c);
         if l == s.conns[c].loop then Ordinary(p) else p == []
  }

  lemma RemovedOk(s: Server, c: ConnId)
    requires Closed(s, c)
    ensures ConnOk(RemoveConnectionInLoop(s, c), c)
  {
    var l := s.conns[c].loop;
    var s' := RemoveConnectionInLoop(s, c);
    ProjPost(s.loops[l], Destroy(c), c);
    var p := Proj(s.loops[l].Queue(), c);
    assert (p + [Destroy(c)])[..|p|] == p;
    assert OwnQueue(p + [Destroy(c)], 3, c);
  }

  lemma CloseKeepsInv(s: Server, c: ConnId)
    requires Inv(s) && c in s.conns && Live(s.conns[c].conn) && NoCloses(s, c)
    ensures Known(s, c) && Inv(Absorb(s, c, HandleClose(s.conns[c].conn)))
  {
    ClosedStage(s, c);
    var o := HandleClose(s.conns[c].conn);
    var s1 := SetConn(s, c, o.conn);
    EmitOne(s1, c, o.effects);
    if s.conns[c].loop == BASE {
      CloseHereKeepsInv(s, s1, c);
    } else {
      CloseAwayKeepsInv(s, s1, c);
    }
  }

  /** handleClose leaves the connection down, and still in the map. */
  lemma ClosedStage(s: Server, c: ConnId)
    requires Inv(s) && c in s.conns && Live(s.conns[c].conn)
    ensures Known(s, c)
    ensures var s1 := SetConn(s, c, HandleClose(s.conns[c].conn).conn);
            Known(s1, c) && |s1.conns[c].conn.history| == 2 && StageOk(s1, c)
  {
    assert ConnOk(s, c);
    assert HandleClose(s.conns[c].conn).conn.history == LIFE[..2];
  }

  lemma CloseHereKeepsInv(s: Server, s1: Server, c: ConnId)
    requires Inv(s) && c in s.conns && Live(s.conns[c].conn) && NoCloses(s, c)
    requires s1 == SetConn(s, c, HandleClose(s.conns[c].conn).conn) && Known(s1, c)
    requires s.conns[c].loop == BASE && |s1.conns[c].conn.history| == 2 && StageOk(s1, c)
    ensures Inv(RemoveConnectionInLoop(s1, c))
  {
    assert ConnOk(s, c);
    assert forall l :: 0 <= l < |s.loops| ==> s1.loops[l] == s.loops[l];
    assert Closed(s1, c);
    RemoveKeepsInv(s, s1, c);
  }

  lemma CloseAwayKeepsInv(s: Server, s1: Server, c: ConnId)
    requires Inv(s) && c in s.conns && Live(s.conns[c].conn) && NoCloses(s, c)
    requires s1 == SetConn(s, c, HandleClose(s.conns[c].conn).conn) && Known(s1, c)
    requires s.conns[c].loop != BASE && |s1.conns[c].conn.history| == 2 && StageOk(s1, c)
    ensures Inv(Post(s1, BASE, Remove(c)))
  {
    assert ConnOk(s, c);
    var s' := Post(s1, BASE, Remove(c));
    forall c' | c' != c ensures Same(s, s', c') {
      ProjPost(s1.loops[BASE], Remove(c), c');
    }
    ProjPost(s1.loops[BASE], Remove(c), c);
    assert ConnOk(s', c);
    LoopsKept(s, s', c);
    Recombine(s, s', c);
  }

  /** An outcome with at most one effect, none of them a close, on a connection whose stage
      it leaves alone. */
  lemma AbsorbKeepsInv(s: Server, c: ConnId, o: Outcome)
    requires Inv(s) && c in s.conns && Quiet(s.conns[c].conn, o.conn)
    requires |o.effects| <= 1 && InvokeClose !in o.effects
    requires o.effects != [] ==> Live(s.conns[c].conn)
    ensures Known(s, c) && Inv(Absorb(s, c, o))
  {
    assert ConnOk(s, c);
    var s1 := SetConn(s, c, o.conn);
    QuietKeepsInv(s, c, o.conn);
    if o.effects != [] {
      EmitOne(s1, c, o.effects);
      match o.effects[0] {
        case QueueWriteComplete => PostKeepsInv(s1, c, UserCallback(c));
        case QueueHighWater(_) => PostKeepsInv(s1, c, UserCallback(c));
        case QueueForceClose => PostKeepsInv(s1, c, ForceCloseOf(c));
        case QueueSend(data) => PostKeepsInv(s1, c, SendTo(c, data));
        case QueueShutdown => PostKeepsInv(s1, c, ShutdownOf(c));
      }
    }
  }

  // ---------------------------------------------------------------- every step keeps it

  /** Bookkeeping of one loop that leaves what it still has to run unchanged. */
  lemma LoopChangeKeepsInv(s: Server, l: LoopId, lp: Loop)
    requires Inv(s) && l < |s.loops|
    requires forall c :: Proj(lp.Queue(), c) == Proj(s.loops[l].Queue(), c)
    requires LoopOk(SetLoop(s, l, lp), l)
    ensures Inv(SetLoop(s, l, lp))
  {
    var s' := SetLoop(s, l, lp);
    forall c | c in s'.conns ensures ConnOk(s', c) {
      SameKeepsConnOk(s, s', c);
    }
    forall l' | 0 <= l' < |s'.loops| ensures LoopOk(s', l') {
      if l' != l { LoopOkFrame(s, s', l'); }
    }
  }

  /** The callbacks of one wake-up can close the connection once at most. */
  lemma DispatchClosesOnce(r: Revents, i: Interest)
    requires Deliverable(r, i) && !(r.pollHup && !r.pollIn && r.pollPri)
    ensures var todo := Dispatch(r);
            forall i, j :: 0 <= i < j < |todo| ==> !(Closes(todo[i]) && Closes(todo[j]))
  {
    var todo := Dispatch(r);
    assert !(OnClose in todo && OnRead in todo);
  }

  lemma ReportedOk(s: Server, s': Server, l: LoopId, r: Report)
    requires ConnOk(s, r.c) && s'.conns == s.conns && |s'.loops| == |s.loops|
    requires s.conns[r.c].loop == l && s.conns[r.c].conn.interest != NONE_EVENT
    requires Deliverable(r.revents, s.conns[r.c].conn.interest)
    requires !(r.revents.pollHup && !r.revents.pollIn && r.revents.pollPri)
    ensures ActiveOk(s', l, Active(r.c, Dispatch(r.revents)))
  {
    DispatchClosesOnce(r.revents, s.conns[r.c].conn.interest);
  }

  lemma PollKeepsInv(s: Server, l: LoopId, reports: seq<Report>)
    requires Inv(s) && Enabled(s, Poll(l, reports))
    ensures Inv(Apply(s, Poll(l, reports)))
  {
    var lp := s.loops[l].(phase := Handling, active := ToActive(reports));
    var s' := SetLoop(s, l, lp);
    assert LoopOk(s, l);
    forall i | 0 <= i < |reports| ensures ActiveOk(s', l, lp.active[i]) {
      assert reports[i] in reports;
      ReportedOk(s, s', l, reports[i]);
    }
    LoopChangeKeepsInv(s, l, lp);
  }

  lemma EndEventsKeepsInv(s: Server, l: LoopId)
    requires Inv(s) && Enabled(s, EndEvents(l))
    ensures Inv(Apply(s, EndEvents(l)))
  {
    var lp := s.loops[l];
    assert LoopOk(s, l);
    var lp' := lp.(phase := Functors, batch := lp.pending, pending := []);
    assert lp'.Queue() == lp.Queue();
    LoopChangeKeepsInv(s, l, lp');
  }

  lemma NextActiveKeepsInv(s: Server, l: LoopId)
    requires Inv(s) && Enabled(s, NextActive(l))
    ensures Inv(Apply(s, NextActive(l)))
  {
    var lp := s.loops[l];
    assert LoopOk(s, l);
    var lp' := lp.(active := lp.active[1..]);
    forall i | 0 <= i < |lp'.active| ensures ActiveOk(SetLoop(s, l, lp'), l, lp'.active[i]) {
      assert ActiveOk(s, l, lp.active[i + 1]);
    }
    LoopChangeKeepsInv(s, l, lp');
  }

  lemma EndFunctorsKeepsInv(s: Server, l: LoopId)
    requires Inv(s) && Enabled(s, EndFunctors(l))
    ensures Inv(Apply(s, EndFunctors(l)))
  {
    assert LoopOk(s, l);
    LoopChangeKeepsInv(s, l, s.loops[l].(phase := Polling));
  }

  lemma PoppedActiveOk(s: Server, s': Server, l: LoopId, a: Active)
    requires ActiveOk(s, l, a) && a.todo != [] && s'.conns == s.conns && |s'.loops| == |s.loops|
    ensures ActiveOk(s', l, a.(todo := a.todo[1..]))
    ensures Closes(a.todo[0]) ==> Live(s.conns[a.c].conn) && forall cb <- a.todo[1..] :: !Closes(cb)
  {
    assert a.todo[0] in a.todo;
    assert forall cb <- a.todo[1..] :: cb in a.todo;
    forall cb | cb in a.todo[1..] && Closes(a.todo[0]) ensures !Closes(cb) {
      var j :| 0 <= j < |a.todo[1..]| && a.todo[1..][j] == cb;
      assert a.todo[j + 1] == cb;
    }
  }

  lemma PoppedLoopOk(s: Server, l: LoopId)
    requires l < |s.loops| && LoopOk(s, l) && s.loops[l].active != [] && s.loops[l].active[0].todo != []
    ensures var a := s.loops[l].active[0];
            var lp := s.loops[l].(active := [a.(todo := a.todo[1..])] + s.loops[l].active[1..]);
            LoopOk(SetLoop(s, l, lp), l) && lp.Queue() == s.loops[l].Queue()
    ensures var a := s.loops[l].active[0];
            && ActiveOk(s, l, a)
            && (Closes(a.todo[0]) ==> Live(s.conns[a.c].conn) && forall cb <- a.todo[1..] :: !Closes(cb))
  {
    var a := s.loops[l].active[0];
    var lp := s.loops[l].(active := [a.(todo := a.todo[1..])] + s.loops[l].active[1..]);
    var s0 := SetLoop(s, l, lp);
    assert ActiveOk(s, l, a);
    PoppedActiveOk(s, s0, l, a);
    forall i | 0 <= i < |lp.active| ensures ActiveOk(s0, l, lp.active[i]) {
      assert ActiveOk(s, l, s.loops[l].active[i]);
    }
  }

  /** Taking one callback off the connection being handled. */
  lemma PopCallback(s: Server, l: LoopId) returns (s0: Server, c: ConnId)
    requires Inv(s) && l < |s.loops| && s.loops[l].active != [] && s.loops[l].active[0].todo != []
    ensures c == s.loops[l].active[0].c
    ensures var a := s.loops[l].active[0];
            s0 == SetLoop(s, l, s.loops[l].(active := [a.(todo := a.todo[1..])] + s.loops[l].active[1..]))
    ensures Inv(s0) && c in s0.conns && s0.conns[c].conn.added
    ensures Closes(s.loops[l].active[0].todo[0]) ==> Live(s0.conns[c].conn) && NoCloses(s0, c)
  {
    var a := s.loops[l].active[0];
    var lp := s.loops[l].(active := [a.(todo := a.todo[1..])] + s.loops[l].active[1..]);
    c, s0 := a.c, SetLoop(s, l, lp);
    PoppedLoopOk(s, l);
    LoopChangeKeepsInv(s, l, lp);
    if Closes(a.todo[0]) {
      OnlyActiveHere(s0, l, c);
    }
  }

  /** A connection has events on its own loop only, and there in one place. */
  lemma OnlyActiveHere(s: Server, l: LoopId, c: ConnId)
    requires l < |s.loops| && forall l' :: 0 <= l' < |s.loops| ==> LoopOk(s, l')
    requires s.loops[l].active != [] && s.loops[l].active[0].c == c
    requires forall cb <- s.loops[l].active[0].todo :: !Closes(cb)
    ensures NoCloses(s, c)
  {
    assert LoopOk(s, l) && ActiveOk(s, l, s.loops[l].active[0]);
    forall l', i | 0 <= l' < |s.loops| && 0 <= i < |s.loops[l'].active| && s.loops[l'].active[i].c == c
      ensures l' == l && i == 0
    {
      assert LoopOk(s, l') && ActiveOk(s, l', s.loops[l'].active[i]);
    }
  }

  lemma ReadKeepsInv(s: Server, c: ConnId, rr: ReadResult)
    requires Inv(s) && c in s.conns && Live(s.conns[c].conn) && NoCloses(s, c) && rr.Legal()
    ensures Known(s, c) && Inv(Absorb(s, c, HandleRead(s.conns[c].conn, rr)))
  {
    if rr.EndOfFile? {
      CloseKeepsInv(s, c);
    } else {
      assert ConnOk(s, c);
      AbsorbKeepsInv(s, c, HandleRead(s.conns[c].conn, rr));
    }
  }

  lemma WriteKeepsInv(s: Server, c: ConnId, wr: WriteResult)
    requires Inv(s) && c in s.conns && s.conns[c].conn.added
    requires MayAnswer(s.conns[c].conn, |s.conns[c].conn.output|, wr)
    ensures Known(s, c) && Inv(Absorb(s, c, HandleWrite(s.conns[c].conn, wr)))
  {
    assert ConnOk(s, c);
    HandleWriteKeepsStream(s.conns[c].conn, wr);
    AbsorbKeepsInv(s, c, HandleWrite(s.conns[c].conn, wr));
  }

  lemma NextCallbackKeepsInv(s: Server, l: LoopId, rr: ReadResult, wr: WriteResult)
    requires Inv(s) && Enabled(s, NextCallback(l, rr, wr))
    ensures Inv(Apply(s, NextCallback(l, rr, wr)))
  {
    var s0, c := PopCallback(s, l);
    match s.loops[l].active[0].todo[0] {
      case OnClose => CloseKeepsInv(s0, c);
      case OnError =>
      case OnRead => ReadKeepsInv(s0, c, rr);
      case OnWrite => WriteKeepsInv(s0, c, wr);
    }
  }

  lemma OwnQueueHead(p: seq<Functor>, stage: nat, c: ConnId)
    requires OwnQueue(p, stage, c) && p != []
    ensures stage <= 3
    ensures p[0].Establish? ==> stage == 0 && p[1..] == []
    ensures p[0].Destroy? ==> stage == 3 && p[1..] == []
    ensures !p[0].Remove?
    ensures OrdinaryFunctor(p[0]) ==> stage >= 1 && OwnQueue(p[1..], stage, c)
  {
    assert p[0] in p;
    if stage == 3 && |p| > 1 {
      assert p[..|p| - 1][0] == p[0];
      assert p[1..][..|p| - 2] == p[..|p| - 1][1..];
    }
  }

  /** Where the functor at the head of a batch stands in its connection's life. */
  lemma HeadFunctor(s: Server, l: LoopId)
    requires Inv(s) && l < |s.loops| && s.loops[l].batch != [] && s.loops[l].batch[0].c in s.conns
    ensures var f := s.loops[l].batch[0];
            var e := s.conns[f.c];
            var stage := |e.conn.history|;
            var rest := Proj(s.loops[l].(batch := s.loops[l].batch[1..]).Queue(), f.c);
            && Proj(s.loops[l].Queue(), f.c) == [f] + rest
            && (f.Establish? ==> l == e.loop && stage == 0 && rest == [])
            && (f.Destroy? ==> l == e.loop && stage == 3 && rest == [])
            && (f.Remove? ==> l == BASE != e.loop && stage == 2 && rest == [])
            && (OrdinaryFunctor(f) ==> l == e.loop && 1 <= stage <= 3 && OwnQueue(rest, stage, f.c))
  {
    var f := s.loops[l].batch[0];
    var p := Proj(s.loops[l].Queue(), f.c);
    ProjPop(s.loops[l], f.c);
    assert ConnOk(s, f.c);
    var rest := Proj(s.loops[l].(batch := s.loops[l].batch[1..]).Queue(), f.c);
    assert p[0] == f && p[1..] == rest;
    if l == s.conns[f.c].loop {
      OwnQueueHead(p, |s.conns[f.c].conn.history|, f.c);
    }
  }

  lemma PopOrdinary(s: Server, l: LoopId) returns (s0: Server)
    requires Inv(s) && l < |s.loops| && s.loops[l].phase == Functors && s.loops[l].batch != []
    requires s.loops[l].batch[0].c in s.conns && OrdinaryFunctor(s.loops[l].batch[0])
    ensures s0 == SetLoop(s, l, s.loops[l].(batch := s.loops[l].batch[1..])) && Inv(s0)
    ensures NoActive(s0, s.loops[l].batch[0].c)
  {
    var c := s.loops[l].batch[0].c;
    s0 := SetLoop(s, l, s.loops[l].(batch := s.loops[l].batch[1..]));
    HeadFunctor(s, l);
    assert ConnOk(s, c) && ConnOk(s0, c);
    forall c' | c' != c ensures Same(s, s0, c') {
      ProjPop(s.loops[l], c');
    }
    LoopsKept(s, s0, c);
    Recombine(s, s0, c);
    NothingActive(s0, l, c);
  }

  /** No loop is handling an event of a connection whose own loop is running functors. */
  lemma NothingActive(s: Server, l: LoopId, c: ConnId)
    requires l < |s.loops| && forall l' :: 0 <= l' < |s.loops| ==> LoopOk(s, l')
    requires s.loops[l].phase == Functors && c in s.conns && s.conns[c].loop == l
    ensures NoActive(s, c)
  {
    forall l', i | 0 <= l' < |s.loops| && 0 <= i < |s.loops[l'].active|
      ensures s.loops[l'].active[i].c != c
    {
      assert LoopOk(s, l') && ActiveOk(s, l', s.loops[l'].active[i]) && LoopOk(s, l);
    }
  }

  /** The head of a batch taken off, and what it did to its connection. */
  function Ran(s: Server, l: LoopId, conn: Conn): Server
    requires l < |s.loops| && s.loops[l].batch != [] && s.loops[l].batch[0].c in s.conns
  {
    SetConn(SetLoop(s, l, s.loops[l].(batch := s.loops[l].batch[1..])), s.loops[l].batch[0].c, conn)
  }

  lemma RanFrame(s: Server, l: LoopId, conn: Conn, c: ConnId)
    requires l < |s.loops| && s.loops[l].batch != [] && s.loops[l].batch[0].c in s.conns
    requires c != s.loops[l].batch[0].c
    ensures Same(s, Ran(s, l, conn), c)
  {
    ProjPop(s.loops[l], c);
  }

  lemma EstablishedOk(s: Server, l: LoopId)
    requires Inv(s) && l < |s.loops| && s.loops[l].batch != [] && s.loops[l].batch[0].c in s.conns
    requires s.loops[l].batch[0].Establish?
    ensures var c := s.loops[l].batch[0].c;
            s.conns[c].conn.state == Connecting && ConnOk(Ran(s, l, ConnectEstablished(s.conns[c].conn)), c)
  {
    var c := s.loops[l].batch[0].c;
    HeadFunctor(s, l);
    assert ConnOk(s, c);
    assert ConnectEstablished(s.conns[c].conn).history == LIFE[..1];
  }

  lemma EstablishKeepsInv(s: Server, l: LoopId, wr: WriteResult)
    requires Inv(s) && Enabled(s, NextFunctor(l, wr)) && s.loops[l].batch[0].Establish?
    ensures Inv(Apply(s, NextFunctor(l, wr)))
  {
    var c := s.loops[l].batch[0].c;
    EstablishedOk(s, l);
    var conn := ConnectEstablished(s.conns[c].conn);
    var s' := Ran(s, l, conn);
    forall c' | c' != c ensures Same(s, s', c') {
      RanFrame(s, l, conn, c');
    }
    LoopsKept(s, s', c);
    Recombine(s, s', c);
  }

  lemma DestroyedOk(s: Server, l: LoopId)
    requires Inv(s) && l < |s.loops| && s.loops[l].batch != [] && s.loops[l].batch[0].c in s.conns
    requires s.loops[l].batch[0].Destroy?
    ensures var c := s.loops[l].batch[0].c;
            && s.conns[c].loop == l
            && ConnectDestroyedPrefix(s.conns[c].conn).interest == NONE_EVENT
            && ConnOk(Ran(s, l, ConnectDestroyed(s.conns[c].conn)), c)
            && (Live(s.conns[c].conn) ==> Live(ConnectDestroyed(s.conns[c].conn)))
  {
    var c := s.loops[l].batch[0].c;
    HeadFunctor(s, l);
    assert ConnOk(s, c);
    assert ConnectDestroyed(s.conns[c].conn).history == LIFE[..4];
  }

  lemma DestroyedFrame(s: Server, l: LoopId, conn: Conn)
    requires Inv(s) && l < |s.loops| && s.loops[l].batch != [] && s.loops[l].batch[0].c in s.conns
    requires var c := s.loops[l].batch[0].c;
             s.loops[l].phase == Functors && s.conns[c].loop == l && ConnOk(Ran(s, l, conn), c)
             && (Live(s.conns[c].conn) ==> Live(conn))
    ensures Inv(Ran(s, l, conn))
  {
    var c := s.loops[l].batch[0].c;
    var s' := Ran(s, l, conn);
    forall c' | c' != c ensures Same(s, s', c') {
      RanFrame(s, l, conn, c');
    }
    NothingActive(s, l, c);
    LoopsKept(s, s', c);
    Recombine(s, s', c);
  }

  lemma DestroyKeepsInv(s: Server, l: LoopId, wr: WriteResult)
    requires Inv(s) && Enabled(s, NextFunctor(l, wr)) && s.loops[l].batch[0].Destroy?
    ensures Inv(Apply(s, NextFunctor(l, wr)))
  {
    var c := s.loops[l].batch[0].c;
    DestroyedOk(s, l);
    DestroyIs(s, l, wr);
    DestroyedFrame(s, l, ConnectDestroyed(s.conns[c].conn));
  }

  lemma DestroyIs(s: Server, l: LoopId, wr: WriteResult)
    requires Enabled(s, NextFunctor(l, wr)) && s.loops[l].batch[0].Destroy?
    requires ConnectDestroyedPrefix(s.conns[s.loops[l].batch[0].c].conn).interest == NONE_EVENT
    ensures Apply(s, NextFunctor(l, wr)) == Ran(s, l, ConnectDestroyed(s.conns[s.loops[l].batch[0].c].conn))
  {
  }

  /** A connection that is down has no callback left that closes. */
  lemma DownNoCloses(s: Server, c: ConnId)
    requires Inv(s) && c in s.conns && |s.conns[c].conn.history| == 2
    ensures NoCloses(s, c)
  {
    assert ConnOk(s, c);
    forall l, i | 0 <= l < |s.loops| && 0 <= i < |s.loops[l].active| && s.loops[l].active[i].c == c
      ensures forall cb <- s.loops[l].active[i].todo :: !Closes(cb)
    {
      assert LoopOk(s, l) && ActiveOk(s, l, s.loops[l].active[i]);
    }
  }

  /** With its removal off the queue, nothing else that removes it is queued. */
  lemma PoppedRemove(s: Server, l: LoopId)
    requires Inv(s) && l < |s.loops| && s.loops[l].batch != [] && s.loops[l].batch[0].Remove?
    requires s.loops[l].batch[0].c in s.conns
    ensures var s1, c := SetLoop(s, l, s.loops[l].(batch := s.loops[l].batch[1..])), s.loops[l].batch[0].c;
            |s.conns[c].conn.history| == 2 && Closed(s1, c) && forall c' :: c' != c ==> Same(s, s1, c')
  {
    var c := s.loops[l].batch[0].c;
    HeadFunctor(s, l);
    assert ConnOk(s, c);
    var s1 := SetLoop(s, l, s.loops[l].(batch := s.loops[l].batch[1..]));
    forall c' | c' != c ensures Same(s, s1, c') {
      ProjPop(s.loops[l], c');
    }
  }

  lemma RemoveFunctorKeepsInv(s: Server, l: LoopId, wr: WriteResult)
    requires Inv(s) && Enabled(s, NextFunctor(l, wr)) && s.loops[l].batch[0].Remove?
    ensures Inv(Apply(s, NextFunctor(l, wr)))
  {
    var c := s.loops[l].batch[0].c;
    PoppedRemove(s, l);
    DownNoCloses(s, c);
    RemoveKeepsInv(s, SetLoop(s, l, s.loops[l].(batch := s.loops[l].batch[1..])), c);
  }

  lemma SendToKeepsInv(s: Server, c: ConnId, data: seq<Byte>, wr: WriteResult)
    requires Inv(s) && c in s.conns && s.conns[c].conn.state != Connecting
    requires MayAnswer(s.conns[c].conn, |data|, wr)
    ensures Known(s, c) && Inv(Absorb(s, c, SendInLoop(s.conns[c].conn, data, wr)))
  {
    assert ConnOk(s, c);
    SendInLoopKeepsStream(s.conns[c].conn, data, wr);
    AbsorbKeepsInv(s, c, SendInLoop(s.conns[c].conn, data, wr));
  }

  lemma ForceCloseOfKeepsInv(s: Server, c: ConnId)
    requires Inv(s) && c in s.conns && NoCloses(s, c)
    ensures Known(s, c) && Inv(Absorb(s, c, ForceCloseInLoop(s.conns[c].conn)))
  {
    if Live(s.conns[c].conn) {
      CloseKeepsInv(s, c);
    } else {
      assert ConnOk(s, c);
      AbsorbKeepsInv(s, c, Outcome(s.conns[c].conn, []));
    }
  }

  lemma OrdinaryKeepsInv(s: Server, l: LoopId, wr: WriteResult)
    requires Inv(s) && Enabled(s, NextFunctor(l, wr)) && OrdinaryFunctor(s.loops[l].batch[0])
    ensures Inv(Apply(s, NextFunctor(l, wr)))
  {
    var f := s.loops[l].batch[0];
    HeadFunctor(s, l);
    var s0 := PopOrdinary(s, l);
    assert ConnOk(s0, f.c);
    match f {
      case SendTo(c, data) => SendToKeepsInv(s0, c, data, wr);
      case ShutdownOf(c) => QuietKeepsInv(s0, c, ShutdownInLoop(s0.conns[c].conn));
      case ForceCloseOf(c) => ForceCloseOfKeepsInv(s0, c);
      case UserCallback(_) =>
    }
  }

  lemma NextFunctorKeepsInv(s: Server, l: LoopId, wr: WriteResult)
    requires Inv(s) && Enabled(s, NextFunctor(l, wr))
    ensures Inv(Apply(s, NextFunctor(l, wr)))
  {
    match s.loops[l].batch[0] {
      case Establish(_) => EstablishKeepsInv(s, l, wr);
      case Destroy(_) => DestroyKeepsInv(s, l, wr);
      case Remove(_) => RemoveFunctorKeepsInv(s, l, wr);
      case _ => OrdinaryKeepsInv(s, l, wr);
    }
  }

  lemma AcceptFrame(s: Server, ioLoop: LoopId, c: ConnId)
    requires Inv(s) && Enabled(s, Accept(ioLoop)) && c != s.nextConnId
    ensures Same(s, Apply(s, Accept(ioLoop)), c)
  {
    if ioLoop != BASE { ProjPost(s.loops[ioLoop], Establish(s.nextConnId), c); }
  }

  lemma NewcomerOk(s: Server, ioLoop: LoopId)
    requires Inv(s) && Enabled(s, Accept(ioLoop))
    ensures ConnOk(Apply(s, Accept(ioLoop)), s.nextConnId)
  {
    var c := s.nextConnId;
    var s' := Apply(s, Accept(ioLoop));
    assert c !in s.conns;
    if ioLoop != BASE { ProjPost(s.loops[ioLoop], Establish(c), c); }
    assert s'.conns[c].conn.history == LIFE[..if ioLoop == BASE then 1 else 0];
  }

  lemma AcceptedConns(s: Server, ioLoop: LoopId)
    requires Inv(s) && Enabled(s, Accept(ioLoop))
    ensures var s' := Apply(s, Accept(ioLoop)); forall c <- s'.conns :: ConnOk(s', c) && c < s'.nextConnId
  {
    var s' := Apply(s, Accept(ioLoop));
    forall c | c in s'.conns ensures ConnOk(s', c) && c < s'.nextConnId {
      if c == s.nextConnId {
        NewcomerOk(s, ioLoop);
      } else {
        assert ConnOk(s, c) && c < s.nextConnId;
        AcceptFrame(s, ioLoop, c);
        SameKeepsConnOk(s, s', c);
      }
    }
  }

  lemma AcceptedLoops(s: Server, ioLoop: LoopId)
    requires Inv(s) && Enabled(s, Accept(ioLoop))
    ensures var s' := Apply(s, Accept(ioLoop)); forall l :: 0 <= l < |s'.loops| ==> LoopOk(s', l)
  {
    var s' := Apply(s, Accept(ioLoop));
    assert s.nextConnId !in s.conns;
    forall l | 0 <= l < |s'.loops| ensures LoopOk(s', l) {
      LoopOkFrame(s, s', l);
    }
  }

  lemma AcceptKeepsInv(s: Server, ioLoop: LoopId)
    requires Inv(s) && Enabled(s, Accept(ioLoop))
    ensures Inv(Apply(s, Accept(ioLoop)))
  {
    var s' := Apply(s, Accept(ioLoop));
    AcceptedConns(s, ioLoop);
    AcceptedLoops(s, ioLoop);
    forall l, c | 0 <= l < |s'.loops| && c !in s'.conns ensures Proj(s'.loops[l].Queue(), c) == [] {
      AcceptFrame(s, ioLoop, c);
    }
  }

  lemma UserSendKeepsInv(s: Server, who: Caller, c: ConnId, data: seq<Byte>, wr: WriteResult)
    requires Inv(s) && Enabled(s, UserSend(who, c, data, wr))
    ensures Inv(Apply(s, UserSend(who, c, data, wr)))
  {
    assert ConnOk(s, c);
    var e := s.conns[c];
    SendInLoopKeepsStream(e.conn, data, wr);
    AbsorbKeepsInv(s, c, Send(e.conn, who == LoopThread(e.loop), data, wr));
  }

  lemma UserShutdownKeepsInv(s: Server, who: Caller, c: ConnId)
    requires Inv(s) && Enabled(s, UserShutdown(who, c))
    ensures Inv(Apply(s, UserShutdown(who, c)))
  {
    assert ConnOk(s, c);
    AbsorbKeepsInv(s, c, Shutdown(s.conns[c].conn, who == LoopThread(s.conns[c].loop)));
  }

  lemma UserForceCloseKeepsInv(s: Server, who: Caller, c: ConnId)
    requires Inv(s) && Enabled(s, UserForceClose(who, c))
    ensures Inv(Apply(s, UserForceClose(who, c)))
  {
    assert ConnOk(s, c);
    AbsorbKeepsInv(s, c, ForceClose(s.conns[c].conn));
  }

  lemma UserTakesKeepsInv(s: Server, c: ConnId, n: nat)
    requires Inv(s) && Enabled(s, UserTakes(c, n))
    ensures Inv(Apply(s, UserTakes(c, n)))
  {
    assert ConnOk(s, c);
    QuietKeepsInv(s, c, TakeInput(s.conns[c].conn, n));
  }

  lemma StepKeepsInv(s: Server, step: Step)
    requires Inv(s) && Enabled(s, step)
    ensures Inv(Apply(s, step))
  {
    match step {
      case Poll(l, reports) => PollKeepsInv(s, l, reports);
      case NextCallback(l, rr, wr) => NextCallbackKeepsInv(s, l, rr, wr);
      case NextActive(l) => NextActiveKeepsInv(s, l);
      case Accept(ioLoop) => AcceptKeepsInv(s, ioLoop);
      case EndEvents(l) => EndEventsKeepsInv(s, l);
      case NextFunctor(l, wr) => NextFunctorKeepsInv(s, l, wr);
      case EndFunctors(l) => EndFunctorsKeepsInv(s, l);
      case UserSend(who, c, data, wr) => UserSendKeepsInv(s, who, c, data, wr);
      case UserShutdown(who, c) => UserShutdownKeepsInv(s, who, c);
      case UserForceClose(who, c) => UserForceCloseKeepsInv(s, who, c);
      case UserTakes(c, n) => UserTakesKeepsInv(s, c, n);
    }
  }

  // ---------------------------------------------------------------- whole runs

  ghost predicate IsRun(s: Server, steps: seq<Step>)
    decreases steps
  {
    steps == [] || (Enabled(s, steps[0]) && IsRun(Apply(s, steps[0]), steps[1..]))
  }

  function After(s: Server, steps: seq<Step>): Server
    requires IsRun(s, steps)
    decreases steps
  {
    if steps == [] then s else After(Apply(s, steps[0]), steps[1..])
  }

  lemma InitInv(n: nat)
    ensures Inv(Init(n))
  {
    forall l, c | 0 <= l < |Init(n).loops| ensures Proj(Init(n).loops[l].Queue(), c) == [] {
      assert Init(n).loops[l].Queue() == [];
    }
  }

  lemma {:induction false} RunKeepsInv(s: Server, steps: seq<Step>)
    requires Inv(s) && IsRun(s, steps)
    ensures Inv(After(s, steps))
    decreases steps
  {
    if steps != [] {
      StepKeepsInv(s, steps[0]);
      RunKeepsInv(Apply(s, steps[0]), steps[1..]);
    }
  }

  /** In every run of any number of loops no assertion fails, and every connection lives
      through Up, Down, Erased, Destroyed in this order, each at most once. It is in the map
      exactly until Erased, and it asks for events exactly between Up and Down. */
  lemma Lifecycle(n: nat, steps: seq<Step>)
    requires IsRun(Init(n), steps)
    ensures var s := After(Init(n), steps);
            && !s.aborted
            && (forall c <- s.conns :: s.conns[c].conn.history <= LIFE)
            && (forall c :: c in s.connections <==> c in s.conns && Erased !in s.conns[c].conn.history)
            && (forall c <- s.conns :: s.conns[c].conn.interest != NONE_EVENT
                  <==> s.conns[c].conn.history == [Up])
            && (forall c <- s.conns :: s.conns[c].conn.added
                  <==> Up in s.conns[c].conn.history && Destroyed !in s.conns[c].conn.history)
  {
    var s := After(Init(n), steps);
    InitInv(n);
    RunKeepsInv(Init(n), steps);
    forall c | c in s.conns
      ensures s.conns[c].conn.history <= LIFE
      ensures c in s.connections <==> Erased !in s.conns[c].conn.history
      ensures s.conns[c].conn.interest != NONE_EVENT <==> s.conns[c].conn.history == [Up]
      ensures s.conns[c].conn.added
              <==> Up in s.conns[c].conn.history && Destroyed !in s.conns[c].conn.history
    {
      assert ConnOk(s, c);
      var h := s.conns[c].conn.history;
      assert |h| >= 1 ==> h[0] == Up;
      assert |h| >= 3 ==> h[2] == Erased;
      assert |h| >= 4 ==> h[3] == Destroyed;
    }
  }

  lemma ProjSplit(q: seq<Functor>, i: nat, c: ConnId)
    requires i < |q| && q[i].c == c
    ensures Proj(q, c) == Proj(q[..i], c) + [q[i]] + Proj(q[i + 1..], c)
  {
    assert q == q[..i] + ([q[i]] + q[i + 1..]);
    ProjAppend(q[..i], [q[i]] + q[i + 1..], c);
    ProjAppend([q[i]], q[i + 1..], c);
    assert Proj([q[i]], c) == [q[i]] + Proj([], c);
  }

  lemma NothingAfterDestroy(s: Server, c: ConnId, l: LoopId, i: nat)
    requires Inv(s) && c in s.conns && l < |s.loops|
    requires i < |s.loops[l].Queue()| && s.loops[l].Queue()[i].c == c
    ensures |s.conns[c].conn.history| <= 3
    ensures s.loops[l].Queue()[i] == Destroy(c) ==> Proj(s.loops[l].Queue()[i + 1..], c) == []
  {
    assert ConnOk(s, c);
    var q := s.loops[l].Queue();
    var p := Proj(q, c);
    ProjSplit(q, i, c);
    var a, b := Proj(q[..i], c), Proj(q[i + 1..], c);
    assert p[|a|] == q[i];
    assert |p| == |a| + 1 + |b|;
    assert |a| < |p| - 1 ==> p[..|p| - 1][|a|] == q[i];
  }

  /** connectDestroyed is the last functor ever queued for a connection: once it has run,
      nothing queued anywhere refers to the connection, so the functors that hold a bare
      pointer to it have all run while it was alive. */
  lemma DestroyedLast(n: nat, steps: seq<Step>, s: Server, c: ConnId, l: LoopId, i: nat)
    requires IsRun(Init(n), steps) && s == After(Init(n), steps)
    requires c in s.conns && l < |s.loops| && i < |s.loops[l].Queue()| && s.loops[l].Queue()[i].c == c
    ensures Destroyed !in s.conns[c].conn.history
    ensures s.loops[l].Queue()[i] == Destroy(c) ==>
              forall j :: i < j < |s.loops[l].Queue()| ==> s.loops[l].Queue()[j].c != c
  {
    InitInv(n);
    RunKeepsInv(Init(n), steps);
    NothingAfterDestroy(s, c, l, i);
    NotYetDestroyed(s, c);
    if s.loops[l].Queue()[i] == Destroy(c) {
      NoneBehind(s.loops[l].Queue(), i, c);
    }
  }

  lemma NotYetDestroyed(s: Server, c: ConnId)
    requires Inv(s) && c in s.conns
    ensures |s.conns[c].conn.history| <= 3 ==> Destroyed !in s.conns[c].conn.history
  {
    assert ConnOk(s, c);
  }

  lemma NoneBehind(q: seq<Functor>, i: nat, c: ConnId)
    requires i < |q| && Proj(q[i + 1..], c) == []
    ensures forall j :: i < j < |q| ==> q[j].c != c
  {
    forall j | i < j < |q| ensures q[j].c != c {
      if q[j].c == c {
        ProjContains(q[i + 1..], j - i - 1, c);
      }
    }
  }

  lemma {:induction false} ProjContains(q: seq<Functor>, j: nat, c: ConnId)
    requires j < |q| && q[j].c == c
    ensures Proj(q, c) != []
  {
    if j > 0 { ProjContains(q[1..], j - 1, c); }
  }

  /** In every run, whoever sends and whatever the kernel answers, the bytes on the wire of
      every connection are a prefix of those accepted; without a fault nothing is missing
      but what waits, and write interest is on exactly while something waits. */
  lemma ByteStream(n: nat, steps: seq<Step>)
    requires IsRun(Init(n), steps)
    ensures var s := After(Init(n), steps);
            forall c <- s.conns :: var conn := s.conns[c].conn;
              && conn.wire <= conn.accepted
              && (!conn.fault ==> conn.wire + conn.output == conn.accepted)
              && (conn.state != Disconnected ==> (conn.interest.write <==> conn.output != []))
  {
    var s := After(Init(n), steps);
    InitInv(n);
    RunKeepsInv(Init(n), steps);
    forall c | c in s.conns ensures ConnOk(s, c) {}
  }

  // ---------------------------------------------------------------- nothing is taken back

  ghost predicate Grows(c: Conn, c': Conn) {
    c.wire <= c'.wire && c.accepted <= c'.accepted && c.shutAt <= c'.shutAt && c.history <= c'.history
  }

  ghost predicate AllGrow(s: Server, s': Server) {
    forall c <- s.conns :: c in s'.conns && s'.conns[c].loop == s.conns[c].loop
                           && Grows(s.conns[c].conn, s'.conns[c].conn)
  }

  lemma EmitGrows(s: Server, c: ConnId, e: Effect)
    requires Known(s, c)
    ensures Known(Emit(s, c, e), c) && AllGrow(s, Emit(s, c, e))
  {
  }

  lemma {:induction false} EmitAllGrows(s: Server, c: ConnId, es: seq<Effect>)
    requires Known(s, c)
    ensures AllGrow(s, EmitAll(s, c, es))
    decreases es
  {
    if es != [] {
      EmitGrows(s, c, es[0]);
      EmitAllGrows(Emit(s, c, es[0]), c, es[1..]);
    }
  }

  lemma AbsorbGrows(s: Server, c: ConnId, o: Outcome)
    requires Known(s, c) && Grows(s.conns[c].conn, o.conn)
    ensures AllGrow(s, Absorb(s, c, o))
  {
    EmitAllGrows(SetConn(s, c, o.conn), c, o.effects);
  }

  lemma CallbackGrows(s: Server, c: ConnId, cb: Callback, rr: ReadResult, wr: WriteResult)
    requires Known(s, c) && rr.Legal()
    requires cb == OnWrite ==> MayAnswer(s.conns[c].conn, |s.conns[c].conn.output|, wr)
    ensures AllGrow(s, RunCallback(s, c, cb, rr, wr))
  {
    var conn := s.conns[c].conn;
    match cb {
      case OnClose => if Live(conn) { AbsorbGrows(s, c, HandleClose(conn)); }
      case OnError =>
      case OnRead => if !rr.EndOfFile? || Live(conn) { AbsorbGrows(s, c, HandleRead(conn, rr)); }
      case OnWrite => AbsorbGrows(s, c, HandleWrite(conn, wr));
    }
  }

  lemma SendInLoopGrows(c: Conn, data: seq<Byte>, r: WriteResult)
    requires MayAnswer(c, |data|, r)
    ensures Grows(c, SendInLoop(c, data, r).conn)
  {
    SendInLoopMoves(c, data, r);
  }

  lemma SetConnGrows(s: Server, c: ConnId, conn: Conn)
    requires c in s.conns && Grows(s.conns[c].conn, conn)
    ensures AllGrow(s, SetConn(s, c, conn))
  {
  }

  lemma RemoveGrows(s: Server, c: ConnId)
    requires Known(s, c)
    ensures AllGrow(s, RemoveConnectionInLoop(s, c))
  {
  }

  lemma FunctorGrows(s: Server, l: LoopId, f: Functor, wr: WriteResult)
    requires l < |s.loops| && Known(s, f.c)
    requires f.SendTo? ==> MayAnswer(s.conns[f.c].conn, |f.data|, wr)
    ensures AllGrow(s, RunFunctor(s, l, f, wr))
  {
    var conn := s.conns[f.c].conn;
    match f {
      case Establish(c) => if conn.state == Connecting { SetConnGrows(s, c, ConnectEstablished(conn)); }
      case Destroy(c) =>
        if ConnectDestroyedPrefix(conn).interest == NONE_EVENT { SetConnGrows(s, c, ConnectDestroyed(conn)); }
      case Remove(c) => RemoveGrows(s, c);
      case SendTo(c, data) =>
        SendInLoopGrows(conn, data, wr);
        AbsorbGrows(s, c, SendInLoop(conn, data, wr));
      case ShutdownOf(c) => SetConnGrows(s, c, ShutdownInLoop(conn));
      case ForceCloseOf(c) => AbsorbGrows(s, c, ForceCloseInLoop(conn));
      case UserCallback(_) =>
    }
  }

  lemma StepGrows(s: Server, step: Step)
    requires Enabled(s, step)
    requires forall c <- s.conns :: c < s.nextConnId && Known(s, c)
    ensures AllGrow(s, Apply(s, step))
  {
    match step {
      case NextCallback(l, rr, wr) =>
        var lp := s.loops[l];
        var a := lp.active[0];
        var s0 := SetLoop(s, l, lp.(active := [a.(todo := a.todo[1..])] + lp.active[1..]));
        CallbackGrows(s0, a.c, a.todo[0], rr, wr);
      case NextFunctor(l, wr) =>
        var s0 := SetLoop(s, l, s.loops[l].(batch := s.loops[l].batch[1..]));
        FunctorGrows(s0, l, s.loops[l].batch[0], wr);
      case UserSend(who, c, data, wr) =>
        SendInLoopGrows(s.conns[c].conn, data, wr);
        AbsorbGrows(s, c, Send(s.conns[c].conn, who == LoopThread(s.conns[c].loop), data, wr));
      case UserShutdown(who, c) =>
        AbsorbGrows(s, c, Shutdown(s.conns[c].conn, who == LoopThread(s.conns[c].loop)));
      case UserForceClose(who, c) => AbsorbGrows(s, c, ForceClose(s.conns[c].conn));
      case Accept(_) => assert s.nextConnId !in s.conns;
      case _ =>
    }
  }

  // ---------------------------------------------------------------- only an accept brings a connection

  lemma OnlyAcceptAdds(s: Server, step: Step, c: ConnId)
    requires Enabled(s, step) && c !in s.conns && c in Apply(s, step).conns
    ensures step.Accept? && c == s.nextConnId
  {
    match step {
      case NextFunctor(l, wr) =>
        FunctorAdds(SetLoop(s, l, s.loops[l].(batch := s.loops[l].batch[1..])), l, s.loops[l].batch[0], wr);
      case NextCallback(l, rr, wr) =>
        var a := s.loops[l].active[0];
        CallbackAdds(SetLoop(s, l, s.loops[l].(active := [a.(todo := a.todo[1..])] + s.loops[l].active[1..])),
                     a.c, a.todo[0], rr, wr);
      case UserSend(who, x, data, wr) =>
        AbsorbAdds(s, x, Send(s.conns[x].conn, who == LoopThread(s.conns[x].loop), data, wr));
      case UserShutdown(who, x) => AbsorbAdds(s, x, Shutdown(s.conns[x].conn, who == LoopThread(s.conns[x].loop)));
      case UserForceClose(_, x) => AbsorbAdds(s, x, ForceClose(s.conns[x].conn));
      case _ =>
    }
  }

  lemma AbsorbAdds(s: Server, x: ConnId, o: Outcome)
    requires Known(s, x) && |o.effects| <= 1
    ensures Absorb(s, x, o).conns.Keys == s.conns.Keys
  {
    var s1 := SetConn(s, x, o.conn);
    assert s1.conns.Keys == s.conns.Keys;
    if o.effects != [] { EmitOne(s1, x, o.effects); }
  }

  lemma CallbackAdds(s: Server, x: ConnId, cb: Callback, rr: ReadResult, wr: WriteResult)
    requires Known(s, x) && rr.Legal()
    requires cb == OnWrite ==> MayAnswer(s.conns[x].conn, |s.conns[x].conn.output|, wr)
    ensures RunCallback(s, x, cb, rr, wr).conns.Keys == s.conns.Keys
  {
    var conn := s.conns[x].conn;
    match cb {
      case OnClose => if Live(conn) { AbsorbAdds(s, x, HandleClose(conn)); }
      case OnError =>
      case OnRead => if !rr.EndOfFile? || Live(conn) { AbsorbAdds(s, x, HandleRead(conn, rr)); }
      case OnWrite => AbsorbAdds(s, x, HandleWrite(conn, wr));
    }
  }

  lemma FunctorAdds(s: Server, l: LoopId, f: Functor, wr: WriteResult)
    requires l < |s.loops| && Known(s, f.c)
    requires f.SendTo? ==> MayAnswer(s.conns[f.c].conn, |f.data|, wr)
    ensures RunFunctor(s, l, f, wr).conns.Keys == s.conns.Keys
  {
    var conn := s.conns[f.c].conn;
    match f {
      case SendTo(x, data) => AbsorbAdds(s, x, SendInLoop(conn, data, wr));
      case ForceCloseOf(x) => AbsorbAdds(s, x, ForceCloseInLoop(conn));
      case _ =>
    }
  }

  // ---------------------------------------------------------------- the server object

  /** The server's own fields, and its view of the loops and connections it drives. */
  class TcpServer {
    var loops: seq<Loop>
    var conns: map<ConnId, Entry>
    var connections: set<ConnId>
    var nextConnId: ConnId
    ghost var aborted: bool

    ghost function Value(): Server
      reads this
    {
      Server(loops, conns, connections, nextConnId, aborted)
    }

    constructor (threads: nat)
      ensures Value() == Init(threads)
    {
      loops := seq(threads + 1, _ => Loop(Polling, [], [], []));
      conns, connections, nextConnId, aborted := map[], {}, 1, false;
    }

    method QueueInLoop(l: LoopId, f: Functor)
      requires l < |loops|
      modifies this`loops
      ensures Value() == Post(old(Value()), l, f)
    {
      loops := loops[l := loops[l].(pending := loops[l].pending + [f])];
    }

    method DoNewConnection(ioLoop: LoopId)
      requires Inv(Value()) && ioLoop < |loops|
      modifies this
      ensures Value() == NewConnection(old(Value()), ioLoop)
      ensures nextConnId - 1 !in old(connections) && connections == old(connections) + {nextConnId - 1}
    {
      var c := nextConnId;
      assert c !in conns;
      nextConnId := nextConnId + 1;
      var conn := Fresh(true, Some(64 * 1024 * 1024));
      conns := conns[c := Entry(ioLoop, conn)];
      connections := connections + {c};
      if ioLoop == BASE {
        conns := conns[c := Entry(ioLoop, ConnectEstablished(conn))];
      } else {
        QueueInLoop(ioLoop, Establish(c));
      }
    }

    method DoRemoveConnection(c: ConnId)
      requires Known(Value(), c) && c in connections
      modifies this
      ensures Value() == RemoveConnection(old(Value()), c)
    {
      if conns[c].loop == BASE {
        DoRemoveConnectionInLoop(c);
      } else {
        QueueInLoop(BASE, Remove(c));
      }
    }

    method DoRemoveConnectionInLoop(c: ConnId)
      requires Known(Value(), c) && c in connections
      modifies this
      ensures Value() == RemoveConnectionInLoop(old(Value()), c)
    {
      connections := connections - {c};
      var e := conns[c];
      conns := conns[c := e.(conn := e.conn.(history := e.conn.history + [Erased]))];
      QueueInLoop(e.loop, Destroy(c));
    }
  }
}
