/** Tearing connections down, where the server does not protect itself: startRead() on a
    connection that is closed (networker/net/TcpConnection.cpp:217-230), and the connections that
    ~TcpServer finds in its map (networker/net/TcpServer.cpp:22-34).

    startReadInLoop runs in the connection's loop, called there or as a functor. Here it may run
    whenever that loop is not polling, at any time after the connection came up, which is when
    users get hold of it. */
module Teardowns {
  import opened Channels
  import opened TcpConnections
  import opened TcpServers

  datatype Move = Ordinary(step: Step) | StartReadRuns(c: ConnId)

  predicate Possible(s: Server, m: Move) {
    match m
    case Ordinary(step) => Enabled(s, step)
    case StartReadRuns(c) =>
      Known(s, c) && Up in s.conns[c].conn.history && s.loops[s.conns[c].loop].phase != Polling
  }

  function Do(s: Server, m: Move): Server
    requires Possible(s, m)
  {
    match m
    case Ordinary(step) => Apply(s, step)
    case StartReadRuns(c) => SetConn(s, c, StartReadInLoop(s.conns[c].conn))
  }

  ghost predicate IsAnyRun(s: Server, moves: seq<Move>)
    decreases moves
  {
    moves == [] || (Possible(s, moves[0]) && IsAnyRun(Do(s, moves[0]), moves[1..]))
  }

  function Reached(s: Server, moves: seq<Move>): Server
    requires IsAnyRun(s, moves)
    decreases moves
  {
    if moves == [] then s else Reached(Do(s, moves[0]), moves[1..])
  }

  /** startReadInLoop runs on a connection that went down. */
  predicate Late(s: Server, m: Move) {
    m.StartReadRuns? && m.c in s.conns && Down in s.conns[m.c].conn.history
  }

  ghost predicate SomeLate(s: Server, moves: seq<Move>)
    requires IsAnyRun(s, moves)
    decreases moves
  {
    moves != [] && (Late(s, moves[0]) || SomeLate(Do(s, moves[0]), moves[1..]))
  }

  // ---------------------------------------------------------------- without late calls

  lemma StageOne(h: seq<Life>)
    requires |h| <= 4 && h == LIFE[..|h|]
    ensures |h| >= 2 ==> Down in h
    ensures h == [] ==> Up !in h
  {
    assert |h| >= 2 ==> h[1] == Down;
  }

  lemma CleanMove(s: Server, m: Move)
    requires Inv(s) && Possible(s, m) && !Late(s, m)
    ensures Inv(Do(s, m))
  {
    if m.Ordinary? {
      StepKeepsInv(s, m.step);
    } else {
      assert ConnOk(s, m.c);
      var conn := s.conns[m.c].conn;
      StageOne(conn.history);
      assert StartReadInLoop(conn) == conn;
      assert s.conns[m.c := s.conns[m.c].(conn := conn)] == s.conns;
    }
  }

  lemma {:induction false} CleanRun(s: Server, moves: seq<Move>)
    requires Inv(s) && IsAnyRun(s, moves) && !SomeLate(s, moves)
    ensures Inv(Reached(s, moves))
    decreases moves
  {
    if moves != [] {
      CleanMove(s, moves[0]);
      CleanRun(Do(s, moves[0]), moves[1..]);
    }
  }

  // ---------------------------------------------------------------- with one

  predicate Removal(f: Functor, c: ConnId) { f == Remove(c) || f == Destroy(c) }

  /** What each queue gained and lost: nothing lost, and nothing gained that removes c. */
  ghost predicate Grown(s: Server, s': Server, c: ConnId) {
    && |s'.loops| == |s.loops| && (s.aborted ==> s'.aborted) && s'.nextConnId == s.nextConnId
    && forall l :: 0 <= l < |s.loops| ==>
         && s'.loops[l].phase == s.loops[l].phase && s'.loops[l].batch == s.loops[l].batch
         && (forall f <- s.loops[l].Queue() :: f in s'.loops[l].Queue())
         && (forall f <- s'.loops[l].Queue() :: Removal(f, c) ==> f in s.loops[l].Queue())
  }

  lemma PostGrown(s: Server, l: LoopId, f: Functor, c: ConnId)
    requires l < |s.loops| && !Removal(f, c)
    ensures Grown(s, Post(s, l, f), c)
  {
    var lp := s.loops[l];
    assert lp.batch + (lp.pending + [f]) == lp.Queue() + [f];
  }

  lemma RemoveGrown(s: Server, x: ConnId, c: ConnId)
    requires Known(s, x) && c in s.conns && x != c
    ensures Grown(s, RemoveConnectionInLoop(s, x), c) && Grown(s, RemoveConnection(s, x), c)
    ensures RemoveConnectionInLoop(s, x).conns.Keys == s.conns.Keys == RemoveConnection(s, x).conns.Keys
    ensures RemoveConnectionInLoop(s, x).conns[c] == s.conns[c] == RemoveConnection(s, x).conns[c]
  {
    if x in s.connections {
      var conn := s.conns[x].conn;
      var s1 := SetConn(s.(connections := s.connections - {x}), x, conn.(history := conn.history + [Erased]));
      PostGrown(s1, s.conns[x].loop, Destroy(x), c);
    }
    PostGrown(s, BASE, Remove(x), c);
  }

  lemma EmitGrown(s: Server, x: ConnId, e: Effect, c: ConnId)
    requires Known(s, x) && c in s.conns && (x == c ==> e != InvokeClose)
    ensures var s' := Emit(s, x, e); Grown(s, s', c) && c in s'.conns && s'.conns[c] == s.conns[c]
  {
    var l := s.conns[x].loop;
    match e {
      case QueueWriteComplete => PostGrown(s, l, UserCallback(x), c);
      case QueueHighWater(_) => PostGrown(s, l, UserCallback(x), c);
      case QueueForceClose => PostGrown(s, l, ForceCloseOf(x), c);
      case QueueSend(data) => PostGrown(s, l, SendTo(x, data), c);
      case QueueShutdown => PostGrown(s, l, ShutdownOf(x), c);
      case InvokeClose => RemoveGrown(s, x, c);
    }
  }

  lemma AbsorbGrown(s: Server, x: ConnId, o: Outcome, c: ConnId)
    requires Known(s, x) && c in s.conns && |o.effects| <= 1 && (x == c ==> InvokeClose !in o.effects)
    ensures var s' := Absorb(s, x, o);
            Grown(s, s', c) && c in s'.conns
            && s'.conns[c] == if x == c then s.conns[c].(conn := o.conn) else s.conns[c]
  {
    var s1 := SetConn(s, x, o.conn);
    if o.effects != [] {
      EmitOne(s1, x, o.effects);
      EmitGrown(s1, x, o.effects[0], c);
    }
  }

  /** A closed connection after something was done to it. */
  predicate StaysClosed(c: Conn, c': Conn) {
    && c.state == Disconnected && c'.state == Disconnected && c'.interest == c.interest && c'.added == c.added
    && c'.history == c.history
  }

  /** Nothing that is done to a closed connection, short of removing it, opens or closes it or
      takes its channel away; what would, aborts. */
  ghost predicate Untouched(s: Server, s': Server, c: ConnId) {
    s'.aborted || (Grown(s, s', c) && c in s.conns && c in s'.conns
                   && StaysClosed(s.conns[c].conn, s'.conns[c].conn))
  }

  lemma CallbackUntouched(s: Server, x: ConnId, cb: Callback, rr: ReadResult, wr: WriteResult, c: ConnId)
    requires Known(s, x) && c in s.conns && s.conns[c].conn.state == Disconnected && rr.Legal()
    requires cb == OnWrite ==> MayAnswer(s.conns[x].conn, |s.conns[x].conn.output|, wr)
    requires !s.conns[c].conn.interest.write
    ensures Untouched(s, RunCallback(s, x, cb, rr, wr), c)
  {
    var conn := s.conns[x].conn;
    match cb {
      case OnClose => if Live(conn) { AbsorbGrown(s, x, HandleClose(conn), c); }
      case OnError =>
      case OnRead => if !rr.EndOfFile? || Live(conn) { AbsorbGrown(s, x, HandleRead(conn, rr), c); }
      case OnWrite => AbsorbGrown(s, x, HandleWrite(conn, wr), c);
    }
  }

  /** For a functor other than its own removal. */
  lemma FunctorUntouched(s: Server, l: LoopId, f: Functor, wr: WriteResult, c: ConnId)
    requires l < |s.loops| && Known(s, f.c) && c in s.conns && s.conns[c].conn.state == Disconnected
    requires !Removal(f, c) && (f.SendTo? ==> MayAnswer(s.conns[f.c].conn, |f.data|, wr))
    ensures Untouched(s, RunFunctor(s, l, f, wr), c)
  {
    var conn := s.conns[f.c].conn;
    match f {
      case Establish(x) =>
      case Destroy(x) =>
      case Remove(x) => RemoveGrown(s, x, c);
      case SendTo(x, data) => AbsorbGrown(s, x, SendInLoop(conn, data, wr), c);
      case ShutdownOf(x) =>
      case ForceCloseOf(x) => AbsorbGrown(s, x, ForceCloseInLoop(conn), c);
      case UserCallback(_) =>
    }
  }

  /** Only a loop that runs functors has a batch. */
  ghost predicate Batches(s: Server) {
    forall l :: 0 <= l < |s.loops| && s.loops[l].phase != Functors ==> s.loops[l].batch == []
  }

  /** The queued removals of c are the same. */
  ghost predicate SameRemovals(s: Server, s': Server, c: ConnId) {
    && |s'.loops| == |s.loops|
    && forall l, f :: 0 <= l < |s.loops| && Removal(f, c) ==>
         (f in s.loops[l].Queue() <==> f in s'.loops[l].Queue())
  }

  ghost predicate Persists(s: Server, s': Server, c: ConnId) {
    s'.aborted
    || (c in s.conns && c in s'.conns && StaysClosed(s.conns[c].conn, s'.conns[c].conn)
        && s.nextConnId <= s'.nextConnId && Batches(s') && SameRemovals(s, s', c))
  }

  lemma GrownPersists(s: Server, s': Server, c: ConnId)
    requires Batches(s) && Untouched(s, s', c)
    ensures Persists(s, s', c)
  {
  }

  lemma LoopPersists(s: Server, l: LoopId, lp: Loop, c: ConnId)
    requires Batches(s) && l < |s.loops| && c in s.conns && s.conns[c].conn.state == Disconnected
    requires lp.phase != Functors ==> lp.batch == []
    requires forall f :: Removal(f, c) ==> (f in lp.Queue() <==> f in s.loops[l].Queue())
    ensures Persists(s, SetLoop(s, l, lp), c)
  {
  }

  lemma FunctorPersists(s: Server, l: LoopId, wr: WriteResult, c: ConnId)
    requires Enabled(s, NextFunctor(l, wr)) && Batches(s) && c in s.conns && s.conns[c].conn.state == Disconnected
    requires !Removal(s.loops[l].batch[0], c)
    ensures Persists(s, Apply(s, NextFunctor(l, wr)), c)
  {
    var lp := s.loops[l].(batch := s.loops[l].batch[1..]);
    var s0 := SetLoop(s, l, lp);
    assert s.loops[l].Queue() == [s.loops[l].batch[0]] + lp.Queue();
    LoopPersists(s, l, lp, c);
    FunctorUntouched(s0, l, s.loops[l].batch[0], wr, c);
    GrownPersists(s0, Apply(s, NextFunctor(l, wr)), c);
  }

  lemma CallbackPersists(s: Server, l: LoopId, rr: ReadResult, wr: WriteResult, c: ConnId)
    requires Enabled(s, NextCallback(l, rr, wr)) && Batches(s) && c in s.conns
    requires s.conns[c].conn.state == Disconnected && !s.conns[c].conn.interest.write
    ensures Persists(s, Apply(s, NextCallback(l, rr, wr)), c)
  {
    var a := s.loops[l].active[0];
    var lp := s.loops[l].(active := [a.(todo := a.todo[1..])] + s.loops[l].active[1..]);
    assert lp.Queue() == s.loops[l].Queue();
    LoopPersists(s, l, lp, c);
    CallbackUntouched(SetLoop(s, l, lp), a.c, a.todo[0], rr, wr, c);
    GrownPersists(SetLoop(s, l, lp), Apply(s, NextCallback(l, rr, wr)), c);
  }

  lemma AcceptPersists(s: Server, ioLoop: LoopId, c: ConnId)
    requires Enabled(s, Accept(ioLoop)) && Batches(s) && c in s.conns
    requires s.conns[c].conn.state == Disconnected && c < s.nextConnId
    ensures Persists(s, Apply(s, Accept(ioLoop)), c)
  {
    var s1 := Apply(s, Accept(ioLoop)).(loops := s.loops);
    assert Persists(s, s1, c);
    if ioLoop != BASE {
      PostGrown(s1, ioLoop, Establish(s.nextConnId), c);
      GrownPersists(s1, Apply(s, Accept(ioLoop)), c);
    }
  }

  lemma StepPersists(s: Server, step: Step, c: ConnId)
    requires Enabled(s, step) && Batches(s) && c in s.conns && c < s.nextConnId
    requires s.conns[c].conn.state == Disconnected && !s.conns[c].conn.interest.write
    requires step.NextFunctor? ==> !Removal(s.loops[step.l].batch[0], c)
    ensures Persists(s, Apply(s, step), c)
  {
    match step {
      case NextFunctor(l, wr) => FunctorPersists(s, l, wr, c);
      case NextCallback(l, rr, wr) => CallbackPersists(s, l, rr, wr, c);
      case UserSend(who, x, data, wr) =>
        AbsorbGrown(s, x, Send(s.conns[x].conn, who == LoopThread(s.conns[x].loop), data, wr), c);
        GrownPersists(s, Apply(s, step), c);
      case UserShutdown(who, x) =>
        AbsorbGrown(s, x, Shutdown(s.conns[x].conn, who == LoopThread(s.conns[x].loop)), c);
        GrownPersists(s, Apply(s, step), c);
      case UserForceClose(_, x) =>
        AbsorbGrown(s, x, ForceClose(s.conns[x].conn), c);
        GrownPersists(s, Apply(s, step), c);
      case UserTakes(x, n) =>
        AbsorbGrown(s, x, Outcome(TakeInput(s.conns[x].conn, n), []), c);
        GrownPersists(s, Apply(s, step), c);
      case Accept(ioLoop) => AcceptPersists(s, ioLoop, c);
      case Poll(l, reports) => LoopPersists(s, l, s.loops[l].(phase := Handling, active := ToActive(reports)), c);
      case NextActive(l) => LoopPersists(s, l, s.loops[l].(active := s.loops[l].active[1..]), c);
      case EndEvents(l) =>
        LoopPersists(s, l, s.loops[l].(phase := Functors, batch := s.loops[l].pending, pending := []), c);
      case EndFunctors(l) => LoopPersists(s, l, s.loops[l].(phase := Polling), c);
    }
  }

  // ---------------------------------------------------------------- doomed, and left behind

  /** Closed, but asking for events again, with its removal queued. */
  ghost predicate Doomed(s: Server, c: ConnId) {
    && Batches(s) && c in s.conns && c < s.nextConnId
    && s.conns[c].conn.state == Disconnected && s.conns[c].conn.interest == Interest(true, false)
    && exists l, f :: 0 <= l < |s.loops| && Removal(f, c) && f in s.loops[l].Queue()
  }

  /** Destroyed, but with its channel back in the loop, and no removal queued. */
  ghost predicate Left(s: Server, c: ConnId) {
    && Batches(s) && c in s.conns && c < s.nextConnId
    && s.conns[c].conn.state == Disconnected && s.conns[c].conn.interest == Interest(true, false)
    && Destroyed in s.conns[c].conn.history && s.conns[c].conn.added
    && forall l, f :: 0 <= l < |s.loops| && Removal(f, c) ==> f !in s.loops[l].Queue()
  }

  lemma DoomedStep(s: Server, step: Step, c: ConnId)
    requires Doomed(s, c) && Enabled(s, step)
    ensures Apply(s, step).aborted || Doomed(Apply(s, step), c)
  {
    if step.NextFunctor? && Removal(s.loops[step.l].batch[0], c) {
      RemovalRuns(s, step.l, step.wr, c);
    } else {
      StepPersists(s, step, c);
    }
  }

  /** The removal of a doomed connection goes on, until remove() finds it asking for events. */
  lemma RemovalRuns(s: Server, l: LoopId, wr: WriteResult, c: ConnId)
    requires Doomed(s, c) && Enabled(s, NextFunctor(l, wr)) && Removal(s.loops[l].batch[0], c)
    ensures Apply(s, NextFunctor(l, wr)).aborted || Doomed(Apply(s, NextFunctor(l, wr)), c)
  {
    var s' := Apply(s, NextFunctor(l, wr));
    var own := s.conns[c].loop;
    if s.loops[l].batch[0] == Remove(c) && c in s.connections {
      assert own < |s'.loops| && Removal(Destroy(c), c) && Destroy(c) in s'.loops[own].Queue();
    }
  }

  lemma LeftStep(s: Server, step: Step, c: ConnId)
    requires Left(s, c) && Enabled(s, step)
    ensures Apply(s, step).aborted || Left(Apply(s, step), c)
  {
    if step.NextFunctor? {
      assert s.loops[step.l].batch[0] in s.loops[step.l].Queue();
    }
    StepPersists(s, step, c);
  }

  lemma AbortedAbsorb(s: Server, x: ConnId, o: Outcome)
    requires Known(s, x) && s.aborted && |o.effects| <= 1
    ensures Absorb(s, x, o).aborted
  {
    if o.effects != [] { EmitOne(SetConn(s, x, o.conn), x, o.effects); }
  }

  lemma AbortedCallback(s: Server, x: ConnId, cb: Callback, rr: ReadResult, wr: WriteResult)
    requires Known(s, x) && rr.Legal() && s.aborted
    requires cb == OnWrite ==> MayAnswer(s.conns[x].conn, |s.conns[x].conn.output|, wr)
    ensures RunCallback(s, x, cb, rr, wr).aborted
  {
    var conn := s.conns[x].conn;
    match cb {
      case OnClose => if Live(conn) { AbortedAbsorb(s, x, HandleClose(conn)); }
      case OnError =>
      case OnRead => if !rr.EndOfFile? || Live(conn) { AbortedAbsorb(s, x, HandleRead(conn, rr)); }
      case OnWrite => AbortedAbsorb(s, x, HandleWrite(conn, wr));
    }
  }

  lemma AbortedFunctor(s: Server, l: LoopId, f: Functor, wr: WriteResult)
    requires l < |s.loops| && Known(s, f.c) && s.aborted
    requires f.SendTo? ==> MayAnswer(s.conns[f.c].conn, |f.data|, wr)
    ensures RunFunctor(s, l, f, wr).aborted
  {
    var conn := s.conns[f.c].conn;
    match f {
      case SendTo(x, data) => AbortedAbsorb(s, x, SendInLoop(conn, data, wr));
      case ForceCloseOf(x) => AbortedAbsorb(s, x, ForceCloseInLoop(conn));
      case _ =>
    }
  }

  lemma AbortedStays(s: Server, step: Step)
    requires Enabled(s, step) && s.aborted
    ensures Apply(s, step).aborted
  {
    match step {
      case NextFunctor(l, wr) =>
        AbortedFunctor(SetLoop(s, l, s.loops[l].(batch := s.loops[l].batch[1..])), l, s.loops[l].batch[0], wr);
      case NextCallback(l, rr, wr) =>
        var a := s.loops[l].active[0];
        AbortedCallback(SetLoop(s, l, s.loops[l].(active := [a.(todo := a.todo[1..])] + s.loops[l].active[1..])),
                        a.c, a.todo[0], rr, wr);
      case UserSend(who, x, data, wr) =>
        AbortedAbsorb(s, x, Send(s.conns[x].conn, who == LoopThread(s.conns[x].loop), data, wr));
      case UserShutdown(who, x) =>
        AbortedAbsorb(s, x, Shutdown(s.conns[x].conn, who == LoopThread(s.conns[x].loop)));
      case UserForceClose(_, x) => AbortedAbsorb(s, x, ForceClose(s.conns[x].conn));
      case _ =>
    }
  }

  ghost predicate Hopeless(s: Server, c: ConnId) {
    s.aborted || Doomed(s, c) || Left(s, c)
  }

  lemma HopelessMove(s: Server, m: Move, c: ConnId)
    requires Hopeless(s, c) && Possible(s, m)
    ensures Hopeless(Do(s, m), c)
  {
    if m.Ordinary? {
      if s.aborted {
        AbortedStays(s, m.step);
      } else if Doomed(s, c) {
        DoomedStep(s, m.step, c);
      } else {
        LeftStep(s, m.step, c);
      }
    } else {
      assert Do(s, m).loops == s.loops;
      if c in s.conns && m.c == c && s.conns[c].conn.interest.read {
        assert StartReadInLoop(s.conns[c].conn) == s.conns[c].conn;
      }
    }
  }

  lemma {:induction false} HopelessRun(s: Server, moves: seq<Move>, c: ConnId)
    requires Hopeless(s, c) && IsAnyRun(s, moves)
    ensures Hopeless(Reached(s, moves), c)
    decreases moves
  {
    if moves != [] {
      HopelessMove(s, moves[0], c);
      HopelessRun(Do(s, moves[0]), moves[1..], c);
    }
  }

  lemma {:induction false} ProjMember(q: seq<Functor>, f: Functor, c: ConnId)
    requires f in Proj(q, c)
    ensures f in q
  {
    if q[0] != f || q[0].c != c { ProjMember(q[1..], f, c); }
  }

  /** A late call makes a connection hopeless. */
  lemma LateStarts(s: Server, m: Move)
    requires Inv(s) && Possible(s, m) && Late(s, m)
    ensures Hopeless(Do(s, m), m.c)
  {
    var c, s' := m.c, Do(s, m);
    assert ConnOk(s, c);
    var e := s.conns[c];
    var stage := |e.conn.history|;
    assert stage <= 1 ==> Down !in e.conn.history;
    assert s'.loops == s.loops && s'.conns[c].conn.interest == Interest(true, false);
    InvBatches(s);
    if stage == 4 {
      NothingQueued(s, c);
      assert LIFE[..4][3] == Destroyed;
    } else {
      RemovalIsQueued(s, c);
    }
  }

  lemma InvBatches(s: Server)
    requires Inv(s)
    ensures Batches(s)
  {
    forall l | 0 <= l < |s.loops| ensures s.loops[l].phase != Functors ==> s.loops[l].batch == [] {
      assert LoopOk(s, l);
    }
  }

  lemma NothingQueued(s: Server, c: ConnId)
    requires Inv(s) && c in s.conns && |s.conns[c].conn.history| == 4
    ensures forall l, f :: 0 <= l < |s.loops| && Removal(f, c) ==> f !in s.loops[l].Queue()
  {
    assert ConnOk(s, c);
    forall l, f | 0 <= l < |s.loops| && Removal(f, c) ensures f !in s.loops[l].Queue() {
      var q := s.loops[l].Queue();
      if f in q {
        var j :| 0 <= j < |q| && q[j] == f;
        ProjContains(q, j, c);
      }
    }
  }

  lemma RemovalIsQueued(s: Server, c: ConnId)
    requires Inv(s) && c in s.conns && 2 <= |s.conns[c].conn.history| <= 3
    ensures exists l, f :: 0 <= l < |s.loops| && Removal(f, c) && f in s.loops[l].Queue()
  {
    assert ConnOk(s, c);
    var l := if |s.conns[c].conn.history| == 2 then BASE else s.conns[c].loop;
    var f := if |s.conns[c].conn.history| == 2 then Remove(c) else Destroy(c);
    var p := Proj(s.loops[l].Queue(), c);
    assert p[|p| - 1] == f && f in p;
    ProjMember(s.loops[l].Queue(), f, c);
    assert Removal(f, c);
  }

  lemma {:induction false} LateRun(s: Server, moves: seq<Move>) returns (c: ConnId)
    requires Inv(s) && IsAnyRun(s, moves) && SomeLate(s, moves)
    ensures Hopeless(Reached(s, moves), c)
    decreases moves
  {
    if Late(s, moves[0]) {
      c := moves[0].c;
      LateStarts(s, moves[0]);
      HopelessRun(Do(s, moves[0]), moves[1..], c);
    } else {
      CleanMove(s, moves[0]);
      c := LateRun(Do(s, moves[0]), moves[1..]);
    }
  }

  /** An assertion failed, or one will: a channel is in its loop after connectDestroyed, and
      ~Channel asserts that it is not. */
  ghost predicate Broken(s: Server) {
    s.aborted || exists c <- s.conns :: Destroyed in s.conns[c].conn.history && s.conns[c].conn.added
  }

  /** Every queued functor has run. */
  predicate Settled(s: Server) {
    forall l :: 0 <= l < |s.loops| ==> s.loops[l].Queue() == []
  }

  /** startRead() is harmful exactly when startReadInLoop runs on a connection that went down:
      without such a call nothing breaks, and with one something has, once the queues have
      run. */
  lemma StartReadBreaksExactly(n: nat, moves: seq<Move>)
    requires IsAnyRun(Init(n), moves)
    ensures Broken(Reached(Init(n), moves)) ==> SomeLate(Init(n), moves)
    ensures Settled(Reached(Init(n), moves)) ==>
              (Broken(Reached(Init(n), moves)) <==> SomeLate(Init(n), moves))
  {
    var s := Reached(Init(n), moves);
    InitInv(n);
    if SomeLate(Init(n), moves) {
      var c := LateRun(Init(n), moves);
      assert Left(s, c) ==> c in s.conns;
    } else {
      CleanRun(Init(n), moves);
      forall c | c in s.conns ensures Destroyed in s.conns[c].conn.history ==> !s.conns[c].conn.added {
        assert ConnOk(s, c);
        DestroyedStage(s.conns[c].conn.history);
      }
    }
  }

  lemma DestroyedStage(h: seq<Life>)
    requires |h| <= 4 && h == LIFE[..|h|]
    ensures Destroyed in h ==> |h| == 4
  {
  }

  // ---------------------------------------------------------------- the server's destructor

  /** ~TcpServer has connectDestroyed run for every connection in the map. In every state of
      every run, on a connection that came up, the assertion of remove() then fails exactly if
      the connection is disconnecting; otherwise the connection has gone down, once, and is
      destroyed. */
  lemma DestructorTripsExactly(n: nat, steps: seq<Step>, c: ConnId)
    requires IsRun(Init(n), steps) && c in After(Init(n), steps).connections
    ensures var s := After(Init(n), steps);
            c in s.conns
            && var conn := s.conns[c].conn;
               Up in conn.history ==>
                 (ConnectDestroyedPrefix(conn).interest != NONE_EVENT <==> conn.state == Disconnecting)
                 && (conn.state != Disconnecting ==>
                       var conn' := ConnectDestroyed(conn);
                       conn'.history == [Up, Down, Destroyed] && conn'.state == Disconnected && !conn'.added)
  {
    InitInv(n);
    RunKeepsInv(Init(n), steps);
    assert ConnOk(After(Init(n), steps), c);
    var conn := After(Init(n), steps).conns[c].conn;
    assert LIFE[..1] + [Down, Destroyed] == LIFE[..2] + [Destroyed] == [Up, Down, Destroyed];
  }
}
