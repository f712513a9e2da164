/** Graceful shutdown (networker/net/TcpConnection.cpp:149-164, 282-309), over every run of the
    server and for callers in any thread.

    shutdown() sets the state and then shuts the writing side in the connection's own loop: at
    once if it is called there, by a queued functor otherwise. The drain in handleWrite shuts
    it too. What can go wrong is said exactly: with a queued functor the side can be shut
    twice, or be shut with bytes still waiting. */
module Shutdowns {
  import opened Buffers
  import opened Channels
  import opened Options
  import opened TcpConnections
  import opened TcpServers

  // ---------------------------------------------------------------- one connection

  /** The part of a connection that a shutdown is about. */
  datatype View = View(state: State, write: bool, output: seq<Byte>, wire: seq<Byte>, accepted: seq<Byte>,
                       fault: bool, shutAt: seq<nat>, requested: bool)

  function Seen(c: Conn): View {
    View(c.state, c.interest.write, c.output, c.wire, c.accepted, c.fault, c.shutAt, c.shutRequested)
  }

  predicate Past(v: View) {
    v.state == Disconnecting || v.state == Disconnected
  }

  /** What holds of a connection for which `k` shutdown functors are queued: there is at most
      one, from a shutdown() that has taken effect; the side is shut at most once more than
      that; a side that is shut has nothing waiting unless the connection is closed; and one
      that should be shut is, or has its functor queued. */
  predicate Good(v: View, k: nat) {
    && k <= 1 && |v.shutAt| + k <= 2
    && (k > 0 || v.requested ==> Past(v))
    && (v.shutAt != [] ==> Past(v) && !v.write && (v.state == Disconnecting || k > 0 ==> v.output == []))
    && (v.requested && v.state == Disconnecting && v.output == [] && k == 0 ==> v.shutAt != [])
  }

  /** Why a step of the server touches the shutting of one connection. */
  datatype Cause =
    | FunctorRuns             // the queued shutdownInLoop
    | Drains                  // handleWrite empties the buffer of a disconnecting connection
    | OwnShutdown             // shutdown() in the connection's own loop
    | ForeignShutdown         // shutdown() in another thread
    | SendRuns(data: seq<Byte>)
    | NoCause

  /** Changes that shut nothing. */
  predicate Calm(v: View, v': View) {
    && v'.shutAt == v.shutAt && v'.requested == v.requested && (v.fault ==> v'.fault)
    && (Past(v) ==> Past(v')) && (v.state == Disconnected ==> v'.state == Disconnected)
    && (v.state == Disconnected ==> v'.write == v.write && v'.output == v.output && v'.wire == v.wire
                                    && v'.accepted == v.accepted)
    && (v'.state == Disconnecting && v'.output == [] && v.state == Disconnecting ==> v.output == [])
    && (v.shutAt != [] && Past(v) && !v.write && (v.state == Disconnecting ==> v.output == []) ==>
          !v'.write && v'.wire == v.wire && v'.output == v.output)
  }

  predicate Trans(cause: Cause, v: View, k: nat, v': View, k': nat) {
    match cause
    case FunctorRuns =>
      k == k' + 1 && v' == if v.write then v else v.(shutAt := v.shutAt + [|v.wire|])
    case Drains =>
      && k' == k && v.write && v.state == Disconnecting
      && v' == v.(wire := v.wire + v.output, output := [], write := false, shutAt := v.shutAt + [|v.wire + v.output|])
    case OwnShutdown =>
      && k' == k && v.state == Connected
      && v' == v.(state := Disconnecting, requested := true,
                  shutAt := if v.write then v.shutAt else v.shutAt + [|v.wire|])
    case ForeignShutdown => k' == k + 1 && v.state == Connected && v' == v.(state := Disconnecting, requested := true)
    case SendRuns(data) =>
      && k' == k && Calm(v, v')
      && v'.accepted == (if v.state == Disconnected then v.accepted else v.accepted + data)
      && (v.shutAt != [] && v.state == Disconnecting && !v.write && v.output == [] ==> v'.fault)
    case NoCause => k' == k && Calm(v, v') && (Past(v) ==> v'.accepted == v.accepted)
  }

  lemma TransKeepsGood(cause: Cause, v: View, k: nat, v': View, k': nat)
    requires Good(v, k) && Trans(cause, v, k, v', k')
    requires v.state != Disconnected ==> (v.write <==> v.output != [])
    ensures Good(v', k')
    ensures v.shutAt != [] ==> v'.wire == v.wire
  {
  }

  // ---------------------------------------------------------------- what each handler does

  lemma SendTrans(c: Conn, data: seq<Byte>, r: WriteResult, k: nat)
    requires StreamInv(c) && MayAnswer(c, |data|, r)
    ensures Trans(SendRuns(data), Seen(c), k, Seen(SendInLoop(c, data, r).conn), k)
  {
    if SendAnswer(c, r).Some? {
      DirectTrans(c, data, r, k);
    } else if c.state != Disconnected {
      WaitingTrans(c, data, r, k);
    }
  }

  lemma DirectTrans(c: Conn, data: seq<Byte>, r: WriteResult, k: nat)
    requires MayAnswer(c, |data|, r) && SendAnswer(c, r).Some?
    ensures Trans(SendRuns(data), Seen(c), k, Seen(SendInLoop(c, data, r).conn), k)
  {
    assert c.shutAt != [] ==> r.PeerGone? && c.wire + data[..0] == c.wire;
  }

  lemma WaitingTrans(c: Conn, data: seq<Byte>, r: WriteResult, k: nat)
    requires StreamInv(c) && MayAnswer(c, |data|, r) && SendAnswer(c, r).None? && c.state != Disconnected
    ensures Trans(SendRuns(data), Seen(c), k, Seen(SendInLoop(c, data, r).conn), k)
  {
    assert c.output != [] && data[0..] == data && c.wire + data[..0] == c.wire;
  }

  lemma UserSendTrans(c: Conn, own: bool, data: seq<Byte>, r: WriteResult, k: nat)
    requires StreamInv(c) && MayAnswer(c, |data|, r)
    ensures Trans(NoCause, Seen(c), k, Seen(Send(c, own, data, r).conn), k)
    ensures QueueShutdown !in Send(c, own, data, r).effects
  {
    if c.state == Connected && own {
      SendTrans(c, data, r, k);
    }
  }

  /** handleWrite empties the buffer of a connection that is disconnecting. */
  predicate DrainsNow(c: Conn, r: WriteResult) {
    c.interest.write && c.state == Disconnecting && c.output != [] && r == Wrote(|c.output|)
  }

  lemma WriteTrans(c: Conn, r: WriteResult, k: nat)
    requires StreamInv(c) && MayAnswer(c, |c.output|, r)
    ensures Trans(if DrainsNow(c, r) then Drains else NoCause, Seen(c), k, Seen(HandleWrite(c, r).conn), k)
    ensures QueueShutdown !in HandleWrite(c, r).effects
  {
    if DrainsNow(c, r) {
      assert c.output[..r.n] == c.output && c.output[r.n..] == [];
    }
  }

  lemma ShutdownTrans(c: Conn, own: bool, k: nat)
    ensures var o := Shutdown(c, own);
            && (c.state == Connected && own ==>
                  o.effects == [] && Trans(OwnShutdown, Seen(c), k, Seen(o.conn), k))
            && (c.state == Connected && !own ==>
                  o.effects == [QueueShutdown] && Trans(ForeignShutdown, Seen(c), k, Seen(o.conn), k + 1))
            && (c.state != Connected ==> o == Outcome(c, []))
  {
  }

  lemma SameTrans(c: Conn, k: nat)
    ensures Trans(NoCause, Seen(c), k, Seen(c), k)
  {
  }

  lemma CloseTrans(c: Conn, k: nat)
    ensures Live(c) ==> Trans(NoCause, Seen(c), k, Seen(HandleClose(c).conn), k)
  {
  }

  lemma ForceCloseTrans(c: Conn, k: nat)
    ensures Trans(NoCause, Seen(c), k, Seen(ForceClose(c).conn), k)
    ensures Trans(NoCause, Seen(c), k, Seen(ForceCloseInLoop(c).conn), k)
  {
  }

  lemma ReadTrans(c: Conn, rr: ReadResult, k: nat)
    requires rr.Legal() && (rr.EndOfFile? ==> Live(c))
    ensures Trans(NoCause, Seen(c), k, Seen(HandleRead(c, rr).conn), k)
  {
  }

  lemma LifeTrans(c: Conn, k: nat)
    ensures c.state == Connecting ==> Trans(NoCause, Seen(c), k, Seen(ConnectEstablished(c)), k)
    ensures ConnectDestroyedPrefix(c).interest == NONE_EVENT ==>
              Trans(NoCause, Seen(c), k, Seen(ConnectDestroyed(c)), k)
  {
  }

  // ---------------------------------------------------------------- queued shutdown functors

  function Queued(s: Server, c: ConnId): nat
    requires Known(s, c)
  {
    multiset(s.loops[s.conns[c].loop].Queue())[ShutdownOf(c)]
  }

  lemma CountPost(q: seq<Functor>, f: Functor, g: Functor)
    ensures multiset(q + [f])[g] == multiset(q)[g] + if f == g then 1 else 0
  {
  }

  lemma CountPop(q: seq<Functor>, g: Functor)
    requires q != []
    ensures multiset(q)[g] == multiset(q[1..])[g] + if q[0] == g then 1 else 0
  {
    assert q == [q[0]] + q[1..];
  }

  lemma PostQueued(s: Server, l: LoopId, f: Functor, c: ConnId)
    requires l < |s.loops| && Known(s, c)
    ensures Known(Post(s, l, f), c)
    ensures Queued(Post(s, l, f), c)
            == Queued(s, c) + if l == s.conns[c].loop && f == ShutdownOf(c) then 1 else 0
  {
    var lp := s.loops[l];
    assert lp.batch + (lp.pending + [f]) == lp.Queue() + [f];
    CountPost(lp.Queue(), f, ShutdownOf(c));
  }

  /** c is as it was, as far as shutting goes. */
  ghost predicate Still(s: Server, s': Server, c: ConnId)
    requires Known(s, c)
  {
    && Known(s', c) && s'.conns[c].loop == s.conns[c].loop
    && Seen(s'.conns[c].conn) == Seen(s.conns[c].conn) && Queued(s', c) == Queued(s, c)
  }

  lemma RemoveStill(s: Server, x: ConnId, c: ConnId)
    requires Known(s, x) && Known(s, c)
    ensures Still(s, RemoveConnectionInLoop(s, x), c) && Still(s, RemoveConnection(s, x), c)
  {
    if x in s.connections {
      var conn := s.conns[x].conn;
      var s1 := SetConn(s.(connections := s.connections - {x}), x, conn.(history := conn.history + [Erased]));
      assert Still(s, s1, c);
      PostQueued(s1, s.conns[x].loop, Destroy(x), c);
    }
    PostQueued(s, BASE, Remove(x), c);
  }

  lemma PostStill(s: Server, l: LoopId, f: Functor, c: ConnId)
    requires l < |s.loops| && Known(s, c) && f != ShutdownOf(c)
    ensures Still(s, Post(s, l, f), c)
  {
    PostQueued(s, l, f, c);
  }

  lemma EmitView(s: Server, x: ConnId, e: Effect, c: ConnId)
    requires Known(s, x) && Known(s, c)
    ensures var s' := Emit(s, x, e);
            if e.QueueShutdown? && x == c
            then Known(s', c) && s'.conns[c] == s.conns[c] && Queued(s', c) == Queued(s, c) + 1
            else Still(s, s', c)
  {
    if e.QueueShutdown? && x == c {
      PostQueued(s, s.conns[x].loop, ShutdownOf(x), c);
    } else if e.InvokeClose? {
      RemoveStill(s, x, c);
    } else {
      EmitStill(s, x, e, c);
    }
  }

  lemma EmitStill(s: Server, x: ConnId, e: Effect, c: ConnId)
    requires Known(s, x) && Known(s, c) && !e.InvokeClose? && (e.QueueShutdown? ==> x != c)
    ensures Still(s, Emit(s, x, e), c)
  {
    var l := s.conns[x].loop;
    match e {
      case QueueWriteComplete => PostStill(s, l, UserCallback(x), c);
      case QueueHighWater(_) => PostStill(s, l, UserCallback(x), c);
      case QueueForceClose => PostStill(s, l, ForceCloseOf(x), c);
      case QueueSend(data) => PostStill(s, l, SendTo(x, data), c);
      case QueueShutdown => PostStill(s, l, ShutdownOf(x), c);
    }
  }

  /** An outcome with at most one effect, seen from any connection. */
  lemma AbsorbView(s: Server, x: ConnId, o: Outcome, c: ConnId)
    requires Known(s, x) && Known(s, c) && |o.effects| <= 1
    ensures var s' := Absorb(s, x, o);
            if x == c
            then Known(s', c) && s'.conns[c].loop == s.conns[c].loop && Seen(s'.conns[c].conn) == Seen(o.conn)
                 && Queued(s', c) == Queued(s, c) + if o.effects == [QueueShutdown] then 1 else 0
            else Still(s, s', c)
  {
    var s1 := SetConn(s, x, o.conn);
    if o.effects != [] {
      EmitOne(s1, x, o.effects);
      EmitView(s1, x, o.effects[0], c);
    }
  }

  // ---------------------------------------------------------------- every step

  ghost function CauseOf(s: Server, step: Step, c: ConnId): Cause
    requires Enabled(s, step) && c in s.conns
  {
    match step
    case NextFunctor(l, _) =>
      var f := s.loops[l].batch[0];
      if f == ShutdownOf(c) then FunctorRuns
      else if f.SendTo? && f.c == c then SendRuns(f.data)
      else NoCause
    case NextCallback(l, _, wr) =>
      var a := s.loops[l].active[0];
      if a.c == c && a.todo[0] == OnWrite && DrainsNow(s.conns[c].conn, wr) then Drains else NoCause
    case UserShutdown(who, x) =>
      if x != c || s.conns[c].conn.state != Connected then NoCause
      else if who == LoopThread(s.conns[c].loop) then OwnShutdown
      else ForeignShutdown
    case _ => NoCause
  }

  /** What a step does to one connection, by its cause. */
  ghost predicate Moves(s: Server, s': Server, cause: Cause, c: ConnId)
    requires Known(s, c)
  {
    Known(s', c) && s'.conns[c].loop == s.conns[c].loop
    && Trans(cause, Seen(s.conns[c].conn), Queued(s, c), Seen(s'.conns[c].conn), Queued(s', c))
  }

  lemma StillMoves(s: Server, s': Server, c: ConnId)
    requires Known(s, c) && Still(s, s', c)
    ensures Moves(s, s', NoCause, c)
  {
    SameTrans(s.conns[c].conn, Queued(s, c));
  }

  /** An outcome that queues no shutdown functor. */
  lemma AbsorbMoves(s: Server, x: ConnId, o: Outcome, cause: Cause, c: ConnId)
    requires Known(s, x) && Known(s, c) && |o.effects| <= 1 && QueueShutdown !in o.effects
    requires x == c ==> Trans(cause, Seen(s.conns[c].conn), Queued(s, c), Seen(o.conn), Queued(s, c))
    ensures Moves(s, Absorb(s, x, o), if x == c then cause else NoCause, c)
  {
    AbsorbView(s, x, o, c);
    if x != c { StillMoves(s, Absorb(s, x, o), c); }
  }

  lemma SetConnMoves(s: Server, x: ConnId, conn: Conn, c: ConnId)
    requires Known(s, x) && Known(s, c)
    requires x == c ==> Trans(NoCause, Seen(s.conns[c].conn), Queued(s, c), Seen(conn), Queued(s, c))
    ensures Moves(s, SetConn(s, x, conn), NoCause, c)
  {
    if x != c { StillMoves(s, SetConn(s, x, conn), c); }
  }

  lemma CallbackView(s: Server, x: ConnId, cb: Callback, rr: ReadResult, wr: WriteResult, c: ConnId)
    requires Known(s, x) && Known(s, c) && rr.Legal() && StreamInv(s.conns[x].conn)
    requires cb == OnWrite ==> MayAnswer(s.conns[x].conn, |s.conns[x].conn.output|, wr)
    ensures Moves(s, RunCallback(s, x, cb, rr, wr),
                  if x == c && cb == OnWrite && DrainsNow(s.conns[c].conn, wr) then Drains else NoCause, c)
  {
    var conn := s.conns[x].conn;
    var k := Queued(s, c);
    match cb {
      case OnClose =>
        CloseTrans(conn, k);
        if Live(conn) { AbsorbMoves(s, x, HandleClose(conn), NoCause, c); } else { StillMoves(s, Abort(s), c); }
      case OnError => StillMoves(s, s, c);
      case OnRead =>
        if !rr.EndOfFile? || Live(conn) {
          ReadTrans(conn, rr, k);
          AbsorbMoves(s, x, HandleRead(conn, rr), NoCause, c);
        } else {
          StillMoves(s, Abort(s), c);
        }
      case OnWrite =>
        WriteTrans(conn, wr, k);
        AbsorbMoves(s, x, HandleWrite(conn, wr), if DrainsNow(conn, wr) then Drains else NoCause, c);
    }
  }

  lemma LifeView(s: Server, l: LoopId, f: Functor, wr: WriteResult, c: ConnId)
    requires l < |s.loops| && Known(s, f.c) && Known(s, c) && (f.Establish? || f.Destroy? || f.Remove?)
    ensures Moves(s, RunFunctor(s, l, f, wr), NoCause, c)
  {
    var conn := s.conns[f.c].conn;
    LifeTrans(conn, Queued(s, c));
    StillMoves(s, Abort(s), c);
    match f {
      case Establish(x) => if conn.state == Connecting { SetConnMoves(s, x, ConnectEstablished(conn), c); }
      case Destroy(x) =>
        if ConnectDestroyedPrefix(conn).interest == NONE_EVENT && MayRemoveChannel(s.loops[l], x) {
          SetConnMoves(s, x, ConnectDestroyed(conn), c);
        }
      case Remove(x) =>
        RemoveStill(s, x, c);
        StillMoves(s, RemoveConnectionInLoop(s, x), c);
    }
  }

  /** A functor other than shutdownInLoop, already off the queue. */
  lemma FunctorView(s: Server, l: LoopId, f: Functor, wr: WriteResult, c: ConnId)
    requires l < |s.loops| && Known(s, f.c) && Known(s, c) && !f.ShutdownOf? && StreamInv(s.conns[f.c].conn)
    requires f.SendTo? ==> MayAnswer(s.conns[f.c].conn, |f.data|, wr)
    ensures Moves(s, RunFunctor(s, l, f, wr), if f.SendTo? && f.c == c then SendRuns(f.data) else NoCause, c)
  {
    var conn := s.conns[f.c].conn;
    var k := Queued(s, c);
    match f {
      case SendTo(x, data) =>
        SendTrans(conn, data, wr, k);
        SendBound(conn, data, wr);
        AbsorbMoves(s, x, SendInLoop(conn, data, wr), SendRuns(data), c);
      case ForceCloseOf(x) =>
        ForceCloseTrans(conn, k);
        AbsorbMoves(s, x, ForceCloseInLoop(conn), NoCause, c);
      case UserCallback(_) => StillMoves(s, s, c);
      case _ => LifeView(s, l, f, wr, c);
    }
  }

  lemma SendBound(conn: Conn, data: seq<Byte>, wr: WriteResult)
    requires MayAnswer(conn, |data|, wr)
    ensures var es := SendInLoop(conn, data, wr).effects; |es| <= 1 && QueueShutdown !in es
  {
  }

  lemma UserSendView(s: Server, x: ConnId, own: bool, data: seq<Byte>, wr: WriteResult, c: ConnId)
    requires Known(s, x) && Known(s, c) && StreamInv(s.conns[x].conn) && MayAnswer(s.conns[x].conn, |data|, wr)
    ensures Moves(s, Absorb(s, x, Send(s.conns[x].conn, own, data, wr)), NoCause, c)
  {
    SameTrans(s.conns[c].conn, Queued(s, c));
    UserSendTrans(s.conns[x].conn, own, data, wr, Queued(s, c));
    AbsorbView(s, x, Send(s.conns[x].conn, own, data, wr), c);
  }

  lemma UserShutdownView(s: Server, x: ConnId, own: bool, c: ConnId)
    requires Known(s, x) && Known(s, c)
    ensures Moves(s, Absorb(s, x, Shutdown(s.conns[x].conn, own)),
                  if x != c || s.conns[c].conn.state != Connected then NoCause
                  else if own then OwnShutdown else ForeignShutdown, c)
  {
    SameTrans(s.conns[c].conn, Queued(s, c));
    ShutdownTrans(s.conns[x].conn, own, Queued(s, c));
    AbsorbView(s, x, Shutdown(s.conns[x].conn, own), c);
  }

  lemma UserForceCloseView(s: Server, x: ConnId, c: ConnId)
    requires Known(s, x) && Known(s, c)
    ensures Moves(s, Absorb(s, x, ForceClose(s.conns[x].conn)), NoCause, c)
  {
    SameTrans(s.conns[c].conn, Queued(s, c));
    ForceCloseTrans(s.conns[x].conn, Queued(s, c));
    AbsorbView(s, x, ForceClose(s.conns[x].conn), c);
  }

  lemma TakesView(s: Server, x: ConnId, n: nat, c: ConnId)
    requires Known(s, x) && Known(s, c) && n <= |s.conns[x].conn.input|
    ensures Moves(s, SetConn(s, x, TakeInput(s.conns[x].conn, n)), NoCause, c)
  {
    SameTrans(s.conns[c].conn, Queued(s, c));
    SetConnMoves(s, x, TakeInput(s.conns[x].conn, n), c);
  }

  /** Taking the head off a batch. */
  lemma PopQueued(s: Server, l: LoopId, c: ConnId)
    requires l < |s.loops| && s.loops[l].batch != [] && Known(s, c)
    requires s.loops[l].batch[0] == ShutdownOf(c) ==> l == s.conns[c].loop
    ensures var s0 := SetLoop(s, l, s.loops[l].(batch := s.loops[l].batch[1..]));
            && Known(s0, c) && s0.conns == s.conns
            && Queued(s, c) == Queued(s0, c) + if s.loops[l].batch[0] == ShutdownOf(c) then 1 else 0
  {
    var q := s.loops[l].Queue();
    var lp := s.loops[l].(batch := s.loops[l].batch[1..]);
    assert q[0] == s.loops[l].batch[0] && q[1..] == lp.Queue();
    CountPop(q, ShutdownOf(c));
  }

  lemma FunctorStepView(s: Server, l: LoopId, wr: WriteResult, c: ConnId)
    requires Enabled(s, NextFunctor(l, wr)) && Known(s, c) && StreamInv(s.conns[s.loops[l].batch[0].c].conn)
    requires s.loops[l].batch[0] == ShutdownOf(c) ==> l == s.conns[c].loop
    ensures Moves(s, Apply(s, NextFunctor(l, wr)), CauseOf(s, NextFunctor(l, wr), c), c)
  {
    var f := s.loops[l].batch[0];
    PopQueued(s, l, c);
    var s0 := SetLoop(s, l, s.loops[l].(batch := s.loops[l].batch[1..]));
    if f.ShutdownOf? {
      ShutdownRuns(s, s0, f.c, c);
    } else {
      FunctorView(s0, l, f, wr, c);
    }
  }

  lemma ShutdownRuns(s: Server, s0: Server, x: ConnId, c: ConnId)
    requires Known(s, x) && Known(s, c) && Known(s0, c) && s0.conns == s.conns
    requires Queued(s, c) == Queued(s0, c) + if x == c then 1 else 0
    ensures x in s0.conns
    ensures Moves(s, SetConn(s0, x, ShutdownInLoop(s.conns[x].conn)), if x == c then FunctorRuns else NoCause, c)
  {
    SameTrans(s.conns[c].conn, Queued(s, c));
  }

  lemma CallbackStepView(s: Server, l: LoopId, rr: ReadResult, wr: WriteResult, c: ConnId)
    requires Enabled(s, NextCallback(l, rr, wr)) && Known(s, c) && StreamInv(s.conns[s.loops[l].active[0].c].conn)
    ensures Moves(s, Apply(s, NextCallback(l, rr, wr)), CauseOf(s, NextCallback(l, rr, wr), c), c)
  {
    var a := s.loops[l].active[0];
    var s0 := SetLoop(s, l, s.loops[l].(active := [a.(todo := a.todo[1..])] + s.loops[l].active[1..]));
    assert s0.loops[s.conns[c].loop].Queue() == s.loops[s.conns[c].loop].Queue();
    CallbackView(s0, a.c, a.todo[0], rr, wr, c);
  }

  lemma AcceptView(s: Server, ioLoop: LoopId, c: ConnId)
    requires Enabled(s, Accept(ioLoop)) && Known(s, c) && c != s.nextConnId
    ensures Moves(s, Apply(s, Accept(ioLoop)), NoCause, c)
  {
    var s1 := Apply(s, Accept(ioLoop)).(loops := s.loops);
    assert Still(s, s1, c);
    if ioLoop != BASE { PostQueued(s1, ioLoop, Establish(s.nextConnId), c); }
    StillMoves(s, Apply(s, Accept(ioLoop)), c);
  }

  /** A step of a loop that runs nothing. */
  lemma QuietView(s: Server, step: Step, c: ConnId)
    requires Enabled(s, step) && Known(s, c)
    requires step.Poll? || step.NextActive? || step.EndEvents? || step.EndFunctors?
    requires step.EndEvents? ==> s.loops[step.l].batch == []
    ensures Moves(s, Apply(s, step), NoCause, c)
  {
    assert Apply(s, step).loops[step.l].Queue() == s.loops[step.l].Queue();
    StillMoves(s, Apply(s, step), c);
  }

  /** What the invariant of the server gives here. */
  lemma ConnFacts(s: Server, c: ConnId)
    requires Inv(s) && c in s.conns
    ensures Known(s, c) && StreamInv(s.conns[c].conn) && c < s.nextConnId
  {
    assert ConnOk(s, c);
  }

  lemma StepFacts(s: Server, step: Step)
    requires Inv(s) && Enabled(s, step)
    ensures step.NextFunctor? ==>
              var f := s.loops[step.l].batch[0];
              f.c in s.conns && (f.ShutdownOf? ==> step.l == s.conns[f.c].loop)
    ensures step.NextCallback? ==> s.loops[step.l].active[0].c in s.conns
    ensures step.EndEvents? ==> s.loops[step.l].batch == []
  {
    if step.NextFunctor? {
      HeadFunctor(s, step.l);
    } else if step.EndEvents? {
      assert LoopOk(s, step.l);
    }
  }

  lemma StepView(s: Server, step: Step, c: ConnId)
    requires Inv(s) && Enabled(s, step) && c in s.conns
    ensures Known(s, c) && Moves(s, Apply(s, step), CauseOf(s, step, c), c)
  {
    ConnFacts(s, c);
    StepFacts(s, step);
    match step {
      case NextFunctor(l, wr) =>
        ConnFacts(s, s.loops[l].batch[0].c);
        FunctorStepView(s, l, wr, c);
      case NextCallback(l, rr, wr) =>
        ConnFacts(s, s.loops[l].active[0].c);
        CallbackStepView(s, l, rr, wr, c);
      case UserSend(who, x, data, wr) =>
        ConnFacts(s, x);
        UserSendView(s, x, who == LoopThread(s.conns[x].loop), data, wr, c);
      case UserShutdown(who, x) => UserShutdownView(s, x, who == LoopThread(s.conns[x].loop), c);
      case UserForceClose(_, x) => UserForceCloseView(s, x, c);
      case UserTakes(x, n) => TakesView(s, x, n, c);
      case Accept(ioLoop) => AcceptView(s, ioLoop, c);
      case _ => QuietView(s, step, c);
    }
  }

  // ---------------------------------------------------------------- every state of every run

  ghost predicate AllGood(s: Server) {
    forall c <- s.conns :: Known(s, c) && Good(Seen(s.conns[c].conn), Queued(s, c))
  }

  lemma Unqueued(s: Server, l: LoopId, c: ConnId)
    requires Inv(s) && c !in s.conns && l < |s.loops|
    ensures multiset(s.loops[l].Queue())[ShutdownOf(c)] == 0
  {
    var q := s.loops[l].Queue();
    if ShutdownOf(c) in q {
      var j :| 0 <= j < |q| && q[j] == ShutdownOf(c);
      ProjContains(q, j, c);
    }
  }

  lemma NewcomerGood(s: Server, ioLoop: LoopId)
    requires Inv(s) && Enabled(s, Accept(ioLoop))
    ensures var s', c := Apply(s, Accept(ioLoop)), s.nextConnId;
            Known(s', c) && Good(Seen(s'.conns[c].conn), Queued(s', c)) && s'.conns[c].conn.shutAt == []
            && Queued(s', c) == 0
  {
    var c := s.nextConnId;
    if c in s.conns { ConnFacts(s, c); }
    Unqueued(s, ioLoop, c);
    if ioLoop != BASE {
      CountPost(s.loops[ioLoop].Queue(), Establish(c), ShutdownOf(c));
      var lp := s.loops[ioLoop];
      assert lp.batch + (lp.pending + [Establish(c)]) == lp.Queue() + [Establish(c)];
    }
  }

  lemma StepKeepsGood(s: Server, step: Step, c: ConnId)
    requires Inv(s) && Enabled(s, step) && c in s.conns && Known(s, c)
    requires Good(Seen(s.conns[c].conn), Queued(s, c))
    ensures Known(Apply(s, step), c)
    ensures Good(Seen(Apply(s, step).conns[c].conn), Queued(Apply(s, step), c))
    ensures s.conns[c].conn.shutAt != [] ==> Apply(s, step).conns[c].conn.wire == s.conns[c].conn.wire
  {
    var s' := Apply(s, step);
    StepView(s, step, c);
    assert ConnOk(s, c);
    TransKeepsGood(CauseOf(s, step, c), Seen(s.conns[c].conn), Queued(s, c), Seen(s'.conns[c].conn), Queued(s', c));
  }

  /** A step adds at most the connection it accepts. */
  lemma StepKeepsAllGood(s: Server, step: Step)
    requires Inv(s) && AllGood(s) && Enabled(s, step)
    ensures AllGood(Apply(s, step))
  {
    var s' := Apply(s, step);
    forall c | c in s'.conns ensures Known(s', c) && Good(Seen(s'.conns[c].conn), Queued(s', c)) {
      if c in s.conns {
        StepKeepsGood(s, step, c);
      } else {
        OnlyAcceptAdds(s, step, c);
        NewcomerGood(s, step.ioLoop);
      }
    }
  }

  lemma {:induction false} RunKeepsAllGood(s: Server, steps: seq<Step>)
    requires Inv(s) && AllGood(s) && IsRun(s, steps)
    ensures Inv(After(s, steps)) && AllGood(After(s, steps))
    decreases steps
  {
    if steps != [] {
      StepKeepsInv(s, steps[0]);
      StepKeepsAllGood(s, steps[0]);
      RunKeepsAllGood(Apply(s, steps[0]), steps[1..]);
    }
  }

  lemma ReachedGood(n: nat, steps: seq<Step>, c: ConnId)
    requires IsRun(Init(n), steps) && c in After(Init(n), steps).conns
    ensures var s := After(Init(n), steps); Inv(s) && Known(s, c) && Good(Seen(s.conns[c].conn), Queued(s, c))
  {
    InitInv(n);
    RunKeepsAllGood(Init(n), steps);
  }

  /** A shutdown() that took effect on a connection that is still open and has nothing left to
      write has shut it, once its functor, if any, has run; and nothing follows a shut. */
  lemma ShutTakesEffect(n: nat, steps: seq<Step>, step: Step, c: ConnId)
    requires IsRun(Init(n), steps) && c in After(Init(n), steps).conns
    ensures var s := After(Init(n), steps);
            Known(s, c)
            && var conn := s.conns[c].conn;
            && |conn.shutAt| <= 2
            && (conn.shutRequested && conn.state == Disconnecting && conn.output == [] && Queued(s, c) == 0 ==>
                  conn.shutAt != [])
            && (Enabled(s, step) && conn.shutAt != [] ==>
                  c in Apply(s, step).conns && Apply(s, step).conns[c].conn.wire == conn.wire)
  {
    var s := After(Init(n), steps);
    ReachedGood(n, steps, c);
    if Enabled(s, step) {
      StepKeepsGood(s, step, c);
    }
  }

  // ---------------------------------------------------------------- shut twice

  /** The queued shutdownInLoop of c runs at this step. */
  predicate Runs(s: Server, step: Step, c: ConnId)
    requires Enabled(s, step)
  {
    step.NextFunctor? && s.loops[step.l].batch[0] == ShutdownOf(c)
  }

  ghost predicate RunsLater(s: Server, steps: seq<Step>, c: ConnId)
    requires IsRun(s, steps)
    decreases steps
  {
    steps != [] && (Runs(s, steps[0], c) || RunsLater(Apply(s, steps[0]), steps[1..], c))
  }

  /** handleWrite empties the buffer of c while it is disconnecting, at this step. */
  ghost predicate DrainsAt(s: Server, step: Step, c: ConnId)
    requires Enabled(s, step)
  {
    c in s.conns && CauseOf(s, step, c) == Drains
  }

  ghost predicate DrainsThenRuns(s: Server, steps: seq<Step>, c: ConnId)
    requires IsRun(s, steps)
    decreases steps
  {
    steps != []
    && ((DrainsAt(s, steps[0], c) && RunsLater(Apply(s, steps[0]), steps[1..], c))
        || DrainsThenRuns(Apply(s, steps[0]), steps[1..], c))
  }

  lemma {:induction false} DrainsImpliesRuns(s: Server, steps: seq<Step>, c: ConnId)
    requires IsRun(s, steps) && DrainsThenRuns(s, steps, c)
    ensures RunsLater(s, steps, c)
    decreases steps
  {
    if DrainsThenRuns(Apply(s, steps[0]), steps[1..], c) {
      DrainsImpliesRuns(Apply(s, steps[0]), steps[1..], c);
    }
  }

  /** shutdown() has taken effect on c and its functor, if it had one, has run. */
  ghost predicate Settled(s: Server, c: ConnId) {
    && Inv(s) && c in s.conns && Known(s, c)
    && Good(Seen(s.conns[c].conn), Queued(s, c)) && Queued(s, c) == 0 && Past(Seen(s.conns[c].conn))
  }

  lemma StaysSettled(s: Server, step: Step, c: ConnId)
    requires Settled(s, c) && Enabled(s, step)
    ensures Settled(Apply(s, step), c) && !Runs(s, step, c)
  {
    StepView(s, step, c);
    StepKeepsGood(s, step, c);
    StepKeepsInv(s, step);
  }

  /** Once shutdown() has taken effect no second functor is queued. */
  lemma {:induction false} NoneLater(s: Server, steps: seq<Step>, c: ConnId)
    requires IsRun(s, steps) && Settled(s, c)
    ensures !RunsLater(s, steps, c)
    decreases steps
  {
    if steps != [] {
      StaysSettled(s, steps[0], c);
      NoneLater(Apply(s, steps[0]), steps[1..], c);
    }
  }

  /** How the count of shuts moves, by cause. */
  lemma TransShuts(cause: Cause, v: View, k: nat, v': View, k': nat)
    requires Good(v, k) && Trans(cause, v, k, v', k')
    ensures |v.shutAt| == 2 ==> |v'.shutAt| == 2
    ensures |v.shutAt| == 1 ==> |v'.shutAt| == if cause.FunctorRuns? then 2 else 1
    ensures v.shutAt == [] && cause.Drains? ==> |v'.shutAt| == 1
    ensures v.shutAt == [] && (cause.FunctorRuns? || cause.OwnShutdown?) ==>
              |v'.shutAt| <= 1 && k' == 0 && Past(v')
    ensures v.shutAt == [] && !cause.Drains? && !cause.FunctorRuns? && !cause.OwnShutdown? ==> v'.shutAt == []
    ensures v.shutAt != [] && cause.FunctorRuns? ==> v.output == []
  {
  }

  lemma StepShuts(s: Server, step: Step, c: ConnId)
    requires Inv(s) && Enabled(s, step) && c in s.conns && Known(s, c)
    requires Good(Seen(s.conns[c].conn), Queued(s, c))
    ensures var s' := Apply(s, step);
            && Known(s', c) && Good(Seen(s'.conns[c].conn), Queued(s', c)) && Inv(s')
            && var shutAt, shutAt', cause := s.conns[c].conn.shutAt, s'.conns[c].conn.shutAt, CauseOf(s, step, c);
            && (|shutAt| == 2 ==> |shutAt'| == 2)
            && (|shutAt| == 1 ==> |shutAt'| == if cause.FunctorRuns? then 2 else 1)
            && (shutAt == [] && cause.Drains? ==> |shutAt'| == 1)
            && (shutAt == [] && (cause.FunctorRuns? || cause.OwnShutdown?) ==>
                  |shutAt'| <= 1 && Queued(s', c) == 0 && Past(Seen(s'.conns[c].conn)))
            && (shutAt == [] && !cause.Drains? && !cause.FunctorRuns? && !cause.OwnShutdown? ==> shutAt' == [])
            && (shutAt != [] && cause.FunctorRuns? ==> s.conns[c].conn.output == [])
  {
    var s' := Apply(s, step);
    StepView(s, step, c);
    StepKeepsGood(s, step, c);
    StepKeepsInv(s, step);
    TransShuts(CauseOf(s, step, c), Seen(s.conns[c].conn), Queued(s, c), Seen(s'.conns[c].conn), Queued(s', c));
  }

  lemma {:induction false} TwiceStays(s: Server, steps: seq<Step>, c: ConnId)
    requires Inv(s) && IsRun(s, steps) && c in s.conns && Known(s, c)
    requires Good(Seen(s.conns[c].conn), Queued(s, c)) && |s.conns[c].conn.shutAt| == 2
    ensures c in After(s, steps).conns && |After(s, steps).conns[c].conn.shutAt| == 2
    decreases steps
  {
    if steps != [] {
      StepShuts(s, steps[0], c);
      TwiceStays(Apply(s, steps[0]), steps[1..], c);
    }
  }

  lemma {:induction false} TwiceAfterOnce(s: Server, steps: seq<Step>, c: ConnId)
    requires Inv(s) && IsRun(s, steps) && c in s.conns && Known(s, c)
    requires Good(Seen(s.conns[c].conn), Queued(s, c)) && |s.conns[c].conn.shutAt| == 1
    ensures c in After(s, steps).conns && (|After(s, steps).conns[c].conn.shutAt| == 2 <==> RunsLater(s, steps, c))
    decreases steps
  {
    if steps != [] {
      StepShuts(s, steps[0], c);
      if Runs(s, steps[0], c) {
        TwiceStays(Apply(s, steps[0]), steps[1..], c);
      } else {
        TwiceAfterOnce(Apply(s, steps[0]), steps[1..], c);
      }
    }
  }

  lemma {:induction false} TwiceFrom(s: Server, steps: seq<Step>, c: ConnId)
    requires Inv(s) && IsRun(s, steps) && c in s.conns && Known(s, c)
    requires Good(Seen(s.conns[c].conn), Queued(s, c)) && s.conns[c].conn.shutAt == []
    ensures c in After(s, steps).conns
    ensures |After(s, steps).conns[c].conn.shutAt| == 2 <==> DrainsThenRuns(s, steps, c)
    decreases steps
  {
    if steps != [] {
      var s', rest := Apply(s, steps[0]), steps[1..];
      StepShuts(s, steps[0], c);
      if s'.conns[c].conn.shutAt == [] {
        TwiceFrom(s', rest, c);
      } else {
        TwiceAfterOnce(s', rest, c);
        if !DrainsAt(s, steps[0], c) {
          NoneLater(s', rest, c);
        }
      }
      if DrainsThenRuns(s', rest, c) {
        DrainsImpliesRuns(s', rest, c);
      }
    }
  }

  lemma NotYet(s: Server, step: Step, c: ConnId)
    requires Inv(s) && Enabled(s, step) && c !in s.conns
    ensures !Runs(s, step, c) && !DrainsAt(s, step, c)
    ensures var s' := Apply(s, step);
            c in s'.conns ==>
              Known(s', c) && Good(Seen(s'.conns[c].conn), Queued(s', c)) && s'.conns[c].conn.shutAt == []
  {
    StepFacts(s, step);
    if c in Apply(s, step).conns {
      OnlyAcceptAdds(s, step, c);
      NewcomerGood(s, step.ioLoop);
    }
  }

  lemma {:induction false} TwiceBefore(s: Server, steps: seq<Step>, c: ConnId)
    requires Inv(s) && IsRun(s, steps) && c !in s.conns
    ensures c in After(s, steps).conns ==>
              (|After(s, steps).conns[c].conn.shutAt| == 2 <==> DrainsThenRuns(s, steps, c))
    decreases steps
  {
    if steps != [] {
      var s' := Apply(s, steps[0]);
      NotYet(s, steps[0], c);
      StepKeepsInv(s, steps[0]);
      if c in s'.conns {
        TwiceFrom(s', steps[1..], c);
      } else {
        TwiceBefore(s', steps[1..], c);
      }
    }
  }

  // ---------------------------------------------------------------- shut too early

  /** The queued shutdownInLoop of c runs, at this step, on a closed connection that has bytes
      waiting. */
  ghost predicate CutsShort(s: Server, step: Step, c: ConnId)
    requires Enabled(s, step)
  {
    Runs(s, step, c) && c in s.conns && s.conns[c].conn.state == Disconnected && s.conns[c].conn.output != []
  }

  ghost predicate CutShort(s: Server, steps: seq<Step>, c: ConnId)
    requires IsRun(s, steps)
    decreases steps
  {
    steps != [] && (CutsShort(s, steps[0], c) || CutShort(Apply(s, steps[0]), steps[1..], c))
  }

  lemma {:induction false} NoCutAfterShut(s: Server, steps: seq<Step>, c: ConnId)
    requires Inv(s) && IsRun(s, steps) && c in s.conns && Known(s, c)
    requires Good(Seen(s.conns[c].conn), Queued(s, c)) && s.conns[c].conn.shutAt != []
    ensures !CutShort(s, steps, c)
    decreases steps
  {
    if steps != [] {
      StepShuts(s, steps[0], c);
      NoCutAfterShut(Apply(s, steps[0]), steps[1..], c);
    }
  }

  /** Nothing that was accepted is missing from the wire. */
  predicate Whole(c: Conn) { c.wire == c.accepted }

  /** Where the accepted bytes are after a step, as long as no write has failed. */
  lemma TransMissing(cause: Cause, v: View, k: nat, v': View, k': nat)
    requires Good(v, k) && Trans(cause, v, k, v', k') && !v'.fault && v.wire + v.output == v.accepted
    requires v.state != Disconnected ==> (v.write <==> v.output != [])
    ensures v.shutAt != [] ==> (v'.wire == v'.accepted <==> v.wire == v.accepted)
    ensures v.shutAt == [] && v'.shutAt != [] ==>
              (v'.wire != v'.accepted <==> cause.FunctorRuns? && v.state == Disconnected && v.output != [])
  {
    assert |v.wire + v.output| == |v.wire| + |v.output|;
    assert v.output == [] ==> v.wire + v.output == v.wire;
  }

  lemma TransFault(cause: Cause, v: View, k: nat, v': View, k': nat)
    requires Trans(cause, v, k, v', k') && v.fault
    ensures v'.fault
  {
  }

  lemma StepMissing(s: Server, step: Step, c: ConnId)
    requires Inv(s) && Enabled(s, step) && c in s.conns && Known(s, c)
    requires Good(Seen(s.conns[c].conn), Queued(s, c))
    ensures Known(Apply(s, step), c)
    ensures var conn, conn' := s.conns[c].conn, Apply(s, step).conns[c].conn;
            && (!conn'.fault ==> !conn.fault)
            && (!conn'.fault && conn.shutAt != [] ==> Whole(conn') == Whole(conn))
            && (!conn'.fault && conn.shutAt == [] && conn'.shutAt != [] ==> (!Whole(conn') <==> CutsShort(s, step, c)))
  {
    var s' := Apply(s, step);
    StepView(s, step, c);
    assert ConnOk(s, c);
    var v, v', k, k' := Seen(s.conns[c].conn), Seen(s'.conns[c].conn), Queued(s, c), Queued(s', c);
    if v.fault {
      TransFault(CauseOf(s, step, c), v, k, v', k');
    } else if !v'.fault {
      TransMissing(CauseOf(s, step, c), v, k, v', k');
    }
  }

  /** A functor that cuts short also shuts. */
  lemma CutsAndShuts(s: Server, step: Step, c: ConnId)
    requires Inv(s) && Enabled(s, step) && c in s.conns && CutsShort(s, step, c)
    ensures c in Apply(s, step).conns && Apply(s, step).conns[c].conn.shutAt != []
  {
    StepView(s, step, c);
    assert ConnOk(s, c);
  }

  lemma {:induction false} MissingFrom(s: Server, steps: seq<Step>, c: ConnId)
    requires Inv(s) && IsRun(s, steps) && c in s.conns && Known(s, c)
    requires Good(Seen(s.conns[c].conn), Queued(s, c))
    ensures c in After(s, steps).conns
    ensures var before, after := s.conns[c].conn, After(s, steps).conns[c].conn;
            && (!after.fault ==> !before.fault)
            && (!after.fault && after.shutAt != [] ==>
                  (!Whole(after) <==> if before.shutAt != [] then !Whole(before) else CutShort(s, steps, c)))
    decreases steps
  {
    if steps != [] {
      var s', rest := Apply(s, steps[0]), steps[1..];
      StepShuts(s, steps[0], c);
      StepMissing(s, steps[0], c);
      MissingFrom(s', rest, c);
      if CutsShort(s, steps[0], c) {
        CutsAndShuts(s, steps[0], c);
      }
      if s'.conns[c].conn.shutAt != [] {
        NoCutAfterShut(s', rest, c);
      }
    }
  }

  lemma {:induction false} MissingBefore(s: Server, steps: seq<Step>, c: ConnId)
    requires Inv(s) && IsRun(s, steps) && c !in s.conns
    ensures c in After(s, steps).conns ==>
              var conn := After(s, steps).conns[c].conn;
              !conn.fault && conn.shutAt != [] ==> (!Whole(conn) <==> CutShort(s, steps, c))
    decreases steps
  {
    if steps != [] {
      var s' := Apply(s, steps[0]);
      NotYet(s, steps[0], c);
      StepKeepsInv(s, steps[0]);
      if c in s'.conns {
        MissingFrom(s', steps[1..], c);
      } else {
        MissingBefore(s', steps[1..], c);
      }
    }
  }

  // ---------------------------------------------------------------- the theorem

  /** Graceful shutdown, for callers in any thread. The writing side is shut at most twice, and
      twice exactly when a queued shutdownInLoop runs after the drain has shut it. As long as no
      write has failed, a side that was shut has every accepted byte on the wire, except exactly
      when a queued shutdownInLoop ran on a connection closed with bytes still waiting. */
  lemma ShutdownExactly(n: nat, steps: seq<Step>, c: ConnId)
    requires IsRun(Init(n), steps) && c in After(Init(n), steps).conns
    ensures var conn := After(Init(n), steps).conns[c].conn;
            && |conn.shutAt| <= 2
            && (|conn.shutAt| == 2 <==> DrainsThenRuns(Init(n), steps, c))
            && (!conn.fault && conn.shutAt != [] ==>
                  (conn.wire != conn.accepted <==> CutShort(Init(n), steps, c)))
  {
    InitInv(n);
    ReachedGood(n, steps, c);
    TwiceBefore(Init(n), steps, c);
    MissingBefore(Init(n), steps, c);
  }

  lemma TransLate(cause: Cause, v: View, k: nat, v': View, k': nat)
    requires Good(v, k) && Trans(cause, v, k, v', k') && v.shutAt != []
    ensures v'.wire == v.wire
    ensures v'.accepted != v.accepted <==> cause.SendRuns? && v.state == Disconnecting && cause.data != []
  {
    if cause.SendRuns? {
      assert |v.accepted + cause.data| == |v.accepted| + |cause.data|;
      assert cause.data == [] ==> v.accepted + cause.data == v.accepted;
    }
  }

  /** A functor that sends, and runs after the side was shut, is the one way to accept bytes
      that cannot be delivered. */
  lemma LateBytesLost(n: nat, steps: seq<Step>, step: Step, c: ConnId)
    requires IsRun(Init(n), steps) && Enabled(After(Init(n), steps), step) && c in After(Init(n), steps).conns
    requires After(Init(n), steps).conns[c].conn.shutAt != []
    ensures var s := After(Init(n), steps);
            && c in Apply(s, step).conns
            && var conn, conn' := s.conns[c].conn, Apply(s, step).conns[c].conn;
            && conn'.wire == conn.wire
            && (conn'.accepted != conn.accepted <==>
                  step.NextFunctor? && conn.state == Disconnecting
                  && var f := s.loops[step.l].batch[0]; f.SendTo? && f.c == c && f.data != [])
  {
    ReachedGood(n, steps, c);
    LateStep(After(Init(n), steps), step, c);
  }

  lemma LateStep(s: Server, step: Step, c: ConnId)
    requires Inv(s) && Enabled(s, step) && c in s.conns && Known(s, c) && s.conns[c].conn.shutAt != []
    requires Good(Seen(s.conns[c].conn), Queued(s, c))
    ensures c in Apply(s, step).conns
    ensures var conn, conn', cause := s.conns[c].conn, Apply(s, step).conns[c].conn, CauseOf(s, step, c);
            && conn'.wire == conn.wire
            && (conn'.accepted != conn.accepted <==>
                  cause.SendRuns? && conn.state == Disconnecting && cause.data != [])
  {
    var s' := Apply(s, step);
    StepView(s, step, c);
    TransLate(CauseOf(s, step, c), Seen(s.conns[c].conn), Queued(s, c), Seen(s'.conns[c].conn), Queued(s', c));
  }

  /** shutdown() is called in the connection's own loop only. */
  predicate OwnThread(s: Server, step: Step) {
    step.UserShutdown? && step.c in s.conns ==> step.who == LoopThread(s.conns[step.c].loop)
  }

  ghost predicate IsOwnRun(s: Server, steps: seq<Step>)
    requires IsRun(s, steps)
    decreases steps
  {
    steps == [] || (OwnThread(s, steps[0]) && IsOwnRun(Apply(s, steps[0]), steps[1..]))
  }

  /** Without a shutdown() in another thread no shutdown functor is ever queued. */
  lemma OwnStepQueuesNone(s: Server, step: Step, c: ConnId)
    requires Inv(s) && Enabled(s, step) && OwnThread(s, step)
    requires c in s.conns ==> Known(s, c) && Queued(s, c) == 0
    ensures !Runs(s, step, c) && !CutsShort(s, step, c)
    ensures c in Apply(s, step).conns ==> Known(Apply(s, step), c) && Queued(Apply(s, step), c) == 0
  {
    if c in s.conns {
      StepView(s, step, c);
    } else {
      NotYet(s, step, c);
      if c in Apply(s, step).conns {
        OnlyAcceptAdds(s, step, c);
        NewcomerGood(s, step.ioLoop);
      }
    }
  }

  lemma {:induction false} OwnRunsNone(s: Server, steps: seq<Step>, c: ConnId)
    requires Inv(s) && IsRun(s, steps) && IsOwnRun(s, steps) && (c in s.conns ==> Known(s, c) && Queued(s, c) == 0)
    ensures !RunsLater(s, steps, c) && !CutShort(s, steps, c) && !DrainsThenRuns(s, steps, c)
    ensures c in After(s, steps).conns ==> Known(After(s, steps), c) && Queued(After(s, steps), c) == 0
    decreases steps
  {
    if steps != [] {
      StepKeepsInv(s, steps[0]);
      OwnStepQueuesNone(s, steps[0], c);
      OwnRunsNone(Apply(s, steps[0]), steps[1..], c);
    }
  }

  /** When shutdown() is called in the loop's thread only, whoever sends: the side is shut at
      most once, with every accepted byte on the wire unless a write failed, and it is shut as
      soon as an open connection that was shut down has nothing left to write. */
  lemma GracefulShutdown(n: nat, steps: seq<Step>, c: ConnId)
    requires IsRun(Init(n), steps) && IsOwnRun(Init(n), steps) && c in After(Init(n), steps).conns
    ensures var conn := After(Init(n), steps).conns[c].conn;
            && |conn.shutAt| <= 1
            && (conn.shutAt != [] && !conn.fault ==> conn.wire == conn.accepted)
            && (conn.shutRequested && conn.state == Disconnecting && conn.output == [] ==> |conn.shutAt| == 1)
  {
    InitInv(n);
    OwnRunsNone(Init(n), steps, c);
    ShutdownExactly(n, steps, c);
    ReachedGood(n, steps, c);
  }

  // ---------------------------------------------------------------- how it goes wrong

  lemma {:induction false} Extend(s: Server, steps: seq<Step>, step: Step)
    requires IsRun(s, steps) && Enabled(After(s, steps), step)
    ensures IsRun(s, steps + [step]) && After(s, steps + [step]) == Apply(After(s, steps), step)
    decreases steps
  {
    if steps == [] {
      assert ([] + [step])[1..] == [];
    } else {
      assert (steps + [step])[1..] == steps[1..] + [step];
      Extend(Apply(s, steps[0]), steps[1..], step);
    }
  }

  /** A server of one loop with one connection. */
  function At(lp: Loop, conn: Conn): Server {
    Server([lp], map[1 := Entry(0, conn)], {1}, 2, false)
  }

  /** Connected, with `output` waiting of the one byte that was sent, if it was. */
  function Open(state: State, sent: bool): Conn {
    var bytes: seq<Byte> := if sent then [1] else [];
    Conn(state, Interest(true, sent), true, [], [], bytes, true, Some(64 * 1024 * 1024), [], bytes, false,
         [], state == Disconnecting, [Up])
  }

  lemma Accepted() returns (steps: seq<Step>)
    ensures IsRun(Init(0), steps) && After(Init(0), steps) == At(Loop(Handling, [], [], []), Open(Connected, false))
  {
    steps := [];
    assert Init(0).loops == [Loop(Polling, [], [], [])];
    Extend(Init(0), steps, Poll(0, []));
    steps := steps + [Poll(0, [])];
    assert After(Init(0), steps).loops == [Loop(Handling, [], [], [])];
    var s := After(Init(0), steps);
    Extend(Init(0), steps, Accept(0));
    steps := steps + [Accept(0)];
    assert ConnectEstablished(Fresh(true, Some(64 * 1024 * 1024))) == Open(Connected, false);
    assert Apply(s, Accept(0)).conns == map[1 := Entry(0, Open(Connected, false))];
  }

  lemma SendBlocks()
    ensures var s, step := At(Loop(Handling, [], [], []), Open(Connected, false)),
                           UserSend(LoopThread(0), 1, [1], WouldBlock);
            Enabled(s, step) && Apply(s, step) == At(Loop(Handling, [], [], []), Open(Connected, true))
  {
    var data: seq<Byte> := [1];
    assert data[0..] == data && [] + data[..0] == [] && [] + data == data;
  }

  lemma ShutdownPosts()
    ensures var s := At(Loop(Functors, [], [], []), Open(Connected, true));
            && Enabled(s, UserShutdown(OtherThread, 1))
            && Apply(s, UserShutdown(OtherThread, 1))
               == At(Loop(Functors, [], [], [ShutdownOf(1)]), Open(Disconnecting, true))
  {
    var s := At(Loop(Functors, [], [], []), Open(Connected, true));
    var o := Shutdown(Open(Connected, true), false);
    assert o == Outcome(Open(Disconnecting, true), [QueueShutdown]);
    EmitOne(SetConn(s, 1, o.conn), 1, o.effects);
    assert [] + [ShutdownOf(1)] == [ShutdownOf(1)];
  }

  /** One connection with one byte that the kernel did not take, shut down by another thread
      after the loop took its batch. */
  function Waiting(): Server {
    At(Loop(Polling, [], [], [ShutdownOf(1)]), Open(Disconnecting, true))
  }

  lemma WaitingReachable() returns (steps: seq<Step>)
    ensures IsRun(Init(0), steps) && After(Init(0), steps) == Waiting()
  {
    steps := Accepted();
    SendBlocks();
    Extend(Init(0), steps, UserSend(LoopThread(0), 1, [1], WouldBlock));
    steps := steps + [UserSend(LoopThread(0), 1, [1], WouldBlock)];
    Extend(Init(0), steps, EndEvents(0));
    steps := steps + [EndEvents(0)];
    assert After(Init(0), steps).loops == [Loop(Functors, [], [], [])];
    ShutdownPosts();
    Extend(Init(0), steps, UserShutdown(OtherThread, 1));
    steps := steps + [UserShutdown(OtherThread, 1)];
    Extend(Init(0), steps, EndFunctors(0));
    steps := steps + [EndFunctors(0)];
    assert After(Init(0), steps).loops == Waiting().loops;
  }

  const WRITABLE := Revents(false, false, true, false, false, false, false)
  const HUNG_UP := Revents(false, false, false, false, true, false, false)

  /** From there, the poll reports one event of the connection. */
  lemma OneReport(r: Revents, cb: Callback) returns (steps: seq<Step>)
    requires r in [WRITABLE, HUNG_UP] && Dispatch(r) == [cb]
    ensures IsRun(Init(0), steps)
    ensures After(Init(0), steps)
            == At(Loop(Handling, [Active(1, [cb])], [], [ShutdownOf(1)]), Open(Disconnecting, true))
  {
    steps := WaitingReachable();
    var reports := [Report(1, r)];
    assert ToActive(reports) == [Active(1, [cb])];
    Extend(Init(0), steps, Poll(0, reports));
    steps := steps + [Poll(0, reports)];
  }

  /** Its one callback is handled, and the batch begins. */
  lemma OneCallback(r: Revents, cb: Callback, wr: WriteResult, after: Server, conn: Conn, more: Functor)
    returns (steps: seq<Step>)
    requires r in [WRITABLE, HUNG_UP] && Dispatch(r) == [cb]
    requires cb == OnWrite ==> wr == Wrote(1)
    requires after == RunCallback(At(Loop(Handling, [Active(1, [])], [], [ShutdownOf(1)]), Open(Disconnecting, true)),
                                  1, cb, ReadError, wr)
    requires after.loops == [Loop(Handling, [Active(1, [])], [], [ShutdownOf(1), more])]
    requires 1 in after.conns && after.conns[1] == Entry(0, conn)
    ensures IsRun(Init(0), steps)
    ensures var s := After(Init(0), steps);
            && s.loops == [Loop(Functors, [], [ShutdownOf(1), more], [])] && 1 in s.conns
            && s.conns[1] == Entry(0, conn)
  {
    steps := OneReport(r, cb);
    OneHandled(cb, wr, after);
    Extend(Init(0), steps, NextCallback(0, ReadError, wr));
    steps := steps + [NextCallback(0, ReadError, wr)];
    BatchBegins(after, [ShutdownOf(1), more]);
    Extend(Init(0), steps, NextActive(0));
    steps := steps + [NextActive(0)];
    Extend(Init(0), steps, EndEvents(0));
    steps := steps + [EndEvents(0)];
  }

  lemma BatchBegins(s: Server, fs: seq<Functor>)
    requires s.loops == [Loop(Handling, [Active(1, [])], [], fs)]
    ensures Enabled(s, NextActive(0))
    ensures var s1 := Apply(s, NextActive(0));
            Enabled(s1, EndEvents(0))
            && Apply(s1, EndEvents(0)) == s.(loops := [Loop(Functors, [], fs, [])])
  {
    assert [Active(1, [])][1..] == [];
  }

  lemma OneHandled(cb: Callback, wr: WriteResult, after: Server)
    requires cb == OnWrite ==> wr == Wrote(1)
    requires after == RunCallback(At(Loop(Handling, [Active(1, [])], [], [ShutdownOf(1)]), Open(Disconnecting, true)),
                                  1, cb, ReadError, wr)
    ensures var s := At(Loop(Handling, [Active(1, [cb])], [], [ShutdownOf(1)]), Open(Disconnecting, true));
            Enabled(s, NextCallback(0, ReadError, wr)) && Apply(s, NextCallback(0, ReadError, wr)) == after
  {
    var s := At(Loop(Handling, [Active(1, [cb])], [], [ShutdownOf(1)]), Open(Disconnecting, true));
    var lp := Loop(Handling, [Active(1, [])], [], [ShutdownOf(1)]);
    assert [cb][1..] == [] && [Active(1, [])] + [] == [Active(1, [])] && s.loops[0].active[1..] == [];
    assert SetLoop(s, 0, lp) == At(lp, Open(Disconnecting, true));
  }

  lemma OneLoop(lp: Loop, f: Functor)
    requires lp.pending == [ShutdownOf(1)]
    ensures [lp][0 := lp.(pending := lp.pending + [f])] == [lp.(pending := [ShutdownOf(1), f])]
  {
    assert [ShutdownOf(1)] + [f] == [ShutdownOf(1), f];
  }

  /** The buffer drains before the functor runs: the side is shut twice. */
  lemma ShutTwice() returns (steps: seq<Step>)
    ensures IsRun(Init(0), steps)
    ensures var s := After(Init(0), steps); 1 in s.conns && |s.conns[1].conn.shutAt| == 2
  {
    var conn := Open(Disconnecting, true);
    var drained := HandleWrite(conn, Wrote(1));
    assert conn.output[..1] == [1] && conn.output[1..] == [];
    assert drained.conn.shutAt == [1] && drained.effects == [QueueWriteComplete];
    var s0 := At(Loop(Handling, [Active(1, [])], [], [ShutdownOf(1)]), conn);
    EmitOne(SetConn(s0, 1, drained.conn), 1, drained.effects);
    var after := RunCallback(s0, 1, OnWrite, ReadError, Wrote(1));
    OneLoop(s0.loops[0], UserCallback(1));
    assert after.loops == [Loop(Handling, [Active(1, [])], [], [ShutdownOf(1), UserCallback(1)])];
    steps := OneCallback(WRITABLE, OnWrite, Wrote(1), after, drained.conn, UserCallback(1));
    Extend(Init(0), steps, NextFunctor(0, WouldBlock));
    steps := steps + [NextFunctor(0, WouldBlock)];
  }

  /** The peer hangs up before the functor runs: the side is shut, no write has failed, and the
      accepted byte was never written. */
  lemma ShutWithBytesWaiting() returns (steps: seq<Step>)
    ensures IsRun(Init(0), steps)
    ensures var s := After(Init(0), steps);
            1 in s.conns && var conn := s.conns[1].conn;
            |conn.shutAt| == 1 && !conn.fault && conn.wire == [] && conn.accepted == [1]
  {
    var conn := Open(Disconnecting, true);
    var closed := HandleClose(conn);
    var s0 := At(Loop(Handling, [Active(1, [])], [], [ShutdownOf(1)]), conn);
    EmitOne(SetConn(s0, 1, closed.conn), 1, closed.effects);
    var after := RunCallback(s0, 1, OnClose, ReadError, WouldBlock);
    OneLoop(s0.loops[0], Destroy(1));
    assert after.loops == [Loop(Handling, [Active(1, [])], [], [ShutdownOf(1), Destroy(1)])];
    steps := OneCallback(HUNG_UP, OnClose, WouldBlock, after, after.conns[1].conn, Destroy(1));
    Extend(Init(0), steps, NextFunctor(0, WouldBlock));
    steps := steps + [NextFunctor(0, WouldBlock)];
  }
}
