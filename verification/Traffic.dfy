/** What goes through one connection (networker/net/TcpConnection.cpp:68-202, 258-326), over every
    run of the server.

    A step of the server does one thing at most to a connection: its `Deed`. An `Account` of a
    run adds up what the deeds brought: bytes handed to sendInLoop, bytes the kernel took or
    refused, bytes received, functors queued and run. The state of the connection is shown to
    balance with it. */
module Traffics {
  import opened Buffers
  import opened Channels
  import opened Options
  import opened TcpConnections
  import opened TcpServers

  datatype Deed =
    | Sends(data: seq<Byte>, wr: WriteResult)   // sendInLoop runs
    | Hands(data: seq<Byte>)                    // send() in another thread
    | Writes(wr: WriteResult)                   // handleWrite
    | Receives(data: seq<Byte>)
    | Takes(n: nat)                             // the user empties the input buffer
    | ShutsHere                                 // shutdown(), or its functor, in the loop
    | ShutsAway                                 // shutdown() in another thread
    | RunsShut                                  // the functor of such a shutdown()
    | Forces                                    // forceClose()
    | Closes                                    // handleClose
    | Rises                                     // connectEstablished
    | Falls                                     // connectDestroyed
    | Leaves                                    // removeConnectionInLoop, as a functor
    | Nothing

  function DeedOf(s: Server, step: Step, c: ConnId): Deed
    requires Enabled(s, step) && c in s.conns
  {
    var conn := s.conns[c].conn;
    match step
    case UserSend(who, x, data, wr) =>
      if x != c || conn.state != Connected then Nothing
      else if who == LoopThread(s.conns[c].loop) then Sends(data, wr) else Hands(data)
    case UserShutdown(who, x) =>
      if x != c || conn.state != Connected then Nothing
      else if who == LoopThread(s.conns[c].loop) then ShutsHere else ShutsAway
    case UserForceClose(_, x) => if x == c && Live(conn) then Forces else Nothing
    case UserTakes(x, n) => if x == c then Takes(n) else Nothing
    case NextCallback(l, rr, wr) =>
      var a := s.loops[l].active[0];
      if a.c == c then OfCallback(a.todo[0], rr, wr) else Nothing
    case NextFunctor(l, wr) =>
      var f := s.loops[l].batch[0];
      if f.c == c then OfFunctor(f, conn, wr) else Nothing
    case _ => Nothing
  }

  function OfCallback(cb: Callback, rr: ReadResult, wr: WriteResult): Deed {
    match cb
    case OnClose => Closes
    case OnError => Nothing
    case OnRead => if rr.Received? then Receives(rr.data) else if rr.EndOfFile? then Closes else Nothing
    case OnWrite => Writes(wr)
  }

  function OfFunctor(f: Functor, conn: Conn, wr: WriteResult): Deed {
    match f
    case SendTo(_, data) => Sends(data, wr)
    case ShutdownOf(_) => RunsShut
    case ForceCloseOf(_) => if Live(conn) then Closes else Nothing
    case Establish(_) => Rises
    case Destroy(_) => Falls
    case Remove(_) => Leaves
    case UserCallback(_) => Nothing
  }

  // ---------------------------------------------------------------- what a deed brings

  /** What write(2) answered, if the deed called it. */
  function Answer(conn: Conn, d: Deed): Option<WriteResult> {
    match d
    case Sends(_, wr) => SendAnswer(conn, wr)
    case Writes(wr) => WriteAnswer(conn, wr)
    case _ => None
  }

  /** The bytes that enter the connection. */
  function Enters(conn: Conn, d: Deed): seq<Byte> {
    if d.Sends? && conn.state != Disconnected then d.data else []
  }

  /** Those of them that are dropped at once: the peer is gone. */
  function Drops(conn: Conn, d: Deed): seq<Byte> {
    if d.Sends? && SendAnswer(conn, d.wr) == Some(PeerGone) then d.data else []
  }

  /** The functors that the deed queues on the connection's own loop; `home` if that is the
      server's. A completed write and a crossed high-water mark each queue the user's callback. */
  function Queues(conn: Conn, d: Deed, c: ConnId, home: bool): seq<Functor> {
    match d
    case Sends(data, wr) => if Completes(conn, d) || Crosses(conn, d) then [UserCallback(c)] else []
    case Writes(wr) => if Completes(conn, d) then [UserCallback(c)] else []
    case Hands(data) => [SendTo(c, CString(data))]
    case ShutsAway => [ShutdownOf(c)]
    case Forces => [ForceCloseOf(c)]
    case Closes => if home then [Destroy(c)] else []
    case Leaves => [Destroy(c)]
    case _ => []
  }

  /** The kernel took all there was to write. */
  predicate Completes(conn: Conn, d: Deed) {
    && conn.wantsComplete
    && match d
       case Sends(data, _) => Answer(conn, d) == Some(Wrote(|data|))
       case Writes(_) => conn.output != [] && Answer(conn, d) == Some(Wrote(|conn.output|))
       case _ => false
  }

  /** What waits reaches the high-water mark from below. */
  predicate Crosses(conn: Conn, d: Deed) {
    && d.Sends? && conn.highWaterMark.Some? && Answer(conn, d) != Some(PeerGone) && conn.state != Disconnected
    && |conn.output| < conn.highWaterMark.value <= |conn.output| + |d.data| - Took(Answer(conn, d))
  }

  // ---------------------------------------------------------------- one connection's handlers

  /** A deed that can be done to the connection. */
  predicate Doable(conn: Conn, d: Deed) {
    match d
    case Sends(data, wr) => MayAnswer(conn, |data|, wr)
    case Writes(wr) => MayAnswer(conn, |conn.output|, wr)
    case Takes(n) => n <= |conn.input|
    case Closes => Live(conn)
    case Rises => conn.state == Connecting
    case Falls => conn.state != Connected && conn.interest == NONE_EVENT
    case ShutsHere => conn.state == Connected
    case ShutsAway => conn.state == Connected
    case Forces => Live(conn)
    case _ => true
  }

  /** What the handlers do for a deed, and ask of the loop. */
  function Does(conn: Conn, d: Deed): Outcome
    requires Doable(conn, d)
  {
    match d
    case Sends(data, wr) => SendInLoop(conn, data, wr)
    case Hands(data) => Outcome(conn, [QueueSend(CString(data))])
    case Writes(wr) => HandleWrite(conn, wr)
    case Receives(data) => Outcome(conn.(input := conn.input + data), [])
    case Takes(n) => Outcome(TakeInput(conn, n), [])
    case ShutsHere => Shutdown(conn, true)
    case ShutsAway => Shutdown(conn, false)
    case RunsShut => Outcome(ShutdownInLoop(conn), [])
    case Forces => ForceClose(conn)
    case Closes => HandleClose(conn)
    case Rises => Outcome(ConnectEstablished(conn), [])
    case Falls => Outcome(ConnectDestroyed(conn), [])
    case Leaves => Outcome(conn, [])
    case Nothing => Outcome(conn, [])
  }

  // ---------------------------------------------------------------- one connection in the server

  /** Everything queued for the connection on its own loop, in order. */
  function Here(s: Server, c: ConnId): seq<Functor>
    requires Known(s, c)
  {
    Proj(s.loops[s.conns[c].loop].Queue(), c)
  }

  predicate Home(s: Server, c: ConnId)
    requires Known(s, c)
  {
    s.conns[c].loop == BASE
  }

  /** After it, c is `conn` with `queue` queued. */
  predicate Becomes(s: Server, s': Server, c: ConnId, conn: Conn, queue: seq<Functor>)
    requires Known(s, c)
  {
    Known(s', c) && s'.conns[c] == Entry(s.conns[c].loop, conn) && Here(s', c) == queue
  }

  predicate Kept(s: Server, s': Server, c: ConnId)
    requires Known(s, c)
  {
    Becomes(s, s', c, s.conns[c].conn, Here(s, c))
  }

  lemma PostBecomes(s: Server, l: LoopId, f: Functor, c: ConnId)
    requires l < |s.loops| && Known(s, c)
    ensures Becomes(s, Post(s, l, f), c, s.conns[c].conn,
                    Here(s, c) + if l == s.conns[c].loop && f.c == c then [f] else [])
  {
    ProjPost(s.loops[l], f, c);
  }

  lemma RemoveBecomes(s: Server, x: ConnId, c: ConnId)
    requires Known(s, x) && Known(s, c) && x in s.connections
    ensures var s', conn := RemoveConnectionInLoop(s, x), s.conns[c].conn;
            if x == c then Becomes(s, s', c, conn.(history := conn.history + [Erased]), Here(s, c) + [Destroy(c)])
            else Kept(s, s', c)
  {
    var conn := s.conns[x].conn;
    var s1 := SetConn(s.(connections := s.connections - {x}), x, conn.(history := conn.history + [Erased]));
    assert Here(s1, c) == Here(s, c);
    PostBecomes(s1, s.conns[x].loop, Destroy(x), c);
  }

  /** What an effect queues on the connection's own loop. */
  function FunctorOf(e: Effect, c: ConnId, home: bool): seq<Functor> {
    match e
    case QueueWriteComplete => [UserCallback(c)]
    case QueueHighWater(_) => [UserCallback(c)]
    case QueueForceClose => [ForceCloseOf(c)]
    case QueueSend(data) => [SendTo(c, data)]
    case QueueShutdown => [ShutdownOf(c)]
    case InvokeClose => if home then [Destroy(c)] else []
  }

  function FunctorsOf(es: seq<Effect>, c: ConnId, home: bool): seq<Functor> {
    if es == [] then [] else FunctorOf(es[0], c, home) + FunctorsOf(es[1..], c, home)
  }

  function Marked(conn: Conn, erased: bool): Conn {
    if erased then conn.(history := conn.history + [Erased]) else conn
  }

  lemma EmitBecomes(s: Server, x: ConnId, e: Effect, c: ConnId)
    requires Known(s, x) && Known(s, c) && (e.InvokeClose? ==> x in s.connections)
    ensures var s', conn := Emit(s, x, e), s.conns[c].conn;
            if x == c
            then Becomes(s, s', c, Marked(conn, e.InvokeClose? && Home(s, c)), Here(s, c) + FunctorOf(e, c, Home(s, c)))
            else Kept(s, s', c)
  {
    var l := s.conns[x].loop;
    match e {
      case QueueWriteComplete => PostBecomes(s, l, UserCallback(x), c);
      case QueueHighWater(_) => PostBecomes(s, l, UserCallback(x), c);
      case QueueForceClose => PostBecomes(s, l, ForceCloseOf(x), c);
      case QueueSend(data) => PostBecomes(s, l, SendTo(x, data), c);
      case QueueShutdown => PostBecomes(s, l, ShutdownOf(x), c);
      case InvokeClose => if l == BASE { RemoveBecomes(s, x, c); } else { PostBecomes(s, BASE, Remove(x), c); }
    }
  }

  lemma AbsorbBecomes(s: Server, x: ConnId, o: Outcome, c: ConnId)
    requires Known(s, x) && Known(s, c) && |o.effects| <= 1 && (InvokeClose in o.effects ==> x in s.connections)
    ensures var s' := Absorb(s, x, o);
            if x == c
            then Becomes(s, s', c, Marked(o.conn, InvokeClose in o.effects && Home(s, c)),
                         Here(s, c) + FunctorsOf(o.effects, c, Home(s, c)))
            else Kept(s, s', c)
  {
    var s1 := SetConn(s, x, o.conn);
    assert Here(s1, c) == Here(s, c);
    if o.effects == [] {
      assert Here(s, c) + [] == Here(s, c);
    } else {
      EmitOne(s1, x, o.effects);
      EmitBecomes(s1, x, o.effects[0], c);
      assert o.effects[1..] == [] && o.effects == [o.effects[0]];
      assert FunctorOf(o.effects[0], c, Home(s, c)) + [] == FunctorOf(o.effects[0], c, Home(s, c));
    }
  }

  lemma SetBecomes(s: Server, x: ConnId, conn: Conn, c: ConnId)
    requires Known(s, x) && Known(s, c)
    ensures if x == c then Becomes(s, SetConn(s, x, conn), c, conn, Here(s, c)) else Kept(s, SetConn(s, x, conn), c)
  {
  }

  /** The functors that the handlers' effects amount to. */
  lemma DoesQueues(conn: Conn, d: Deed, c: ConnId, home: bool)
    requires Doable(conn, d)
    ensures var o := Does(conn, d);
            && |o.effects| <= 1 && (InvokeClose in o.effects <==> d.Closes?)
            && Queues(conn, d, c, home) == FunctorsOf(o.effects, c, home) + if d.Leaves? then [Destroy(c)] else []
  {
    var es := Does(conn, d).effects;
    if es != [] { assert es == [es[0]] && es[1..] == []; }
    if d.Sends? { SendQueues(conn, d.data, d.wr, c, home); }
  }

  lemma SendQueues(conn: Conn, data: seq<Byte>, wr: WriteResult, c: ConnId, home: bool)
    requires MayAnswer(conn, |data|, wr)
    ensures var es := SendInLoop(conn, data, wr).effects;
            |es| <= 1 && InvokeClose !in es && Queues(conn, Sends(data, wr), c, home) == FunctorsOf(es, c, home)
  {
    if conn.state != Disconnected {
      var rest := data[Took(SendAnswer(conn, wr))..];
      if SendAnswer(conn, wr) == Some(PeerGone) || rest == [] {
        AllSentQueues(conn, data, wr, c, home);
      } else {
        assert FirstNotice(conn, data, wr) == [] && !Completes(conn, Sends(data, wr));
        KeepQueues(FirstWrite(conn, data, wr), rest, c, home);
      }
    }
  }

  lemma AllSentQueues(conn: Conn, data: seq<Byte>, wr: WriteResult, c: ConnId, home: bool)
    requires MayAnswer(conn, |data|, wr) && conn.state != Disconnected
    requires SendAnswer(conn, wr) == Some(PeerGone) || data[Took(SendAnswer(conn, wr))..] == []
    ensures var es := FirstNotice(conn, data, wr);
            && SendInLoop(conn, data, wr).effects == es && |es| <= 1 && InvokeClose !in es
            && Queues(conn, Sends(data, wr), c, home) == FunctorsOf(es, c, home)
  {
    assert [QueueWriteComplete][1..] == [];
    assert !Crosses(conn, Sends(data, wr));
  }

  lemma KeepQueues(conn: Conn, rest: seq<Byte>, c: ConnId, home: bool)
    ensures var es := KeepRest(conn, rest).effects;
            && |es| <= 1 && InvokeClose !in es && [] + es == es
            && FunctorsOf(es, c, home)
               == if conn.highWaterMark.Some? && |conn.output| < conn.highWaterMark.value <= |conn.output| + |rest|
                  then [UserCallback(c)] else []
  {
    var es := KeepRest(conn, rest).effects;
    if es != [] { assert es[1..] == []; }
  }

  // ---------------------------------------------------------------- every step

  /** The step takes the head off what is queued for c on its own loop. */
  predicate Pops(s: Server, step: Step, c: ConnId)
    requires Enabled(s, step) && Known(s, c)
  {
    step.NextFunctor? && step.l == s.conns[c].loop && s.loops[step.l].batch[0].c == c
  }

  function Rest(s: Server, step: Step, c: ConnId): seq<Functor>
    requires Enabled(s, step) && Known(s, c) && (Pops(s, step, c) ==> Here(s, c) != [])
  {
    if Pops(s, step, c) then Here(s, c)[1..] else Here(s, c)
  }

  /** The deed was done to c, in state `conn` with `rest` queued. */
  predicate Did(s: Server, s': Server, c: ConnId, conn: Conn, d: Deed, rest: seq<Functor>)
    requires Known(s, c)
  {
    && Doable(conn, d)
    && Becomes(s, s', c, Marked(Does(conn, d).conn, d.Leaves? || (d.Closes? && Home(s, c))),
               rest + Queues(conn, d, c, Home(s, c)))
  }

  lemma KeptDid(s: Server, s': Server, c: ConnId)
    requires Known(s, c) && Kept(s, s', c)
    ensures Did(s, s', c, s.conns[c].conn, Nothing, Here(s, c))
  {
    assert Here(s, c) + [] == Here(s, c);
  }

  /** A handler called for connection x, seen from c. */
  lemma HandlerDid(s: Server, x: ConnId, d: Deed, c: ConnId)
    requires Known(s, x) && Known(s, c) && Doable(s.conns[x].conn, d) && !d.Leaves?
    requires d.Closes? ==> x in s.connections
    ensures Did(s, Absorb(s, x, Does(s.conns[x].conn, d)), c, s.conns[c].conn,
                if x == c then d else Nothing, Here(s, c))
  {
    var o := Does(s.conns[x].conn, d);
    DoesQueues(s.conns[x].conn, d, x, Home(s, x));
    AbsorbBecomes(s, x, o, c);
    assert FunctorsOf(o.effects, x, Home(s, x)) + [] == FunctorsOf(o.effects, x, Home(s, x));
    if x != c { KeptDid(s, Absorb(s, x, o), c); }
  }

  lemma UserDid(s: Server, step: Step, c: ConnId)
    requires Enabled(s, step) && Known(s, c)
    requires step.UserSend? || step.UserShutdown? || step.UserForceClose? || step.UserTakes?
    ensures Did(s, Apply(s, step), c, s.conns[c].conn, DeedOf(s, step, c), Here(s, c))
  {
    var x := step.c;
    var d := DeedOf(s, step, x);
    HandlerDid(s, x, d, c);
    if step.UserTakes? { assert EmitAll(SetConn(s, x, Does(s.conns[x].conn, d).conn), x, []) == Apply(s, step); }
  }

  lemma CallbackDid(s: Server, x: ConnId, cb: Callback, rr: ReadResult, wr: WriteResult, c: ConnId)
    requires Known(s, x) && Known(s, c) && rr.Legal()
    requires cb == OnWrite ==> MayAnswer(s.conns[x].conn, |s.conns[x].conn.output|, wr)
    requires TcpServers.Closes(cb) ==> Live(s.conns[x].conn) && x in s.connections
    ensures Did(s, RunCallback(s, x, cb, rr, wr), c, s.conns[c].conn,
                if x == c then OfCallback(cb, rr, wr) else Nothing, Here(s, c))
  {
    HandlerDid(s, x, OfCallback(cb, rr, wr), c);
    if cb == OnError { KeptDid(s, s, c); }
  }

  lemma CallbackStepDid(s: Server, l: LoopId, rr: ReadResult, wr: WriteResult, c: ConnId)
    requires Inv(s) && Enabled(s, NextCallback(l, rr, wr)) && Known(s, c)
    ensures Did(s, Apply(s, NextCallback(l, rr, wr)), c, s.conns[c].conn,
                DeedOf(s, NextCallback(l, rr, wr), c), Here(s, c))
  {
    var s0, x := PopCallback(s, l);
    assert ConnOk(s0, x);
    assert s0.loops[s.conns[c].loop].Queue() == s.loops[s.conns[c].loop].Queue();
    CallbackDid(s0, x, s.loops[l].active[0].todo[0], rr, wr, c);
  }

  /** What the invariant says of the functor about to run. */
  lemma HeadFacts(s: Server, l: LoopId, wr: WriteResult)
    requires Inv(s) && Enabled(s, NextFunctor(l, wr))
    ensures var f, conn := s.loops[l].batch[0], s.conns[s.loops[l].batch[0].c].conn;
            && Doable(conn, OfFunctor(f, conn, wr))
            && (f.Remove? <==> l != s.conns[f.c].loop)
            && (f.Remove? || Live(conn) ==> f.c in s.connections)
            && s.loops[l].phase == Functors
  {
    HeadFunctor(s, l);
    assert ConnOk(s, s.loops[l].batch[0].c);
  }

  /** The head comes off. */
  lemma PopHere(s: Server, l: LoopId, wr: WriteResult, c: ConnId)
    requires Enabled(s, NextFunctor(l, wr)) && Known(s, c)
    ensures var s0 := SetLoop(s, l, s.loops[l].(batch := s.loops[l].batch[1..]));
            && Known(s0, c) && s0.conns == s.conns
            && (Pops(s, NextFunctor(l, wr), c) ==> Here(s, c) != [] && Here(s, c)[0] == s.loops[l].batch[0])
            && Here(s0, c) == Rest(s, NextFunctor(l, wr), c)
  {
    ProjPop(s.loops[l], c);
  }

  /** A functor other than removeConnectionInLoop, already off the queue. */
  lemma FunctorDid(s: Server, l: LoopId, f: Functor, wr: WriteResult, c: ConnId)
    requires l < |s.loops| && Known(s, f.c) && Known(s, c) && !f.Remove? && s.loops[l].phase == Functors
    requires Doable(s.conns[f.c].conn, OfFunctor(f, s.conns[f.c].conn, wr))
    requires f.SendTo? ==> MayAnswer(s.conns[f.c].conn, |f.data|, wr)
    requires Live(s.conns[f.c].conn) ==> f.c in s.connections
    ensures Did(s, RunFunctor(s, l, f, wr), c, s.conns[c].conn,
                if f.c == c then OfFunctor(f, s.conns[c].conn, wr) else Nothing, Here(s, c))
  {
    var conn := s.conns[f.c].conn;
    var d := OfFunctor(f, conn, wr);
    HandlerDid(s, f.c, d, c);
    assert d.Rises? || d.Falls? || d.RunsShut? ==> Absorb(s, f.c, Does(conn, d)) == SetConn(s, f.c, Does(conn, d).conn);
    if f.UserCallback? { KeptDid(s, s, c); }
  }

  lemma RemoveDid(s: Server, x: ConnId, c: ConnId)
    requires Known(s, x) && Known(s, c) && x in s.connections
    ensures Did(s, RemoveConnectionInLoop(s, x), c, s.conns[c].conn, if x == c then Leaves else Nothing, Here(s, c))
  {
    RemoveBecomes(s, x, c);
    if x != c { KeptDid(s, RemoveConnectionInLoop(s, x), c); }
  }

  lemma FunctorStepDid(s: Server, l: LoopId, wr: WriteResult, c: ConnId)
    requires Inv(s) && Enabled(s, NextFunctor(l, wr)) && Known(s, c)
    ensures var step := NextFunctor(l, wr);
            && (Pops(s, step, c) ==> Here(s, c) != [] && Here(s, c)[0] == s.loops[l].batch[0])
            && Did(s, Apply(s, step), c, s.conns[c].conn, DeedOf(s, step, c), Rest(s, step, c))
  {
    var f := s.loops[l].batch[0];
    var s0 := SetLoop(s, l, s.loops[l].(batch := s.loops[l].batch[1..]));
    HeadFacts(s, l, wr);
    PopHere(s, l, wr, c);
    if f.Remove? { RemoveDid(s0, f.c, c); } else { FunctorDid(s0, l, f, wr, c); }
  }

  lemma AcceptDid(s: Server, ioLoop: LoopId, c: ConnId)
    requires Enabled(s, Accept(ioLoop)) && Known(s, c) && c != s.nextConnId
    ensures Did(s, Apply(s, Accept(ioLoop)), c, s.conns[c].conn, Nothing, Here(s, c))
  {
    var s1 := Apply(s, Accept(ioLoop)).(loops := s.loops);
    if ioLoop != BASE { PostBecomes(s1, ioLoop, Establish(s.nextConnId), c); }
    KeptDid(s, Apply(s, Accept(ioLoop)), c);
  }

  /** A step of a loop that runs nothing. */
  lemma LoopDid(s: Server, step: Step, c: ConnId)
    requires Enabled(s, step) && Known(s, c)
    requires step.Poll? || step.NextActive? || step.EndEvents? || step.EndFunctors?
    requires step.EndEvents? ==> s.loops[step.l].batch == []
    ensures Did(s, Apply(s, step), c, s.conns[c].conn, Nothing, Here(s, c))
  {
    assert Apply(s, step).loops[step.l].Queue() == s.loops[step.l].Queue();
    KeptDid(s, Apply(s, step), c);
  }

  /** Each step of the server does its deed to the connection, and nothing else. */
  lemma StepDid(s: Server, step: Step, c: ConnId)
    requires Inv(s) && Enabled(s, step) && c in s.conns
    ensures Known(s, c)
    ensures Pops(s, step, c) ==> Here(s, c) != [] && Here(s, c)[0] == s.loops[step.l].batch[0]
    ensures Did(s, Apply(s, step), c, s.conns[c].conn, DeedOf(s, step, c), Rest(s, step, c))
  {
    assert ConnOk(s, c) && c < s.nextConnId;
    match step {
      case NextCallback(l, rr, wr) => CallbackStepDid(s, l, rr, wr, c);
      case NextFunctor(l, wr) => FunctorStepDid(s, l, wr, c);
      case Accept(ioLoop) => AcceptDid(s, ioLoop, c);
      case Poll(l, _) => LoopDid(s, step, c);
      case NextActive(l) => LoopDid(s, step, c);
      case EndEvents(l) =>
        assert LoopOk(s, l);
        LoopDid(s, step, c);
      case EndFunctors(l) => LoopDid(s, step, c);
      case _ => UserDid(s, step, c);
    }
  }

  // ---------------------------------------------------------------- the account of a run

  datatype Account = Account(
    entered: seq<Byte>,       // given to sendInLoop before the close
    dropped: seq<Byte>,       // of these, given to a direct write that found the peer gone
    took: nat,                // how many bytes the kernel took
    refused: bool,            // some write was told that the peer is gone
    received: seq<Byte>,
    taken: nat,               // how many of these the user took
    queued: seq<Functor>,     // on the connection's own loop
    ran: seq<Functor>,
    up: bool,                 // connectEstablished has run
    shut: bool,               // shutdown() has found it connected
    ended: bool,              // shutdown(), forceClose() or handleClose has
    closed: bool)             // handleClose has run

  const NONE := Account([], [], 0, false, [], 0, [], [], false, false, false, false)

  predicate Ends(d: Deed) {
    d.ShutsHere? || d.ShutsAway? || d.Forces? || d.Closes?
  }

  function Noted(t: Account, s: Server, step: Step, c: ConnId): Account
    requires Enabled(s, step)
  {
    if c in s.conns && Known(s, c) then
      var conn, d := s.conns[c].conn, DeedOf(s, step, c);
      Account(t.entered + Enters(conn, d), t.dropped + Drops(conn, d), t.took + Took(Answer(conn, d)),
              t.refused || Answer(conn, d) == Some(PeerGone),
              t.received + (if d.Receives? then d.data else []), t.taken + (if d.Takes? then d.n else 0),
              t.queued + Queues(conn, d, c, Home(s, c)),
              t.ran + (if Pops(s, step, c) then [s.loops[step.l].batch[0]] else []),
              t.up || d.Rises?, t.shut || d.ShutsHere? || d.ShutsAway?, t.ended || Ends(d), t.closed || d.Closes?)
    else if step.Accept? && c == s.nextConnId then
      if step.ioLoop == BASE then t.(up := true) else t.(queued := [Establish(c)])
    else t
  }

  ghost function Tally(t: Account, s: Server, steps: seq<Step>, c: ConnId): Account
    requires IsRun(s, steps)
    decreases steps
  {
    if steps == [] then t else Tally(Noted(t, s, steps[0], c), Apply(s, steps[0]), steps[1..], c)
  }

  /** What a run of the server brought to connection c. */
  ghost function AccountOf(n: nat, steps: seq<Step>, c: ConnId): Account
    requires IsRun(Init(n), steps)
  {
    Tally(NONE, Init(n), steps, c)
  }

  // ---------------------------------------------------------------- balance

  predicate OutBalances(conn: Conn, t: Account) {
    && conn.accepted == t.entered && conn.wire + conn.output + t.dropped == t.entered
    && |conn.wire| == t.took && (conn.fault <==> t.refused)
    && (t.dropped != [] ==> conn.fault && conn.output == [] && !conn.interest.write)
  }

  predicate InBalances(conn: Conn, t: Account) {
    conn.retrieved + conn.input == t.received && |conn.retrieved| == t.taken
  }

  predicate LifeBalances(conn: Conn, t: Account) {
    && (Up in conn.history <==> t.up) && (Down in conn.history <==> t.closed)
    && (conn.state == Connected <==> t.up && !t.ended) && (conn.state == Connecting ==> !t.up && !t.ended)
    && (conn.shutRequested <==> t.shut) && Configured(conn)
  }

  /** As TcpServer and the constructor set a connection up. */
  predicate Configured(conn: Conn) {
    conn.wantsComplete && conn.highWaterMark == Some(64 * 1024 * 1024)
  }

  lemma Joined(a: seq<Byte>, b: seq<Byte>, c: seq<Byte>)
    ensures a + b + c == a + (b + c) && a + [] == a && [] + a == a
  {
  }

  lemma SendBalances(conn: Conn, data: seq<Byte>, wr: WriteResult, t: Account)
    requires OutBalances(conn, t) && MayAnswer(conn, |data|, wr)
    ensures var d := Sends(data, wr);
            OutBalances(SendInLoop(conn, data, wr).conn,
                        t.(entered := t.entered + Enters(conn, d), dropped := t.dropped + Drops(conn, d),
                           took := t.took + Took(Answer(conn, d)),
                           refused := t.refused || Answer(conn, d) == Some(PeerGone)))
  {
    SendInLoopMoves(conn, data, wr);
    SendAccepts(conn, data, wr);
    Joined(conn.wire + conn.output, t.dropped, data);
    Joined(conn.wire + conn.output, data, []);
    Joined(t.dropped, [], data);
    Joined(t.entered, [], []);
    if conn.state != Disconnected && SendAnswer(conn, wr) == Some(PeerGone) {
      RefusedWrite(conn, data, wr);
    }
  }

  lemma SendAccepts(conn: Conn, data: seq<Byte>, wr: WriteResult)
    requires MayAnswer(conn, |data|, wr)
    ensures SendInLoop(conn, data, wr).conn.accepted == conn.accepted + Enters(conn, Sends(data, wr))
  {
    Joined(conn.accepted, [], []);
  }

  lemma RefusedWrite(conn: Conn, data: seq<Byte>, wr: WriteResult)
    requires MayAnswer(conn, |data|, wr) && SendAnswer(conn, wr) == Some(PeerGone)
    ensures var c' := SendInLoop(conn, data, wr).conn;
            c'.wire == conn.wire && c'.output == conn.output == [] && !c'.interest.write && c'.fault
  {
    assert conn.wire + data[..0] == conn.wire;
  }

  lemma WriteBalances(conn: Conn, wr: WriteResult, t: Account)
    requires OutBalances(conn, t) && MayAnswer(conn, |conn.output|, wr)
    ensures OutBalances(HandleWrite(conn, wr).conn,
                        t.(took := t.took + Took(WriteAnswer(conn, wr)),
                           refused := t.refused || WriteAnswer(conn, wr) == Some(PeerGone)))
  {
    HandleWriteMoves(conn, wr);
  }

  lemma DeedOut(conn: Conn, d: Deed, t: Account, t': Account)
    requires OutBalances(conn, t) && Doable(conn, d)
    requires t'.entered == t.entered + Enters(conn, d) && t'.dropped == t.dropped + Drops(conn, d)
    requires t'.took == t.took + Took(Answer(conn, d))
    requires t'.refused == (t.refused || Answer(conn, d) == Some(PeerGone))
    ensures OutBalances(Does(conn, d).conn, t')
  {
    Joined(t.entered, [], []);
    Joined(t.dropped, [], []);
    match d {
      case Sends(data, wr) => SendBalances(conn, data, wr, t);
      case Writes(wr) => WriteBalances(conn, wr, t);
      case _ =>
    }
  }

  /** Writing leaves the rest of the connection alone. */
  predicate OnlyWrites(c: Conn, c': Conn) {
    && c'.input == c.input && c'.retrieved == c.retrieved && c'.history == c.history && c'.state == c.state
    && c'.shutRequested == c.shutRequested && c'.wantsComplete == c.wantsComplete
    && c'.highWaterMark == c.highWaterMark
  }

  lemma SendIn(conn: Conn, data: seq<Byte>, wr: WriteResult)
    requires MayAnswer(conn, |data|, wr)
    ensures OnlyWrites(conn, SendInLoop(conn, data, wr).conn)
  {
    if conn.state != Disconnected {
      var first, rest := FirstWrite(conn, data, wr), data[Took(SendAnswer(conn, wr))..];
      assert OnlyWrites(conn, first) && OnlyWrites(first, KeepRest(first, rest).conn);
    }
  }

  lemma WriteIn(conn: Conn, wr: WriteResult)
    requires MayAnswer(conn, |conn.output|, wr)
    ensures OnlyWrites(conn, HandleWrite(conn, wr).conn)
  {
  }

  lemma DeedIn(conn: Conn, d: Deed, t: Account, t': Account)
    requires InBalances(conn, t) && Doable(conn, d)
    requires t'.received == t.received + if d.Receives? then d.data else []
    requires t'.taken == t.taken + if d.Takes? then d.n else 0
    ensures InBalances(Does(conn, d).conn, t')
  {
    Joined(t.received, [], []);
    match d {
      case Sends(data, wr) => SendIn(conn, data, wr);
      case Writes(wr) => WriteIn(conn, wr);
      case Receives(data) => Joined(conn.retrieved, conn.input, data);
      case Takes(n) =>
        Joined(conn.retrieved, conn.input[..n], conn.input[n..]);
        assert conn.input[..n] + conn.input[n..] == conn.input;
      case _ =>
    }
  }

  lemma MarkedLife(conn: Conn, erased: bool, t: Account)
    requires LifeBalances(conn, t)
    ensures LifeBalances(Marked(conn, erased), t)
  {
  }

  lemma DeedLife(conn: Conn, d: Deed, t: Account, t': Account)
    requires LifeBalances(conn, t) && Doable(conn, d)
    requires t'.closed == (t.closed || d.Closes?) && t'.ended == (t.ended || Ends(d)) && t'.up == (t.up || d.Rises?)
    requires t'.shut == (t.shut || d.ShutsHere? || d.ShutsAway?)
    ensures LifeBalances(Does(conn, d).conn, t')
  {
    match d {
      case Sends(data, wr) => SendIn(conn, data, wr);
      case Writes(wr) => WriteIn(conn, wr);
      case ShutsHere => ShutLife(conn, true);
      case ShutsAway => ShutLife(conn, false);
      case _ =>
    }
  }

  lemma ShutLife(conn: Conn, own: bool)
    requires conn.state == Connected
    ensures var c' := Shutdown(conn, own).conn;
            && c'.state == Disconnecting && c'.shutRequested && c'.history == conn.history
            && c'.wantsComplete == conn.wantsComplete && c'.highWaterMark == conn.highWaterMark
  {
  }

  ghost predicate Balances(s: Server, c: ConnId, t: Account) {
    && Known(s, c)
    && var conn := s.conns[c].conn;
    && OutBalances(conn, t) && InBalances(conn, t) && LifeBalances(conn, t)
    && t.ran + Here(s, c) == t.queued
    && (ForceCloseOf(c) in t.ran ==> t.closed)
  }

  lemma RanOn(ran: seq<Functor>, here: seq<Functor>, more: seq<Functor>)
    ensures here != [] ==> ran + [here[0]] + (here[1..] + more) == ran + here + more
    ensures ran + [] + (here + more) == ran + here + more
  {
    if here != [] { assert here == [here[0]] + here[1..]; }
  }

  /** A forced close whose functor runs closes the connection, if it is not closed already. */
  lemma ForcedRuns(s: Server, step: Step, c: ConnId)
    requires Inv(s) && Enabled(s, step) && c in s.conns && Known(s, c) && Pops(s, step, c)
    requires s.loops[step.l].batch[0] == ForceCloseOf(c)
    ensures DeedOf(s, step, c).Closes? || Down in s.conns[c].conn.history
  {
    HeadFunctor(s, step.l);
    assert ConnOk(s, c);
    if |s.conns[c].conn.history| > 1 {
      assert s.conns[c].conn.history[1] == LIFE[1];
    }
  }

  lemma StepQueues(s: Server, step: Step, c: ConnId, t: Account)
    requires Inv(s) && Enabled(s, step) && c in s.conns && Known(s, c) && t.ran + Here(s, c) == t.queued
    ensures var t', s' := Noted(t, s, step, c), Apply(s, step);
            Known(s', c) && t'.ran + Here(s', c) == t'.queued
  {
    StepDid(s, step, c);
    RanOn(t.ran, Here(s, c), Queues(s.conns[c].conn, DeedOf(s, step, c), c, Home(s, c)));
  }

  lemma StepConn(s: Server, step: Step, c: ConnId, t: Account)
    requires Inv(s) && Enabled(s, step) && c in s.conns && Known(s, c)
    requires var conn := s.conns[c].conn; OutBalances(conn, t) && InBalances(conn, t) && LifeBalances(conn, t)
    ensures var t', s' := Noted(t, s, step, c), Apply(s, step);
            Known(s', c)
            && var conn' := s'.conns[c].conn;
               OutBalances(conn', t') && InBalances(conn', t') && LifeBalances(conn', t')
  {
    StepDid(s, step, c);
    var conn, d, t' := s.conns[c].conn, DeedOf(s, step, c), Noted(t, s, step, c);
    DeedOut(conn, d, t, t');
    DeedIn(conn, d, t, t');
    DeedLife(conn, d, t, t');
    MarkedLife(Does(conn, d).conn, d.Leaves? || (d.Closes? && Home(s, c)), t');
  }

  lemma StepBalances(s: Server, step: Step, c: ConnId, t: Account)
    requires Inv(s) && Enabled(s, step) && c in s.conns && Balances(s, c, t)
    ensures Balances(Apply(s, step), c, Noted(t, s, step, c))
  {
    StepConn(s, step, c, t);
    StepQueues(s, step, c, t);
    if Pops(s, step, c) && s.loops[step.l].batch[0] == ForceCloseOf(c) { ForcedRuns(s, step, c); }
  }

  /** The connection that an accept brings. */
  lemma NewBalances(s: Server, step: Step, c: ConnId)
    requires Inv(s) && Enabled(s, step) && c !in s.conns
    ensures c in Apply(s, step).conns ==> Balances(Apply(s, step), c, Noted(NONE, s, step, c))
    ensures c !in Apply(s, step).conns ==> Noted(NONE, s, step, c) == NONE
  {
    if step.Accept? && c == s.nextConnId {
      var l := step.ioLoop;
      assert Proj(s.loops[l].Queue(), c) == [];
      if l != BASE { ProjPost(s.loops[l], Establish(c), c); }
    } else if c in Apply(s, step).conns {
      OnlyAcceptAdds(s, step, c);
    }
  }

  // ---------------------------------------------------------------- every run

  /** A connection that is there balances; one that is not has an empty account. */
  ghost predicate Booked(s: Server, c: ConnId, t: Account) {
    if c in s.conns then Balances(s, c, t) else t == NONE
  }

  lemma StepBooked(s: Server, step: Step, c: ConnId, t: Account)
    requires Inv(s) && Enabled(s, step) && Booked(s, c, t)
    ensures Inv(Apply(s, step)) && Booked(Apply(s, step), c, Noted(t, s, step, c))
  {
    StepKeepsInv(s, step);
    if c in s.conns { StepBalances(s, step, c, t); } else { NewBalances(s, step, c); }
  }

  lemma {:induction false} RunBooked(s: Server, steps: seq<Step>, c: ConnId, t: Account)
    requires Inv(s) && IsRun(s, steps) && Booked(s, c, t)
    ensures Booked(After(s, steps), c, Tally(t, s, steps, c))
    decreases steps
  {
    if steps != [] {
      StepBooked(s, steps[0], c, t);
      RunBooked(Apply(s, steps[0]), steps[1..], c, Noted(t, s, steps[0], c));
    }
  }

  lemma Reached(n: nat, steps: seq<Step>, c: ConnId)
    requires IsRun(Init(n), steps) && c in After(Init(n), steps).conns
    ensures Balances(After(Init(n), steps), c, AccountOf(n, steps, c))
  {
    InitInv(n);
    RunBooked(Init(n), steps, c, NONE);
  }

  /** Bytes out, over every run. A fault is noted exactly if some write(2) that was really made
      was told that the peer is gone. What was given to sendInLoop is, in order, what the kernel
      took, then what waits, then what was dropped; and only what a direct write offered to a
      peer that is gone was dropped. The wire is exactly as long as what the kernel took. */
  lemma OutboundStream(n: nat, steps: seq<Step>, c: ConnId)
    requires IsRun(Init(n), steps) && c in After(Init(n), steps).conns
    ensures var conn, t := After(Init(n), steps).conns[c].conn, AccountOf(n, steps, c);
            && conn.accepted == t.entered == conn.wire + conn.output + t.dropped
            && |conn.wire| == t.took && (conn.fault <==> t.refused) && (t.dropped != [] ==> conn.output == [])
  {
    Reached(n, steps, c);
  }

  /** Bytes in, over every run: what the user took followed by the input buffer is everything
      that was received, in order. */
  lemma InboundStream(n: nat, steps: seq<Step>, c: ConnId)
    requires IsRun(Init(n), steps) && c in After(Init(n), steps).conns
    ensures var conn, t := After(Init(n), steps).conns[c].conn, AccountOf(n, steps, c);
            conn.retrieved + conn.input == t.received && |conn.retrieved| == t.taken
  {
    Reached(n, steps, c);
  }

  /** Functors, over every run: those of the connection that have run on its loop, followed by
      those that wait there, are exactly those that its calls and events had to queue, in
      order. So a send() from another thread is carried over as it was cut, a forceClose() has
      its functor, and a notice is given once for each write that completes. */
  lemma FunctorsInOrder(n: nat, steps: seq<Step>, c: ConnId)
    requires IsRun(Init(n), steps) && c in After(Init(n), steps).conns
    ensures var s, t := After(Init(n), steps), AccountOf(n, steps, c);
            Known(s, c) && t.ran + Here(s, c) == t.queued
  {
    Reached(n, steps, c);
  }

  /** The states, over every run. A connection is up once connectEstablished has run, and down
      exactly if handleClose has, for a hang-up, an end of file or a forced close; it counts as
      connected, so that its user can send, exactly in between and before any shutdown() or
      forceClose(). And once forceClose() has taken effect, it is down or its functor is queued. */
  lemma StatesExactly(n: nat, steps: seq<Step>, c: ConnId)
    requires IsRun(Init(n), steps) && c in After(Init(n), steps).conns
    ensures var s, t := After(Init(n), steps), AccountOf(n, steps, c);
            && Known(s, c)
            && var conn := s.conns[c].conn;
            && (Up in conn.history <==> t.up) && (Down in conn.history <==> t.closed)
            && (conn.state == Connected <==> t.up && !t.ended) && (conn.shutRequested <==> t.shut)
            && (ForceCloseOf(c) in t.queued ==> t.closed || ForceCloseOf(c) in Here(s, c))
            && Configured(conn)
  {
    Reached(n, steps, c);
  }
}
