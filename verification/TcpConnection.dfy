/** networker/net/TcpConnection.cpp: one TCP connection.

    `Conn` is the value of a connection together with the history that its promises speak
    of: the bytes handed to sendInLoop, the bytes the kernel took, the position of every
    shutdownWrite. The functions below say what each handler does to it; the class at the
    end holds the source's fields and its methods are proved against those functions. */
module TcpConnections {
  import opened Buffers
  import opened Channels
  import opened Options

  datatype State = Disconnected | Connecting | Connected | Disconnecting

  /** The four events in the life of a connection that others observe. Up and Down are the
      two calls of connectionCallback_; Erased is its removal from the server's map;
      Destroyed is the removal of its channel from the loop. */
  datatype Life = Up | Down | Erased | Destroyed

  datatype Conn = Conn(
    state: State,
    interest: Interest,
    added: bool,
    input: seq<Byte>,
    retrieved: seq<Byte>,   // bytes the user has taken from the input buffer
    output: seq<Byte>,
    wantsComplete: bool,
    highWaterMark: Option<nat>,
    wire: seq<Byte>,        // bytes the kernel accepted
    accepted: seq<Byte>,    // bytes given to sendInLoop before disconnection
    fault: bool,            // a write has failed with EPIPE or ECONNRESET
    shutAt: seq<nat>,       // |wire| at each shutdownWrite
    shutRequested: bool,    // shutdown() has taken effect
    history: seq<Life>)

  /** What a handler asks of its loop, in order. The first five are queued functors;
      InvokeClose is the call of closeCallback_. */
  datatype Effect =
    | QueueWriteComplete
    | QueueHighWater(bytes: nat)
    | QueueForceClose
    | QueueSend(data: seq<Byte>)
    | QueueShutdown
    | InvokeClose

  datatype Outcome = Outcome(conn: Conn, effects: seq<Effect>)

  /** What write(2) answered. OtherError stands for any error but those named. */
  datatype WriteResult = Wrote(n: nat) | WouldBlock | OtherError | PeerGone

  /** What readv(2) answered: at least one byte, none, or an error. */
  datatype ReadResult = Received(data: seq<Byte>) | EndOfFile | ReadError
  {
    predicate Legal() {
      Received? ==> data != []
    }
  }

  /** The kernel takes no more than it is offered, and once the peer is gone or the writing
      side is shut down every further write says so. */
  predicate MayAnswer(c: Conn, offered: nat, r: WriteResult) {
    (r.Wrote? ==> r.n <= offered) && (c.fault || c.shutAt != [] ==> r.PeerGone?)
  }

  predicate Live(c: Conn) {
    c.state == Connected || c.state == Disconnecting
  }

  function Fresh(wantsComplete: bool, highWaterMark: Option<nat>): Conn {
    Conn(Connecting, NONE_EVENT, false, [], [], [], wantsComplete, highWaterMark, [], [], false, [], false, [])
  }

  // ---------------------------------------------------------------- handlers

  /** What write(2) answered in sendInLoop, if it was called: only with nothing waiting. */
  function SendAnswer(c: Conn, r: WriteResult): Option<WriteResult> {
    if c.state != Disconnected && !c.interest.write && c.output == [] then Some(r) else None
  }

  /** And in handleWrite. */
  function WriteAnswer(c: Conn, r: WriteResult): Option<WriteResult> {
    if c.interest.write then Some(r) else None
  }

  /** How many bytes the kernel took. */
  function Took(answer: Option<WriteResult>): nat {
    if answer.Some? && answer.value.Wrote? then answer.value.n else 0
  }

  /** sendInLoop up to the answer of its direct write. */
  function FirstWrite(c: Conn, data: seq<Byte>, r: WriteResult): Conn
    requires MayAnswer(c, |data|, r)
  {
    var answer := SendAnswer(c, r);
    c.(accepted := c.accepted + data, wire := c.wire + data[..Took(answer)],
       fault := c.fault || answer == Some(PeerGone))
  }

  function FirstNotice(c: Conn, data: seq<Byte>, r: WriteResult): seq<Effect> {
    if SendAnswer(c, r) == Some(Wrote(|data|)) && c.wantsComplete then [QueueWriteComplete] else []
  }

  function SendInLoop(c: Conn, data: seq<Byte>, r: WriteResult): Outcome
    requires MayAnswer(c, |data|, r)
  {
    if c.state == Disconnected then Outcome(c, []) else SendLive(c, data, r)
  }

  /** On a connection that is not closed. */
  function SendLive(c: Conn, data: seq<Byte>, r: WriteResult): Outcome
    requires MayAnswer(c, |data|, r)
  {
    var first, notice, rest := FirstWrite(c, data, r), FirstNotice(c, data, r), data[Took(SendAnswer(c, r))..];
    if SendAnswer(c, r) == Some(PeerGone) || rest == [] then Outcome(first, notice)
    else Outcome(KeepRest(first, rest).conn, notice + KeepRest(first, rest).effects)
  }

  /** The tail of sendInLoop: what was not written waits in outputBuffer_. */
  function KeepRest(c: Conn, rest: seq<Byte>): Outcome {
    var oldLen := |c.output|;
    var mark := if c.highWaterMark.Some? && oldLen < c.highWaterMark.value <= oldLen + |rest|
                then [QueueHighWater(oldLen + |rest|)] else [];
    Outcome(c.(output := c.output + rest, interest := c.interest.(write := true)), mark)
  }

  function HandleWrite(c: Conn, r: WriteResult): Outcome
    requires MayAnswer(c, |c.output|, r)
  {
    if c.interest.write && r.Wrote? && r.n > 0 then
      var c1 := c.(wire := c.wire + c.output[..r.n], output := c.output[r.n..]);
      if c1.output == [] then
        var c2 := c1.(interest := c1.interest.(write := false));
        var done := if c.wantsComplete then [QueueWriteComplete] else [];
        Outcome(if c.state == Disconnecting then ShutdownInLoop(c2) else c2, done)
      else Outcome(c1, [])
    else Outcome(c.(fault := c.fault || (c.interest.write && r.PeerGone?)), [])
  }

  function ShutdownInLoop(c: Conn): Conn {
    if c.interest.write then c else c.(shutAt := c.shutAt + [|c.wire|])
  }

  /** StringPiece(const string&) measures with strlen: the bytes before the first NUL. */
  function CString(data: seq<Byte>): seq<Byte> {
    if data == [] || data[0] == 0 then [] else [data[0]] + CString(data[1..])
  }

  /** send(): from the loop's own thread it runs at once, from another a copy is queued, which
      sendInLoop gets back through a StringPiece. */
  function Send(c: Conn, ownThread: bool, data: seq<Byte>, r: WriteResult): Outcome
    requires MayAnswer(c, |data|, r)
  {
    if c.state != Connected then Outcome(c, [])
    else if ownThread then SendInLoop(c, data, r)
    else Outcome(c, [QueueSend(CString(data))])
  }

  function Shutdown(c: Conn, ownThread: bool): Outcome {
    if c.state != Connected then Outcome(c, [])
    else
      var c1 := c.(state := Disconnecting, shutRequested := true);
      if ownThread then Outcome(ShutdownInLoop(c1), []) else Outcome(c1, [QueueShutdown])
  }

  function ForceClose(c: Conn): Outcome {
    if Live(c) then Outcome(c.(state := Disconnecting), [QueueForceClose]) else Outcome(c, [])
  }

  function HandleClose(c: Conn): Outcome
    requires Live(c)
  {
    Outcome(c.(state := Disconnected, interest := NONE_EVENT, history := c.history + [Down]), [InvokeClose])
  }

  function ForceCloseInLoop(c: Conn): Outcome {
    if Live(c) then HandleClose(c) else Outcome(c, [])
  }

  function HandleRead(c: Conn, r: ReadResult): Outcome
    requires r.Legal() && (r.EndOfFile? ==> Live(c))
  {
    match r
    case Received(data) => Outcome(c.(input := c.input + data), [])
    case EndOfFile => HandleClose(c)
    case ReadError => Outcome(c, [])
  }

  /** The user, in the message callback or later, takes bytes off the front of inputBuffer_. */
  function TakeInput(c: Conn, n: nat): Conn
    requires n <= |c.input|
  {
    c.(input := c.input[n..], retrieved := c.retrieved + c.input[..n])
  }

  function ConnectEstablished(c: Conn): Conn
    requires c.state == Connecting
  {
    c.(state := Connected, interest := c.interest.(read := true), added := true, history := c.history + [Up])
  }

  /** connectDestroyed before channel_->remove(): a connection that is still connected goes
      down first. */
  function ConnectDestroyedPrefix(c: Conn): Conn {
    if c.state == Connected
    then c.(state := Disconnected, interest := NONE_EVENT, history := c.history + [Down])
    else c
  }

  function ConnectDestroyed(c: Conn): Conn
    requires ConnectDestroyedPrefix(c).interest == NONE_EVENT
  {
    var c1 := ConnectDestroyedPrefix(c);
    c1.(added := false, history := c1.history + [Destroyed])
  }

  function StartReadInLoop(c: Conn): Conn {
    if !c.interest.read then c.(interest := c.interest.(read := true), added := true) else c
  }

  // ---------------------------------------------------------------- the byte stream

  /** No byte is lost, duplicated or reordered on its way to the kernel: what is on the wire
      followed by what waits is exactly what was accepted, unless the peer went away while
      nothing was waiting; and write interest is on exactly while something waits. */
  ghost predicate StreamInv(c: Conn) {
    && (|| c.wire + c.output == c.accepted
        || (c.fault && c.output == [] && c.wire <= c.accepted))
    && (c.state != Disconnected ==> (c.interest.write <==> c.output != []))
    && (c.state == Disconnected ==> !c.interest.write)
  }

  lemma SendInLoopKeepsStream(c: Conn, data: seq<Byte>, r: WriteResult)
    requires StreamInv(c) && MayAnswer(c, |data|, r)
    ensures StreamInv(SendInLoop(c, data, r).conn)
    ensures c.state != Disconnected ==> SendInLoop(c, data, r).conn.accepted == c.accepted + data
    ensures c.state == Disconnected ==> SendInLoop(c, data, r).conn == c
    ensures c.wire <= SendInLoop(c, data, r).conn.wire
    ensures var c' := SendInLoop(c, data, r).conn;
            && (c'.fault <==> c.fault || SendAnswer(c, r) == Some(PeerGone))
            && (c.state != Disconnected && SendAnswer(c, r) != Some(PeerGone) ==>
                  c'.wire + c'.output == c.wire + c.output + data)
  {
    SendInLoopMoves(c, data, r);
    if c.state != Disconnected {
      if !c.interest.write && c.output == [] {
        DirectWriteKeepsStream(c, data, r);
      } else {
        var c' := SendInLoop(c, data, r).conn;
        assert c'.wire + c'.output == (c.wire + c.output) + data;
      }
    }
  }

  lemma DirectWriteKeepsStream(c: Conn, data: seq<Byte>, r: WriteResult)
    requires StreamInv(c) && MayAnswer(c, |data|, r)
    requires c.state != Disconnected && !c.interest.write && c.output == []
    ensures var c' := SendInLoop(c, data, r).conn;
            StreamInv(c') && c'.accepted == c.accepted + data && c.wire <= c'.wire
  {
    var nwrote := if r.Wrote? then r.n else 0;
    assert data[..nwrote] + data[nwrote..] == data;
    if !c.fault {
      assert c.wire == c.accepted;
      assert c.wire + data[..nwrote] + data[nwrote..] == c.accepted + data;
    }
  }

  lemma HandleWriteKeepsStream(c: Conn, r: WriteResult)
    requires StreamInv(c) && MayAnswer(c, |c.output|, r)
    ensures StreamInv(HandleWrite(c, r).conn)
    ensures c.wire <= HandleWrite(c, r).conn.wire
    ensures HandleWrite(c, r).conn.accepted == c.accepted
    ensures var c' := HandleWrite(c, r).conn;
            && c'.wire + c'.output == c.wire + c.output && |c'.wire| == |c.wire| + Took(WriteAnswer(c, r))
            && (c'.fault <==> c.fault || WriteAnswer(c, r) == Some(PeerGone))
  {
    HandleWriteMoves(c, r);
    if c.interest.write && r.Wrote? && r.n > 0 {
      assert c.output[..r.n] + c.output[r.n..] == c.output;
      assert (c.wire + c.output[..r.n]) + c.output[r.n..] == c.wire + c.output;
    }
  }

  /** sendInLoop puts its data behind what is on the wire and waiting, unless the direct write was
      told that the peer is gone: then, and only then, they are dropped and a fault is noted. The
      wire grows by exactly what the kernel took. */
  lemma SendInLoopMoves(c: Conn, data: seq<Byte>, r: WriteResult)
    requires MayAnswer(c, |data|, r)
    ensures var c', answer := SendInLoop(c, data, r).conn, SendAnswer(c, r);
            && (c'.fault <==> c.fault || answer == Some(PeerGone))
            && |c'.wire| == |c.wire| + Took(answer) && c.wire <= c'.wire
            && c'.wire + c'.output
               == c.wire + c.output + (if c.state == Disconnected || answer == Some(PeerGone) then [] else data)
            && (answer == Some(PeerGone) ==> c'.output == [] && !c'.interest.write)
  {
    if SendAnswer(c, r).Some? {
      DirectMoves(c, data, r);
    } else if c.state != Disconnected {
      Behind(c.wire, c.output, data);
    } else {
      assert c.wire + c.output + [] == c.wire + c.output;
    }
  }

  lemma Behind(wire: seq<Byte>, output: seq<Byte>, data: seq<Byte>)
    ensures wire + (output + data) == wire + output + data && output + [] == output
  {
  }

  lemma Cut(wire: seq<Byte>, data: seq<Byte>, n: nat)
    requires n <= |data|
    ensures wire + data[..n] + data[n..] == wire + [] + data
  {
  }

  lemma DirectMoves(c: Conn, data: seq<Byte>, r: WriteResult)
    requires MayAnswer(c, |data|, r) && SendAnswer(c, r).Some?
    ensures var c' := SendInLoop(c, data, r).conn;
            && (c'.fault <==> c.fault || r == PeerGone)
            && c'.wire == c.wire + data[..Took(Some(r))]
            && c'.wire + c'.output == c.wire + [] + (if r == PeerGone then [] else data)
            && (r == PeerGone ==> c'.output == [] && !c'.interest.write)
  {
    Cut(c.wire, data, Took(Some(r)));
  }

  /** handleWrite moves from the buffer to the wire exactly what the kernel took. */
  lemma HandleWriteMoves(c: Conn, r: WriteResult)
    requires MayAnswer(c, |c.output|, r)
    ensures var c', answer := HandleWrite(c, r).conn, WriteAnswer(c, r);
            && (c'.fault <==> c.fault || answer == Some(PeerGone))
            && |c'.wire| == |c.wire| + Took(answer) && c.wire <= c'.wire
            && c'.wire + c'.output == c.wire + c.output
  {
    if c.interest.write && r.Wrote? && r.n > 0 {
      assert (c.wire + c.output[..r.n]) + c.output[r.n..] == c.wire + c.output;
    }
  }

  /** The write-complete callback is queued exactly when the direct write took all of the data,
      and then every accepted byte is on the wire; the high-water callback exactly when what
      waits reaches the mark from below. */
  lemma NoticesMeanWhatTheySay(c: Conn, data: seq<Byte>, r: WriteResult)
    requires StreamInv(c) && MayAnswer(c, |data|, r)
    ensures var o := SendInLoop(c, data, r);
            && (QueueWriteComplete in o.effects <==> c.wantsComplete && SendAnswer(c, r) == Some(Wrote(|data|)))
            && (QueueWriteComplete in o.effects ==> o.conn.wire == o.conn.accepted && o.conn.output == [])
            && (forall n :: QueueHighWater(n) in o.effects <==>
                  c.highWaterMark.Some? && |c.output| < c.highWaterMark.value <= |o.conn.output| == n)
  {
    CompleteNotice(c, data, r);
    HighWaterNotice(c, data, r);
  }

  lemma CompleteNotice(c: Conn, data: seq<Byte>, r: WriteResult)
    requires StreamInv(c) && MayAnswer(c, |data|, r)
    ensures var o := SendInLoop(c, data, r);
            && (QueueWriteComplete in o.effects <==> c.wantsComplete && SendAnswer(c, r) == Some(Wrote(|data|)))
            && (QueueWriteComplete in o.effects ==> o.conn.wire == o.conn.accepted && o.conn.output == [])
  {
    assert r == Wrote(|data|) ==> data[..r.n] == data && data[r.n..] == [];
    if SendAnswer(c, r) == Some(Wrote(|data|)) {
      assert !c.fault && c.wire == c.accepted;
    }
  }

  lemma HighWaterNotice(c: Conn, data: seq<Byte>, r: WriteResult)
    requires MayAnswer(c, |data|, r)
    ensures var o := SendInLoop(c, data, r);
            forall n :: QueueHighWater(n) in o.effects <==>
                          c.highWaterMark.Some? && |c.output| < c.highWaterMark.value <= |o.conn.output| == n
  {
    if c.state != Disconnected {
      var n := Took(SendAnswer(c, r));
      KeepNotice(FirstWrite(c, data, r), data[n..]);
      assert QueueWriteComplete in FirstNotice(c, data, r) ==> data[n..] == [];
    }
  }

  lemma KeepNotice(c: Conn, rest: seq<Byte>)
    ensures var o := KeepRest(c, rest);
            forall n :: QueueHighWater(n) in o.effects <==>
                          c.highWaterMark.Some? && |c.output| < c.highWaterMark.value <= |o.conn.output| == n
  {
  }

  /** handleWrite queues it exactly when the kernel took everything that waited; then, too, every
      accepted byte is on the wire. */
  lemma DrainNotice(c: Conn, r: WriteResult)
    requires StreamInv(c) && MayAnswer(c, |c.output|, r)
    ensures var o := HandleWrite(c, r);
            && (QueueWriteComplete in o.effects
                <==> c.wantsComplete && c.output != [] && WriteAnswer(c, r) == Some(Wrote(|c.output|)))
            && (QueueWriteComplete in o.effects ==> o.conn.wire == o.conn.accepted && o.conn.output == [])
  {
    if c.interest.write && r.Wrote? && r.n > 0 {
      assert r.n == |c.output| ==> c.output[..r.n] == c.output;
    }
  }

  /** What is left of a payload sent from another thread: everything up to its first NUL, and
      so the whole of it exactly when it has none. */
  lemma {:induction false} CutAtNul(data: seq<Byte>)
    ensures CString(data) <= data && 0 !in CString(data)
    ensures CString(data) == data || data[|CString(data)|] == 0
    ensures CString(data) == data <==> 0 !in data
  {
    if data != [] && data[0] != 0 {
      CutAtNul(data[1..]);
      assert data == [data[0]] + data[1..];
      assert CString(data)[1..] == CString(data[1..]);
    }
  }

  // ---------------------------------------------------------------- exact conditions

  /** One wake-up of a live connection calls handleClose a second time, tripping its
      assertion, exactly when HUP comes without IN but with an urgent (or RDHUP) event and
      the read then reports end of file. */
  lemma DispatchTripsCloseAssertion(c: Conn, r: Revents, rr: ReadResult)
    requires Live(c)
    ensures var closedFirst := OnClose in Dispatch(r);
            var afterClose := if closedFirst then HandleClose(c).conn else c;
            (OnRead in Dispatch(r) && rr.EndOfFile? && !Live(afterClose))
            <==> r.pollHup && !r.pollIn && (r.pollPri || r.pollRdhup) && rr.EndOfFile?
  {
  }

  // ---------------------------------------------------------------- the object

  class TcpConnection {
    var state: State
    var interest: Interest
    var added: bool
    const inputBuffer: Buffer
    const outputBuffer: Buffer
    const wantsComplete: bool
    const highWaterMark: Option<nat>
    var effects: seq<Effect>
    ghost var retrieved: seq<Byte>
    ghost var wire: seq<Byte>
    ghost var accepted: seq<Byte>
    ghost var fault: bool
    ghost var shutAt: seq<nat>
    ghost var shutRequested: bool
    ghost var history: seq<Life>

    ghost predicate Valid()
      reads this, inputBuffer, outputBuffer
    {
      && inputBuffer != outputBuffer
      && inputBuffer.Valid() && outputBuffer.Valid()
      && inputBuffer.buffer != outputBuffer.buffer
    }

    ghost function Repr(): set<object>
      reads this, inputBuffer, outputBuffer
    {
      {this, inputBuffer, outputBuffer, inputBuffer.buffer, outputBuffer.buffer}
    }

    ghost function Value(): Conn
      reads this, inputBuffer, outputBuffer, inputBuffer.buffer, outputBuffer.buffer
      requires Valid()
    {
      Conn(state, interest, added, inputBuffer.Contents(), retrieved, outputBuffer.Contents(), wantsComplete,
           highWaterMark, wire, accepted, fault, shutAt, shutRequested, history)
    }

    constructor (wantsComplete: bool, highWaterMark: Option<nat>)
      ensures Valid() && fresh(Repr())
      ensures Value() == Fresh(wantsComplete, highWaterMark) && effects == []
    {
      state, interest, added := Connecting, NONE_EVENT, false;
      inputBuffer := new Buffer();
      outputBuffer := new Buffer();
      this.wantsComplete, this.highWaterMark, effects := wantsComplete, highWaterMark, [];
      retrieved, wire, accepted, fault, shutAt, shutRequested, history := [], [], [], false, [], false, [];
    }

    method DoSendInLoop(data: seq<Byte>, r: WriteResult)
      requires Valid() && MayAnswer(Value(), |data|, r)
      modifies Repr()
      ensures Valid() && fresh(Repr() - old(Repr()))
      ensures Value() == SendInLoop(old(Value()), data, r).conn
      ensures effects == old(effects) + SendInLoop(old(Value()), data, r).effects
    {
      if state != Disconnected {
        DoSendLive(data, r);
      }
    }

    method DoSendLive(data: seq<Byte>, r: WriteResult)
      requires Valid() && MayAnswer(Value(), |data|, r) && state != Disconnected
      modifies Repr()
      ensures Valid() && fresh(Repr() - old(Repr()))
      ensures Value() == SendLive(old(Value()), data, r).conn
      ensures effects == old(effects) + SendLive(old(Value()), data, r).effects
    {
      var nwrote, faultError := DoTryWrite(data, r);
      if !faultError && |data| - nwrote > 0 {
        DoKeepRest(data[nwrote..]);
      }
    }

    /** The direct write, if nothing waits. */
    method DoTryWrite(data: seq<Byte>, r: WriteResult) returns (nwrote: nat, faultError: bool)
      requires Valid() && MayAnswer(Value(), |data|, r) && state != Disconnected
      modifies this`wire, this`fault, this`effects, this`accepted
      ensures Valid() && Repr() == old(Repr())
      ensures var answer := SendAnswer(old(Value()), r);
              nwrote == Took(answer) && faultError == (answer == Some(PeerGone))
      ensures Value() == FirstWrite(old(Value()), data, r)
      ensures effects == old(effects) + FirstNotice(old(Value()), data, r)
    {
      nwrote, faultError := 0, false;
      accepted := accepted + data;
      if !interest.write && outputBuffer.ReadableBytes() == 0 {
        nwrote, faultError := DoWrite(data, r);
      }
      assert wire + data[..0] == wire;
    }

    /** The direct write of sendInLoop and what it does with the answer. */
    method DoWrite(data: seq<Byte>, r: WriteResult) returns (nwrote: nat, faultError: bool)
      requires Valid() && MayAnswer(Value(), |data|, r)
      modifies this`wire, this`fault, this`effects
      ensures Valid() && Repr() == old(Repr())
      ensures nwrote == (if r.Wrote? then r.n else 0) <= |data| && faultError == r.PeerGone?
      ensures Value() == old(Value()).(wire := old(wire) + data[..nwrote], fault := old(fault) || r.PeerGone?)
      ensures effects == old(effects)
                         + if r.Wrote? && nwrote == |data| && wantsComplete then [QueueWriteComplete] else []
    {
      nwrote, faultError := 0, false;
      if r.Wrote? {
        nwrote := r.n;
        wire := wire + data[..nwrote];
        if |data| - nwrote == 0 && wantsComplete {
          effects := effects + [QueueWriteComplete];
        }
      } else if r.PeerGone? {
        faultError, fault := true, true;
      }
      assert r.Wrote? || wire == old(wire) + data[..0];
    }

    method DoKeepRest(rest: seq<Byte>)
      requires Valid()
      modifies this`effects, this`interest, outputBuffer, outputBuffer.buffer
      ensures Valid() && fresh(Repr() - old(Repr()))
      ensures Value() == KeepRest(old(Value()), rest).conn
      ensures effects == old(effects) + KeepRest(old(Value()), rest).effects
    {
      var oldLen := outputBuffer.ReadableBytes();
      var remaining := |rest|;
      if highWaterMark.Some? && oldLen + remaining >= highWaterMark.value && oldLen < highWaterMark.value {
        effects := effects + [QueueHighWater(oldLen + remaining)];
      }
      outputBuffer.Append(rest);
      assert inputBuffer.Contents() == old(inputBuffer.Contents());
      if !interest.write {
        interest := interest.(write := true);
      }
    }

    method DoHandleWrite(r: WriteResult)
      requires Valid() && MayAnswer(Value(), |Value().output|, r)
      modifies this`wire, this`interest, this`effects, this`shutAt, this`fault, outputBuffer
      ensures Valid() && Repr() == old(Repr())
      ensures Value() == HandleWrite(old(Value()), r).conn
      ensures effects == old(effects) + HandleWrite(old(Value()), r).effects
    {
      if interest.write {
        if r.Wrote? && r.n > 0 {
          wire := wire + outputBuffer.Contents()[..r.n];
          outputBuffer.Retrieve(r.n);
          if outputBuffer.ReadableBytes() == 0 {
            DoDrained();
          }
        } else if r.PeerGone? {
          fault := true;
        }
      }
    }

    /** The end of handleWrite, with nothing left to write. */
    method DoDrained()
      requires Valid()
      modifies this`interest, this`effects, this`shutAt
      ensures Valid() && Repr() == old(Repr())
      ensures var c := old(Value()).(interest := old(interest).(write := false));
              Value() == if state == Disconnecting then ShutdownInLoop(c) else c
      ensures effects == old(effects) + if wantsComplete then [QueueWriteComplete] else []
    {
      interest := interest.(write := false);
      if wantsComplete {
        effects := effects + [QueueWriteComplete];
      }
      if state == Disconnecting {
        DoShutdownInLoop();
      }
    }

    method DoShutdownInLoop()
      requires Valid()
      modifies this`shutAt
      ensures Valid() && Value() == ShutdownInLoop(old(Value()))
    {
      if !interest.write {
        shutAt := shutAt + [|wire|];
      }
    }

    method DoSend(ownThread: bool, data: seq<Byte>, r: WriteResult)
      requires Valid() && MayAnswer(Value(), |data|, r)
      modifies Repr()
      ensures Valid() && fresh(Repr() - old(Repr()))
      ensures Value() == Send(old(Value()), ownThread, data, r).conn
      ensures effects == old(effects) + Send(old(Value()), ownThread, data, r).effects
    {
      if state == Connected {
        if ownThread {
          DoSendInLoop(data, r);
        } else {
          effects := effects + [QueueSend(CString(data))];
        }
      }
    }

    method DoShutdown(ownThread: bool)
      requires Valid()
      modifies this
      ensures Valid() && Repr() == old(Repr())
      ensures Value() == Shutdown(old(Value()), ownThread).conn
      ensures effects == old(effects) + Shutdown(old(Value()), ownThread).effects
    {
      if state == Connected {
        state := Disconnecting;
        shutRequested := true;
        if ownThread {
          DoShutdownInLoop();
        } else {
          effects := effects + [QueueShutdown];
        }
      }
    }

    method DoForceClose()
      requires Valid()
      modifies this
      ensures Valid() && Repr() == old(Repr())
      ensures Value() == ForceClose(old(Value())).conn
      ensures effects == old(effects) + ForceClose(old(Value())).effects
    {
      if state == Connected || state == Disconnecting {
        state := Disconnecting;
        effects := effects + [QueueForceClose];
      }
    }

    method DoForceCloseInLoop()
      requires Valid()
      modifies this
      ensures Valid() && Repr() == old(Repr())
      ensures Value() == ForceCloseInLoop(old(Value())).conn
      ensures effects == old(effects) + ForceCloseInLoop(old(Value())).effects
    {
      if state == Connected || state == Disconnecting {
        DoHandleClose();
      }
    }

    method DoHandleClose()
      requires Valid() && Live(Value())
      modifies this
      ensures Valid() && Repr() == old(Repr())
      ensures Value() == HandleClose(old(Value())).conn
      ensures effects == old(effects) + HandleClose(old(Value())).effects
    {
      state := Disconnected;
      interest := NONE_EVENT;
      history := history + [Down];
      effects := effects + [InvokeClose];
    }

    method DoHandleRead(r: ReadResult)
      requires Valid() && r.Legal() && (r.EndOfFile? ==> Live(Value()))
      requires r.Received? ==> |r.data| <= inputBuffer.ReadCapacity()
      modifies Repr()
      ensures Valid() && fresh(Repr() - old(Repr()))
      ensures Value() == HandleRead(old(Value()), r).conn
      ensures effects == old(effects) + HandleRead(old(Value()), r).effects
    {
      var got := match r case Received(data) => Some(data) case EndOfFile => Some([]) case ReadError => None;
      var n := inputBuffer.ReadFd(got);
      assert outputBuffer.Contents() == old(outputBuffer.Contents());
      if n == 0 {
        DoHandleClose();
      }
    }

    /** inputBuffer()->retrieveAsString(n). */
    method DoTakeInput(n: nat) returns (data: seq<Byte>)
      requires Valid() && n <= inputBuffer.ReadableBytes()
      modifies this`retrieved, inputBuffer
      ensures Valid() && Repr() == old(Repr())
      ensures Value() == TakeInput(old(Value()), n) && data == old(Value()).input[..n]
    {
      data := inputBuffer.RetrieveAsString(n);
      retrieved := retrieved + data;
    }

    method DoConnectEstablished()
      requires Valid() && state == Connecting
      modifies this
      ensures Valid() && Repr() == old(Repr())
      ensures Value() == ConnectEstablished(old(Value())) && effects == old(effects)
    {
      state := Connected;
      interest := interest.(read := true);
      added := true;
      history := history + [Up];
    }

    method DoConnectDestroyed()
      requires Valid() && ConnectDestroyedPrefix(Value()).interest == NONE_EVENT
      modifies this
      ensures Valid() && Repr() == old(Repr())
      ensures Value() == ConnectDestroyed(old(Value())) && effects == old(effects)
    {
      if state == Connected {
        state := Disconnected;
        interest := NONE_EVENT;
        history := history + [Down];
      }
      assert interest == NONE_EVENT;
      added := false;
      history := history + [Destroyed];
    }
  }
}
