/** networker/net/Channel.h and Channel.cpp: the events one file descriptor asks for, the
    events it gets, and the order in which one wake-up calls its callbacks. */
module Channels {

  /** events_: kReadEvent is POLLIN | POLLPRI, kWriteEvent is POLLOUT. */
  datatype Interest = Interest(read: bool, write: bool)

  const NONE_EVENT := Interest(false, false)

  /** revents_, bit by bit. */
  datatype Revents = Revents(pollIn: bool, pollPri: bool, pollOut: bool, pollErr: bool,
                             pollHup: bool, pollRdhup: bool, pollNval: bool)

  datatype Callback = OnClose | OnError | OnRead | OnWrite

  /** What the kernel may report: requested events, and ERR, HUP and NVAL unasked. RDHUP is
      never requested. */
  predicate Deliverable(r: Revents, i: Interest) {
    (r.pollIn || r.pollPri ==> i.read) && (r.pollOut ==> i.write) && !r.pollRdhup
  }

  /** The callbacks one wake-up calls, in order. */
  function Dispatch(r: Revents): (cs: seq<Callback>)
    ensures OnClose in cs <==> r.pollHup && !r.pollIn
    ensures OnRead in cs <==> r.pollIn || r.pollPri || r.pollRdhup
    ensures OnError in cs <==> r.pollErr || r.pollNval
    ensures OnWrite in cs <==> r.pollOut
    ensures forall i, j :: 0 <= i < j < |cs| ==> Rank(cs[i]) < Rank(cs[j])
  {
    (if r.pollHup && !r.pollIn then [OnClose] else [])
    + (if r.pollErr || r.pollNval then [OnError] else [])
    + (if r.pollIn || r.pollPri || r.pollRdhup then [OnRead] else [])
    + (if r.pollOut then [OnWrite] else [])
  }

  function Rank(c: Callback): nat {
    match c case OnClose => 0 case OnError => 1 case OnRead => 2 case OnWrite => 3
  }

  class Channel {
    const fd: nat
    var events: Interest
    var revents: Revents
    var index: int
    var eventHandling: bool
    var addedToLoop: bool

    constructor (fd: nat)
      ensures this.fd == fd && events == NONE_EVENT && index == -1
      ensures !eventHandling && !addedToLoop
    {
      this.fd := fd;
      events := NONE_EVENT;
      revents := Revents(false, false, false, false, false, false, false);
      index := -1;
      eventHandling := false;
      addedToLoop := false;
    }

    /** `calls` lists the callbacks in the order in which they are invoked. */
    method HandleEventWithGuard() returns (calls: seq<Callback>)
      modifies this`eventHandling
      ensures !eventHandling
      ensures calls == Dispatch(revents)
    {
      eventHandling := true;
      calls := [];
      if revents.pollHup && !revents.pollIn {
        calls := calls + [OnClose];
      }
      ghost var closed := if revents.pollHup && !revents.pollIn then [OnClose] else [];
      assert calls == closed;
      if revents.pollErr || revents.pollNval {
        calls := calls + [OnError];
      }
      ghost var errors := if revents.pollErr || revents.pollNval then [OnError] else [];
      assert calls == closed + errors;
      if revents.pollIn || revents.pollPri || revents.pollRdhup {
        calls := calls + [OnRead];
      }
      ghost var incoming := if revents.pollIn || revents.pollPri || revents.pollRdhup then [OnRead] else [];
      assert calls == closed + errors + incoming;
      if revents.pollOut {
        calls := calls + [OnWrite];
      }
      assert calls == closed + errors + incoming + if revents.pollOut then [OnWrite] else [];
      eventHandling := false;
    }
  }
}
