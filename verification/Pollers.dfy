/** networker/net/poller: two representations of one interest map.

    A run is a sequence of calls `Update` and `Remove`, as Channel::update and Channel::remove
    make them: every change of a channel's events is followed by an update, and a channel asks
    for nothing when it is removed. `Registry` is what the callers can see of such a run. On it
    stand the pollers: PollPoller's array, map and slot numbers, and EPollPoller's three-valued
    index with the kernel's set. A C++ assertion that would fail sets `aborted`. */
module Pollers {
  import opened Channels

  // ---------------------------------------------------------------- the callers' view

  /** `channels` is the map both pollers keep. `updates` counts the calls since a channel was
      registered; `quiet` counts the updates in a row that asked for no event, and an
      unregistered channel counts as disabled once. `used` remembers who was ever registered. */
  datatype Registry = Registry(channels: map<nat, Channel>, events: map<Channel, Interest>,
                               used: set<Channel>, updates: map<Channel, nat>, quiet: map<Channel, nat>)

  datatype Call = Update(channel: Channel, events: Interest) | Remove(channel: Channel)

  predicate Registered(channels: map<nat, Channel>, c: Channel) {
    c.fd in channels && channels[c.fd] == c
  }

  ghost predicate RegistryInv(r: Registry, owned: set<Channel>) {
    && (forall fd <- r.channels :: r.channels[fd] in owned && r.channels[fd].fd == fd)
    && (forall c <- owned :: Entry(r, c))
  }

  ghost predicate Entry(r: Registry, c: Channel) {
    && c in r.events && c in r.updates && c in r.quiet
    && (r.updates[c] == 0 <==> !Registered(r.channels, c))
    && (Registered(r.channels, c) ==> c in r.used)
    && (!Registered(r.channels, c) ==> r.quiet[c] == 1)
    && (r.quiet[c] == 0 <==> r.events[c] != NONE_EVENT)
  }

  /** One channel per open descriptor, and the assertions of Channel::remove and of both
      removeChannel on what callers do. */
  ghost predicate Legal(r: Registry, owned: set<Channel>, call: Call) {
    && call.channel in owned && call.channel in r.events
    && match call
       case Update(c, _) => c.fd in r.channels ==> r.channels[c.fd] == c
       case Remove(c) => Registered(r.channels, c) && r.events[c] == NONE_EVENT
  }

  ghost function Note(r: Registry, owned: set<Channel>, call: Call): Registry
    requires RegistryInv(r, owned) && Legal(r, owned, call)
  {
    match call
    case Update(c, e) =>
      r.(channels := r.channels[c.fd := c], events := r.events[c := e], used := r.used + {c},
         updates := r.updates[c := r.updates[c] + 1],
         quiet := r.quiet[c := if e == NONE_EVENT then r.quiet[c] + 1 else 0])
    case Remove(c) =>
      r.(channels := r.channels - {c.fd}, updates := r.updates[c := 0], quiet := r.quiet[c := 1])
  }

  ghost function NewRegistry(owned: set<Channel>): (r: Registry)
    ensures RegistryInv(r, owned)
  {
    Registry(map[], map c | c in owned :: NONE_EVENT, {}, map c | c in owned :: 0, map c | c in owned :: 1)
  }

  lemma NoteKeepsInv(r: Registry, owned: set<Channel>, call: Call)
    requires RegistryInv(r, owned) && Legal(r, owned, call)
    ensures RegistryInv(Note(r, owned, call), owned)
  {
    var r' := Note(r, owned, call);
    var x := call.channel;
    assert Entry(r, x);
    assert Entry(r', x);
    forall c | c in owned && c != x ensures Entry(r', c) {
      assert Entry(r, c);
      OthersStay(r, owned, call, c);
    }
  }

  lemma OthersStay(r: Registry, owned: set<Channel>, call: Call, c: Channel)
    requires RegistryInv(r, owned) && Legal(r, owned, call) && c != call.channel
    ensures Registered(Note(r, owned, call).channels, c) == Registered(r.channels, c)
  {
    assert Entry(r, call.channel);
  }

  // ---------------------------------------------------------------- PollPoller

  datatype PollFd = PollFd(fd: int, events: Interest)

  /** The poller's array and map, and the index and events of each channel of the loop. */
  datatype Poll = Poll(pollfds: seq<PollFd>, channels: map<nat, Channel>, index: map<Channel, int>,
                       events: map<Channel, Interest>, aborted: bool)

  /** The descriptor of a slot, parked or not. */
  function FdOf(p: PollFd): nat {
    if p.fd < 0 then -p.fd - 1 else p.fd
  }

  function PollUpdate(p: Poll, c: Channel): Poll
    requires c in p.index && c in p.events
  {
    var i := p.index[c];
    if i < 0 then
      if c.fd in p.channels then p.(aborted := true)
      else p.(pollfds := p.pollfds + [PollFd(c.fd, p.events[c])], index := p.index[c := |p.pollfds|],
              channels := p.channels[c.fd := c])
    else if !Registered(p.channels, c) || i >= |p.pollfds| || (p.pollfds[i].fd != c.fd && p.pollfds[i].fd != -1 - c.fd)
    then p.(aborted := true)
    else p.(pollfds := p.pollfds[i := PollFd(if p.events[c] == NONE_EVENT then -1 - c.fd else c.fd, p.events[c])])
  }

  function PollRemove(p: Poll, c: Channel): Poll
    requires c in p.index && c in p.events
  {
    var i := p.index[c];
    if !Registered(p.channels, c) || p.events[c] != NONE_EVENT || !(0 <= i < |p.pollfds|)
       || p.pollfds[i] != PollFd(-1 - c.fd, p.events[c])
    then p.(aborted := true)
    else
      var last := |p.pollfds| - 1;
      var channels := p.channels - {c.fd};
      if i == last then p.(channels := channels, pollfds := p.pollfds[..last])
      else
        var atEnd := FdOf(p.pollfds[last]);
        if atEnd !in channels then p.(aborted := true)
        else p.(channels := channels, pollfds := p.pollfds[i := p.pollfds[last]][..last],
                index := p.index[channels[atEnd] := i])
  }

  /** EventLoop's updateChannel and removeChannel take only the channels of their own loop. */
  function PollApply(p: Poll, call: Call): Poll {
    if call.channel !in p.index || call.channel !in p.events then p.(aborted := true)
    else match call
    case Update(c, e) => PollUpdate(p.(events := p.events[c := e]), c)
    case Remove(c) => PollRemove(p, c)
  }

  /** What PollPoller needs of its callers beyond `Legal`: no channel that was removed comes
      back, and none is removed whose only update asked for nothing. */
  ghost predicate PollLegal(r: Registry, owned: set<Channel>, call: Call)
    requires RegistryInv(r, owned) && Legal(r, owned, call)
  {
    match call
    case Update(c, _) => Registered(r.channels, c) || c !in r.used
    case Remove(c) => r.updates[c] > 1
  }

  /** Slots and channels correspond one to one; a slot holds its channel's current events, and
      is parked when there are none, except after a single update. */
  ghost predicate PollInv(p: Poll, r: Registry, owned: set<Channel>) {
    && !p.aborted && p.channels == r.channels && p.events == r.events
    && SlotsMatch(p.pollfds, p.channels, p.index)
    && (forall fd <- p.channels :: Slot(p, r, p.channels[fd]))
    && (forall c <- owned :: c in p.index && (p.index[c] < 0 <==> c !in r.used))
  }

  ghost predicate SlotsMatch(pollfds: seq<PollFd>, channels: map<nat, Channel>, index: map<Channel, int>) {
    && (forall fd <- channels :: channels[fd].fd == fd && channels[fd] in index
                                 && 0 <= index[channels[fd]] < |pollfds|
                                 && FdOf(pollfds[index[channels[fd]]]) == fd)
    && (forall i :: 0 <= i < |pollfds| ==> FdOf(pollfds[i]) in channels && channels[FdOf(pollfds[i])] in index
                                           && index[channels[FdOf(pollfds[i])]] == i)
  }

  ghost predicate Slot(p: Poll, r: Registry, c: Channel) {
    && c in p.index && 0 <= p.index[c] < |p.pollfds| && c in r.events && c in r.updates
    && p.pollfds[p.index[c]].events == r.events[c]
    && (p.pollfds[p.index[c]].fd < 0 <==> r.events[c] == NONE_EVENT && r.updates[c] > 1)
  }

  /** The array and the index after the slot of `c` is swapped with the last and dropped. */
  function Closed(pollfds: seq<PollFd>, i: nat): seq<PollFd>
    requires i < |pollfds|
  {
    pollfds[i := pollfds[|pollfds| - 1]][..|pollfds| - 1]
  }

  function Moved(pollfds: seq<PollFd>, channels: map<nat, Channel>, index: map<Channel, int>, i: nat): map<Channel, int>
    requires i < |pollfds| && FdOf(pollfds[|pollfds| - 1]) in channels
  {
    if i == |pollfds| - 1 then index else index[channels[FdOf(pollfds[|pollfds| - 1])] := i]
  }

  lemma PollRemoveIs(p: Poll, c: Channel)
    requires SlotsMatch(p.pollfds, p.channels, p.index) && Registered(p.channels, c) && c in p.events
    requires p.events[c] == NONE_EVENT && p.pollfds[p.index[c]] == PollFd(-1 - c.fd, NONE_EVENT)
    ensures PollRemove(p, c) == p.(channels := p.channels - {c.fd}, pollfds := Closed(p.pollfds, p.index[c]),
                                   index := Moved(p.pollfds, p.channels, p.index, p.index[c]))
  {
    var i, last := p.index[c], |p.pollfds| - 1;
    assert i == last ==> p.pollfds[i := p.pollfds[last]] == p.pollfds;
    assert i != last ==> p.index[p.channels[FdOf(p.pollfds[last])]] != i;
  }

  /** Removal moves no other channel's slot contents, only where they are. */
  lemma SwapKeepsOthers(pollfds: seq<PollFd>, channels: map<nat, Channel>, index: map<Channel, int>, c: Channel,
                        fd: nat)
    requires SlotsMatch(pollfds, channels, index) && Registered(channels, c) && fd in channels && fd != c.fd
    ensures var x, i := channels[fd], index[c];
            var pollfds', index' := Closed(pollfds, i), Moved(pollfds, channels, index, i);
            x in index' && 0 <= index'[x] < |pollfds'| && pollfds'[index'[x]] == pollfds[index[x]]
  {
    var x, i, last := channels[fd], index[c], |pollfds| - 1;
    assert FdOf(pollfds[index[x]]) == fd && FdOf(pollfds[i]) == c.fd;
    assert index[channels[FdOf(pollfds[last])]] == last;
  }

  lemma SwapRemoveMatches(pollfds: seq<PollFd>, channels: map<nat, Channel>, index: map<Channel, int>, c: Channel)
    requires SlotsMatch(pollfds, channels, index) && Registered(channels, c)
    ensures SlotsMatch(Closed(pollfds, index[c]), channels - {c.fd}, Moved(pollfds, channels, index, index[c]))
  {
    var i, last := index[c], |pollfds| - 1;
    var rest := channels - {c.fd};
    var pollfds', index' := Closed(pollfds, i), Moved(pollfds, channels, index, i);
    forall fd | fd in rest
      ensures rest[fd].fd == fd && rest[fd] in index' && 0 <= index'[rest[fd]] < |pollfds'|
      ensures FdOf(pollfds'[index'[rest[fd]]]) == fd
    {
      SwapKeepsOthers(pollfds, channels, index, c, fd);
    }
    forall j | 0 <= j < last
      ensures FdOf(pollfds'[j]) in rest && rest[FdOf(pollfds'[j])] in index' && index'[rest[FdOf(pollfds'[j])]] == j
    {
      var k := if j == i then last else j;
      assert index[channels[FdOf(pollfds[k])]] == k && k != i;
      assert index[channels[FdOf(pollfds[last])]] == last;
    }
  }

  /** updateChannel on a channel that has a slot. */
  lemma SlotUpdated(p: Poll, r: Registry, owned: set<Channel>, c: Channel, e: Interest)
    requires RegistryInv(r, owned) && PollInv(p, r, owned) && c in owned && Registered(r.channels, c)
    ensures PollInv(PollApply(p, Update(c, e)), Note(r, owned, Update(c, e)), owned)
  {
    var p', r' := PollApply(p, Update(c, e)), Note(r, owned, Update(c, e));
    assert Entry(r, c) && Slot(p, r, c);
    var i := p.index[c];
    assert FdOf(p.pollfds[i]) == c.fd;
    assert !p'.aborted && FdOf(p'.pollfds[i]) == c.fd;
    assert p'.channels == p.channels;
    assert SlotsMatch(p'.pollfds, p'.channels, p'.index);
    forall fd | fd in p'.channels ensures Slot(p', r', p'.channels[fd]) {
      assert Slot(p, r, p.channels[fd]);
      assert p.index[p.channels[fd]] == i ==> p.channels[fd] == c;
    }
  }

  /** updateChannel on a channel that was never registered. */
  lemma SlotAdded(p: Poll, r: Registry, owned: set<Channel>, c: Channel, e: Interest)
    requires RegistryInv(r, owned) && PollInv(p, r, owned) && c in owned && c !in r.used && c.fd !in r.channels
    ensures PollInv(PollApply(p, Update(c, e)), Note(r, owned, Update(c, e)), owned)
  {
    var p', r' := PollApply(p, Update(c, e)), Note(r, owned, Update(c, e));
    var n := |p.pollfds|;
    assert Entry(r, c);
    assert p'.pollfds == p.pollfds + [PollFd(c.fd, e)];
    forall fd | fd in p.channels ensures p.channels[fd] != c {
      assert p.channels[fd].fd == fd;
    }
    assert SlotsMatch(p'.pollfds, p'.channels, p'.index) by {
      forall i | 0 <= i <= n
        ensures FdOf(p'.pollfds[i]) in p'.channels && p'.index[p'.channels[FdOf(p'.pollfds[i])]] == i
      {
        assert i < n ==> p'.pollfds[i] == p.pollfds[i];
      }
    }
    forall fd | fd in p'.channels ensures Slot(p', r', p'.channels[fd]) {
      assert fd != c.fd ==> Slot(p, r, p.channels[fd]);
    }
  }

  /** removeChannel, with its swap. */
  lemma SlotRemoved(p: Poll, r: Registry, owned: set<Channel>, c: Channel)
    requires RegistryInv(r, owned) && PollInv(p, r, owned) && c in owned && Registered(r.channels, c)
    requires r.events[c] == NONE_EVENT && r.updates[c] > 1
    ensures PollInv(PollApply(p, Remove(c)), Note(r, owned, Remove(c)), owned)
  {
    var p', r' := PollApply(p, Remove(c)), Note(r, owned, Remove(c));
    assert Entry(r, c) && Slot(p, r, c);
    assert FdOf(p.pollfds[p.index[c]]) == c.fd;
    PollRemoveIs(p, c);
    SwapRemoveMatches(p.pollfds, p.channels, p.index, c);
    forall fd | fd in p'.channels ensures Slot(p', r', p'.channels[fd]) {
      assert Slot(p, r, p.channels[fd]);
      SwapKeepsOthers(p.pollfds, p.channels, p.index, c, fd);
    }
  }

  /** Exactly the calls that `PollLegal` describes pass PollPoller's assertions, and they keep
      its array, map and slot numbers in step. */
  lemma PollStep(p: Poll, r: Registry, owned: set<Channel>, call: Call)
    requires RegistryInv(r, owned) && PollInv(p, r, owned) && Legal(r, owned, call)
    ensures PollApply(p, call).aborted <==> !PollLegal(r, owned, call)
    ensures PollLegal(r, owned, call) ==> PollInv(PollApply(p, call), Note(r, owned, call), owned)
  {
    var c := call.channel;
    assert Entry(r, c);
    if Registered(r.channels, c) {
      assert Slot(p, r, c) && FdOf(p.pollfds[p.index[c]]) == c.fd;
    }
    if PollLegal(r, owned, call) {
      match call {
        case Update(_, e) =>
          if Registered(r.channels, c) { SlotUpdated(p, r, owned, c, e); } else { SlotAdded(p, r, owned, c, e); }
        case Remove(_) => SlotRemoved(p, r, owned, c);
      }
    }
  }

  // ---------------------------------------------------------------- EPollPoller

  const K_NEW := -1
  const K_ADDED := 1
  const K_DELETED := 2

  datatype CtlOp = CtlAdd | CtlMod | CtlDel

  /** event.data.ptr and event.events. */
  datatype Watch = Watch(channel: Channel, events: Interest)

  /** `kernel` is the interest set behind epollfd_; `refused` says that an epoll_ctl failed. */
  datatype EPoll = EPoll(channels: map<nat, Channel>, index: map<Channel, int>, events: map<Channel, Interest>,
                         kernel: map<nat, Watch>, refused: bool, aborted: bool)

  /** epoll_ctl: EEXIST for an ADD of a descriptor that is there, ENOENT for a MOD or DEL of
      one that is not. */
  function Ctl(e: EPoll, op: CtlOp, c: Channel): EPoll
    requires c in e.events
  {
    match op
    case CtlAdd => if c.fd in e.kernel then e.(refused := true)
                   else e.(kernel := e.kernel[c.fd := Watch(c, e.events[c])])
    case CtlMod => if c.fd !in e.kernel then e.(refused := true)
                   else e.(kernel := e.kernel[c.fd := Watch(c, e.events[c])])
    case CtlDel => if c.fd !in e.kernel then e.(refused := true)
                   else e.(kernel := e.kernel - {c.fd})
  }

  function EPollUpdate(e: EPoll, c: Channel): EPoll
    requires c in e.index && c in e.events
  {
    var index := e.index[c];
    if index == K_NEW || index == K_DELETED then
      if index == K_NEW && c.fd in e.channels then e.(aborted := true)
      else if index == K_DELETED && !Registered(e.channels, c) then e.(aborted := true)
      else
        var channels := if index == K_NEW then e.channels[c.fd := c] else e.channels;
        Ctl(e.(channels := channels, index := e.index[c := K_ADDED]), CtlAdd, c)
    else if !Registered(e.channels, c) || index != K_ADDED then e.(aborted := true)
    else if e.events[c] == NONE_EVENT then
      var e' := Ctl(e, CtlDel, c);
      e'.(index := e'.index[c := K_DELETED])
    else Ctl(e, CtlMod, c)
  }

  function EPollRemove(e: EPoll, c: Channel): EPoll
    requires c in e.index && c in e.events
  {
    var index := e.index[c];
    if !Registered(e.channels, c) || e.events[c] != NONE_EVENT || (index != K_ADDED && index != K_DELETED)
    then e.(aborted := true)
    else
      var e' := e.(channels := e.channels - {c.fd});
      var e'' := if index == K_ADDED then Ctl(e', CtlDel, c) else e';
      e''.(index := e''.index[c := K_NEW])
  }

  function EPollApply(e: EPoll, call: Call): EPoll {
    if call.channel !in e.index || call.channel !in e.events then e.(aborted := true)
    else match call
    case Update(c, ev) => EPollUpdate(e.(events := e.events[c := ev]), c)
    case Remove(c) => EPollRemove(e, c)
  }

  /** The kernel watches exactly the channels marked kAdded, with their current masks; these are
      the registered ones that were disabled an even number of times in a row. */
  ghost predicate EPollInv(e: EPoll, r: Registry, owned: set<Channel>) {
    && !e.aborted && !e.refused && e.channels == r.channels && e.events == r.events
    && (forall c <- owned :: Mark(e, r, c))
    && (forall fd <- e.kernel :: fd in r.channels && r.channels[fd] in owned && r.channels[fd].fd == fd)
  }

  ghost predicate Mark(e: EPoll, r: Registry, c: Channel) {
    && c in e.index && c in r.quiet && c in r.events
    && e.index[c] == (if !Registered(r.channels, c) then K_NEW else if r.quiet[c] % 2 == 0 then K_ADDED else K_DELETED)
    && (Registered(r.channels, c) ==>
          if r.quiet[c] % 2 == 0 then c.fd in e.kernel && e.kernel[c.fd] == Watch(c, r.events[c])
          else c.fd !in e.kernel)
  }

  /** Every legal call passes EPollPoller's assertions, and the kernel accepts every epoll_ctl
      it leads to, also when a channel is disabled repeatedly or before it was ever enabled. */
  lemma EPollStep(e: EPoll, r: Registry, owned: set<Channel>, call: Call)
    requires RegistryInv(r, owned) && EPollInv(e, r, owned) && Legal(r, owned, call)
    ensures EPollInv(EPollApply(e, call), Note(r, owned, call), owned)
  {
    var c := call.channel;
    var e', r' := EPollApply(e, call), Note(r, owned, call);
    EPollOwn(e, r, owned, call);
    OthersMarked(e, e', r, owned, call);
  }

  lemma OthersMarked(e: EPoll, e': EPoll, r: Registry, owned: set<Channel>, call: Call)
    requires RegistryInv(r, owned) && EPollInv(e, r, owned) && Legal(r, owned, call)
    requires OnlyThis(e, e', owned, call.channel) && e'.channels == Note(r, owned, call).channels
    ensures forall x <- owned :: x != call.channel ==> Mark(e', Note(r, owned, call), x)
    ensures forall fd <- e'.kernel :: fd != call.channel.fd ==>
              fd in e'.channels && e'.channels[fd] in owned && e'.channels[fd].fd == fd
  {
    var c, r' := call.channel, Note(r, owned, call);
    forall x | x in owned && x != c ensures Mark(e', r', x) {
      assert Mark(e, r, x);
      OthersStay(r, owned, call, x);
      assert Registered(r.channels, x) ==> x.fd != c.fd;
    }
  }

  ghost predicate OnlyThis(e: EPoll, e': EPoll, owned: set<Channel>, c: Channel) {
    && (forall x <- owned :: x != c && x in e.index ==> x in e'.index && e'.index[x] == e.index[x])
    && (forall fd <- e'.kernel :: fd != c.fd ==> fd in e.kernel && e'.kernel[fd] == e.kernel[fd])
    && (forall fd <- e.kernel :: fd != c.fd ==> fd in e'.kernel)
  }

  /** The same, for the channel of the call itself. */
  lemma EPollOwn(e: EPoll, r: Registry, owned: set<Channel>, call: Call)
    requires RegistryInv(r, owned) && EPollInv(e, r, owned) && Legal(r, owned, call)
    ensures var e', r' := EPollApply(e, call), Note(r, owned, call);
            && !e'.aborted && !e'.refused && Mark(e', r', call.channel)
            && e'.channels == r'.channels && e'.events == r'.events
            && (call.channel.fd in e'.kernel ==> Registered(r'.channels, call.channel))
            && OnlyThis(e, e', owned, call.channel)
  {
    var c := call.channel;
    assert Entry(r, c) && Mark(e, r, c);
    assert c.fd in e.kernel ==> Registered(r.channels, c);
  }

  // ---------------------------------------------------------------- whole runs

  ghost predicate IsRun(r: Registry, owned: set<Channel>, calls: seq<Call>)
    requires RegistryInv(r, owned)
    decreases calls
  {
    calls == []
    || (Legal(r, owned, calls[0])
        && (NoteKeepsInv(r, owned, calls[0]); IsRun(Note(r, owned, calls[0]), owned, calls[1..])))
  }

  ghost function Noted(r: Registry, owned: set<Channel>, calls: seq<Call>): (r': Registry)
    requires RegistryInv(r, owned) && IsRun(r, owned, calls)
    ensures RegistryInv(r', owned)
    decreases calls
  {
    if calls == [] then r
    else NoteKeepsInv(r, owned, calls[0]); Noted(Note(r, owned, calls[0]), owned, calls[1..])
  }

  /** Every call of the run is also one that PollPoller takes. */
  ghost predicate IsPollRun(r: Registry, owned: set<Channel>, calls: seq<Call>)
    requires RegistryInv(r, owned) && IsRun(r, owned, calls)
    decreases calls
  {
    calls == []
    || (PollLegal(r, owned, calls[0])
        && (NoteKeepsInv(r, owned, calls[0]); IsPollRun(Note(r, owned, calls[0]), owned, calls[1..])))
  }

  function PollAfter(p: Poll, calls: seq<Call>): Poll
    decreases calls
  {
    if calls == [] then p else PollAfter(PollApply(p, calls[0]), calls[1..])
  }

  function EPollAfter(e: EPoll, calls: seq<Call>): EPoll
    decreases calls
  {
    if calls == [] then e else EPollAfter(EPollApply(e, calls[0]), calls[1..])
  }

  function NewPoll(owned: set<Channel>): Poll {
    Poll([], map[], map c | c in owned :: -1, map c | c in owned :: NONE_EVENT, false)
  }

  function NewEPoll(owned: set<Channel>): EPoll {
    EPoll(map[], map c | c in owned :: K_NEW, map c | c in owned :: NONE_EVENT, map[], false, false)
  }

  lemma NewInv(owned: set<Channel>)
    ensures PollInv(NewPoll(owned), NewRegistry(owned), owned)
    ensures EPollInv(NewEPoll(owned), NewRegistry(owned), owned)
  {
  }

  lemma {:induction false} AbortedStays(p: Poll, calls: seq<Call>)
    requires p.aborted
    ensures PollAfter(p, calls).aborted
    decreases calls
  {
    if calls != [] {
      AbortedStays(PollApply(p, calls[0]), calls[1..]);
    }
  }

  lemma {:induction false} PollRuns(p: Poll, r: Registry, owned: set<Channel>, calls: seq<Call>)
    requires RegistryInv(r, owned) && IsRun(r, owned, calls) && PollInv(p, r, owned)
    ensures PollAfter(p, calls).aborted <==> !IsPollRun(r, owned, calls)
    ensures IsPollRun(r, owned, calls) ==> PollInv(PollAfter(p, calls), Noted(r, owned, calls), owned)
    decreases calls
  {
    if calls != [] {
      NoteKeepsInv(r, owned, calls[0]);
      PollStep(p, r, owned, calls[0]);
      if PollLegal(r, owned, calls[0]) {
        PollRuns(PollApply(p, calls[0]), Note(r, owned, calls[0]), owned, calls[1..]);
      } else {
        AbortedStays(PollApply(p, calls[0]), calls[1..]);
      }
    }
  }

  lemma {:induction false} EPollRuns(e: EPoll, r: Registry, owned: set<Channel>, calls: seq<Call>)
    requires RegistryInv(r, owned) && IsRun(r, owned, calls) && EPollInv(e, r, owned)
    ensures EPollInv(EPollAfter(e, calls), Noted(r, owned, calls), owned)
    decreases calls
  {
    if calls != [] {
      NoteKeepsInv(r, owned, calls[0]);
      EPollStep(e, r, owned, calls[0]);
      EPollRuns(EPollApply(e, calls[0]), Note(r, owned, calls[0]), owned, calls[1..]);
    }
  }

  /** epoll_ctl discipline: in every run of legal calls no assertion of EPollPoller fails and
      the kernel refuses nothing; it watches a descriptor exactly when its channel is registered
      and was disabled an even number of times in a row, and then with the current mask. */
  lemma EPollDiscipline(owned: set<Channel>, calls: seq<Call>)
    requires IsRun(NewRegistry(owned), owned, calls)
    ensures var r, e := Noted(NewRegistry(owned), owned, calls), EPollAfter(NewEPoll(owned), calls);
            && !e.aborted && !e.refused && e.channels == r.channels
            && (forall fd <- r.channels :: r.channels[fd] in r.quiet && r.channels[fd] in r.events)
            && (forall fd :: fd in e.kernel <==> fd in r.channels && r.quiet[r.channels[fd]] % 2 == 0)
            && (forall fd <- e.kernel :: e.kernel[fd] == Watch(r.channels[fd], r.events[r.channels[fd]]))
  {
    NewInv(owned);
    EPollRuns(NewEPoll(owned), NewRegistry(owned), owned, calls);
    var r, e := Noted(NewRegistry(owned), owned, calls), EPollAfter(NewEPoll(owned), calls);
    forall fd | fd in r.channels
      ensures Entry(r, r.channels[fd]) && Mark(e, r, r.channels[fd])
    {
    }
  }

  /** In every run, whatever epoll_wait can report is a channel in channels_. */
  lemma WatchedRegistered(owned: set<Channel>, calls: seq<Call>)
    requires IsRun(NewRegistry(owned), owned, calls)
    ensures var e := EPollAfter(NewEPoll(owned), calls);
            forall fd <- e.kernel :: Registered(e.channels, e.kernel[fd].channel)
  {
    EPollDiscipline(owned, calls);
    var r, e := Noted(NewRegistry(owned), owned, calls), EPollAfter(NewEPoll(owned), calls);
    forall fd | fd in e.kernel ensures Registered(e.channels, e.kernel[fd].channel) {
      assert e.kernel[fd] == Watch(r.channels[fd], r.events[r.channels[fd]]) && r.channels[fd].fd == fd;
    }
  }

  /** In every run that PollPoller takes, slots and channels correspond one to one through the
      channels' index; and the descriptors with a non-empty mask, with their masks, are the same in
      the array, in the kernel's set, and in the callers' view. */
  lemma SameInterest(owned: set<Channel>, calls: seq<Call>)
    requires IsRun(NewRegistry(owned), owned, calls) && IsPollRun(NewRegistry(owned), owned, calls)
    ensures var r := Noted(NewRegistry(owned), owned, calls);
            var p, e := PollAfter(NewPoll(owned), calls), EPollAfter(NewEPoll(owned), calls);
            && !p.aborted && p.channels == r.channels && SlotsMatch(p.pollfds, p.channels, p.index)
            && (forall fd <- r.channels :: r.channels[fd] in r.events)
            && (forall fd: nat, mask | mask != NONE_EVENT ::
                  (PollFd(fd, mask) in p.pollfds <==> fd in r.channels && r.events[r.channels[fd]] == mask)
                  && (PollFd(fd, mask) in p.pollfds <==> fd in e.kernel && e.kernel[fd].events == mask))
  {
    NewInv(owned);
    PollRuns(NewPoll(owned), NewRegistry(owned), owned, calls);
    EPollRuns(NewEPoll(owned), NewRegistry(owned), owned, calls);
    var r := Noted(NewRegistry(owned), owned, calls);
    var p, e := PollAfter(NewPoll(owned), calls), EPollAfter(NewEPoll(owned), calls);
    forall fd | fd in r.channels ensures r.channels[fd] in r.events {
      assert Slot(p, r, r.channels[fd]);
    }
    forall fd: nat, mask | mask != NONE_EVENT
      ensures PollFd(fd, mask) in p.pollfds <==> fd in r.channels && r.events[r.channels[fd]] == mask
      ensures PollFd(fd, mask) in p.pollfds <==> fd in e.kernel && e.kernel[fd].events == mask
    {
      SameSlot(p, e, r, owned, fd, mask);
    }
  }

  lemma SameSlot(p: Poll, e: EPoll, r: Registry, owned: set<Channel>, fd: nat, mask: Interest)
    requires RegistryInv(r, owned) && PollInv(p, r, owned) && EPollInv(e, r, owned) && mask != NONE_EVENT
    requires forall x <- r.channels :: r.channels[x] in r.events
    ensures PollFd(fd, mask) in p.pollfds <==> fd in r.channels && r.events[r.channels[fd]] == mask
    ensures PollFd(fd, mask) in p.pollfds <==> fd in e.kernel && e.kernel[fd].events == mask
  {
    if fd in r.channels {
      var c := r.channels[fd];
      assert Slot(p, r, c) && Entry(r, c) && Mark(e, r, c);
      assert p.pollfds[p.index[c]] in p.pollfds && FdOf(p.pollfds[p.index[c]]) == fd;
    }
    if PollFd(fd, mask) in p.pollfds {
      var i :| 0 <= i < |p.pollfds| && p.pollfds[i] == PollFd(fd, mask);
      assert FdOf(p.pollfds[i]) == fd;
    }
  }

  /** Which descriptors poll(2) is given although they ask for nothing: those whose channel was
      updated once. (poll reports errors and hang-ups on them all the same.) */
  lemma PolledForNothing(p: Poll, r: Registry, owned: set<Channel>, fd: nat)
    requires RegistryInv(r, owned) && PollInv(p, r, owned)
    ensures PollFd(fd, NONE_EVENT) in p.pollfds
            <==> fd in r.channels && r.channels[fd] in r.events && r.channels[fd] in r.updates
                 && r.events[r.channels[fd]] == NONE_EVENT && r.updates[r.channels[fd]] == 1
  {
    if fd in r.channels {
      var c := r.channels[fd];
      assert Slot(p, r, c) && Entry(r, c);
      assert p.pollfds[p.index[c]] in p.pollfds && FdOf(p.pollfds[p.index[c]]) == fd;
    }
    if PollFd(fd, NONE_EVENT) in p.pollfds {
      var i :| 0 <= i < |p.pollfds| && p.pollfds[i] == PollFd(fd, NONE_EVENT);
      assert FdOf(p.pollfds[i]) == fd;
    }
  }

  // ---------------------------------------------------------------- the objects

  const NO_REVENTS := Revents(false, false, false, false, false, false, false)

  function CountFrom(revents: seq<Revents>, i: nat): nat
    requires i <= |revents|
    decreases |revents| - i
  {
    if i == |revents| then 0 else (if revents[i] != NO_REVENTS then 1 else 0) + CountFrom(revents, i + 1)
  }

  /** The channels of the first `n` slots that poll(2) marked, in slot order. */
  function Ready(pollfds: seq<PollFd>, channels: map<nat, Channel>, revents: seq<Revents>, n: nat): seq<Channel>
    requires n <= |pollfds| == |revents|
  {
    if n == 0 then []
    else
      Ready(pollfds, channels, revents, n - 1)
      + if revents[n - 1] != NO_REVENTS && FdOf(pollfds[n - 1]) in channels
        then [channels[FdOf(pollfds[n - 1])]] else []
  }

  lemma {:induction false} NoneLeft(pollfds: seq<PollFd>, channels: map<nat, Channel>, revents: seq<Revents>, i: nat)
    requires i <= |pollfds| == |revents| && CountFrom(revents, i) == 0
    ensures Ready(pollfds, channels, revents, |pollfds|) == Ready(pollfds, channels, revents, i)
    decreases |pollfds| - i
  {
    if i < |pollfds| {
      NoneLeft(pollfds, channels, revents, i + 1);
    }
  }

  /** How often a list names a channel. */
  function Times(s: seq<Channel>, c: Channel): nat {
    if s == [] then 0 else Times(s[..|s| - 1], c) + if s[|s| - 1] == c then 1 else 0
  }

  lemma TimesSnoc(s: seq<Channel>, x: Channel, c: Channel)
    ensures Times(s + [x], c) == Times(s, c) + if x == c then 1 else 0
  {
    assert (s + [x])[..|s|] == s;
  }

  lemma {:induction false} ReadyCount(pollfds: seq<PollFd>, channels: map<nat, Channel>, revents: seq<Revents>,
                                      n: nat, c: Channel, k: nat)
    requires n <= |pollfds| == |revents| && k < |pollfds|
    requires forall i :: 0 <= i < |pollfds| ==> FdOf(pollfds[i]) in channels
                                                && (channels[FdOf(pollfds[i])] == c <==> i == k)
    ensures Times(Ready(pollfds, channels, revents, n), c) == if k < n && revents[k] != NO_REVENTS then 1 else 0
  {
    if n > 0 {
      ReadyCount(pollfds, channels, revents, n - 1, c, k);
      var before, here := Ready(pollfds, channels, revents, n - 1), channels[FdOf(pollfds[n - 1])];
      if revents[n - 1] != NO_REVENTS {
        assert Ready(pollfds, channels, revents, n) == before + [here];
        TimesSnoc(before, here, c);
      } else {
        assert Ready(pollfds, channels, revents, n) == before + [] == before;
      }
    }
  }

  /** A channel is among the ready ones exactly when its slot was marked, and then once. */
  lemma ReadyExactly(pollfds: seq<PollFd>, channels: map<nat, Channel>, index: map<Channel, int>,
                     revents: seq<Revents>, c: Channel)
    requires |pollfds| == |revents| && SlotsMatch(pollfds, channels, index) && Registered(channels, c)
    ensures Times(Ready(pollfds, channels, revents, |pollfds|), c)
            == if revents[index[c]] != NO_REVENTS then 1 else 0
  {
    var k := index[c];
    assert FdOf(pollfds[k]) == c.fd;
    forall i | 0 <= i < |pollfds|
      ensures FdOf(pollfds[i]) in channels && (channels[FdOf(pollfds[i])] == c <==> i == k)
    {
      assert index[channels[FdOf(pollfds[i])]] == i;
    }
    ReadyCount(pollfds, channels, revents, |pollfds|, c, k);
  }

  lemma {:induction false} ReadyOwned(pollfds: seq<PollFd>, channels: map<nat, Channel>, revents: seq<Revents>, n: nat,
                                      owned: set<Channel>)
    requires n <= |pollfds| == |revents| && forall fd <- channels :: channels[fd] in owned
    ensures forall c <- Ready(pollfds, channels, revents, n) :: c in owned
  {
    if n > 0 {
      ReadyOwned(pollfds, channels, revents, n - 1, owned);
    }
  }

  ghost function IndexOf(owned: set<Channel>): map<Channel, int>
    reads owned
  {
    map c | c in owned :: c.index
  }

  ghost function EventsOf(owned: set<Channel>): map<Channel, Interest>
    reads owned
  {
    map c | c in owned :: c.events
  }

  /** The events each channel was told of. */
  function Told(active: seq<Channel>): (r: seq<Revents>)
    reads active
    ensures |r| == |active|
  {
    seq(|active|, i requires 0 <= i < |active| reads active => active[i].revents)
  }

  function DispatchAll(told: seq<Revents>): seq<seq<Callback>> {
    seq(|told|, i requires 0 <= i < |told| => Dispatch(told[i]))
  }

  /** EventLoop::loop's walk over the active channels. */
  method HandleAll(active: seq<Channel>) returns (calls: seq<seq<Callback>>)
    modifies (set c <- active)`eventHandling
    ensures calls == DispatchAll(old(Told(active)))
  {
    ghost var told := Told(active);
    calls := [];
    for i := 0 to |active|
      invariant calls == DispatchAll(told[..i])
    {
      var called := active[i].HandleEventWithGuard();
      assert told[..i + 1] == told[..i] + [told[i]];
      calls := calls + [called];
    }
    assert told[..|active|] == told;
  }

  class PollPoller {
    var pollfds: seq<PollFd>
    var channels: map<nat, Channel>
    ghost const owned: set<Channel>   // the channels of this loop

    ghost function Value(): Poll
      reads this, owned
    {
      Poll(pollfds, channels, IndexOf(owned), EventsOf(owned), false)
    }

    constructor (ghost owned: set<Channel>)
      requires forall c <- owned :: c.index == -1 && c.events == NONE_EVENT
      ensures this.owned == owned && Value() == NewPoll(owned)
    {
      this.owned := owned;
      pollfds, channels := [], map[];
    }

    /** The precondition is that the source's assertions hold; `PollStep` says when they do. */
    method UpdateChannel(channel: Channel)
      requires channel in owned && !PollUpdate(Value(), channel).aborted
      modifies this`pollfds, this`channels, channel`index
      ensures Value() == PollUpdate(old(Value()), channel)
    {
      if channel.index < 0 {
        assert channel.fd !in channels;
        pollfds := pollfds + [PollFd(channel.fd, channel.events)];
        channel.index := |pollfds| - 1;
        channels := channels[channel.fd := channel];
      } else {
        assert channel.fd in channels && channels[channel.fd] == channel;
        var idx := channel.index;
        assert idx < |pollfds| && (pollfds[idx].fd == channel.fd || pollfds[idx].fd == -1 - channel.fd);
        pollfds := pollfds[idx := PollFd(channel.fd, channel.events)];
        if channel.events == NONE_EVENT {
          pollfds := pollfds[idx := PollFd(-1 - channel.fd, channel.events)];
        }
      }
    }

    method RemoveChannel(channel: Channel)
      requires channel in owned && !PollRemove(Value(), channel).aborted
      requires forall fd <- channels :: channels[fd] in owned
      modifies this`pollfds, this`channels, owned`index
      ensures Value() == PollRemove(old(Value()), channel)
    {
      var idx := channel.index;
      assert channel.fd in channels && channels[channel.fd] == channel;
      assert 0 <= idx < |pollfds| && pollfds[idx] == PollFd(-1 - channel.fd, channel.events);
      channels := channels - {channel.fd};
      if idx == |pollfds| - 1 {
        pollfds := pollfds[..|pollfds| - 1];
      } else {
        SwapOut(idx);
      }
    }

    /** The last slot takes the place of this one. */
    method SwapOut(idx: nat)
      requires idx < |pollfds| - 1 && FdOf(pollfds[|pollfds| - 1]) in channels
      requires channels[FdOf(pollfds[|pollfds| - 1])] in owned
      modifies this`pollfds, owned`index
      ensures pollfds == Closed(old(pollfds), idx) && EventsOf(owned) == old(EventsOf(owned))
      ensures IndexOf(owned) == old(IndexOf(owned))[channels[FdOf(old(pollfds)[|old(pollfds)| - 1])] := idx]
    {
      var channelAtEnd := pollfds[|pollfds| - 1].fd;
      pollfds := pollfds[idx := pollfds[|pollfds| - 1]][|pollfds| - 1 := pollfds[idx]];
      if channelAtEnd < 0 {
        channelAtEnd := -channelAtEnd - 1;
      }
      channels[channelAtEnd].index := idx;
      pollfds := pollfds[..|pollfds| - 1];
    }

    /** poll(2) marks slots, never a parked one, and returns how many; the walk stops when it has
        seen that many. It does not tell the channels what it saw. */
    method FillActiveChannels(revents: seq<Revents>, numEvents: nat) returns (active: seq<Channel>)
      requires SlotsMatch(pollfds, channels, IndexOf(owned))
      requires |revents| == |pollfds| && numEvents == CountFrom(revents, 0)
      requires forall i :: 0 <= i < |pollfds| && pollfds[i].fd < 0 ==> revents[i] == NO_REVENTS
      ensures active == Ready(pollfds, channels, revents, |pollfds|)
    {
      active := [];
      var i, left := 0, numEvents;
      while i < |pollfds| && left > 0
        invariant i <= |pollfds| && left == CountFrom(revents, i)
        invariant active == Ready(pollfds, channels, revents, i)
      {
        if revents[i] != NO_REVENTS {
          left := left - 1;
          assert FdOf(pollfds[i]) in channels && channels[pollfds[i].fd].fd == pollfds[i].fd;
          active := active + [channels[pollfds[i].fd]];
        }
        i := i + 1;
      }
      NoneLeft(pollfds, channels, revents, i);
    }
  }

  /** What epoll_wait can answer: watched channels, each once. */
  ghost predicate MayReport(kernel: map<nat, Watch>, events: seq<(Channel, Revents)>) {
    && (forall i, j :: 0 <= i < j < |events| ==> events[i].0 != events[j].0)
    && (forall i :: 0 <= i < |events| ==>
          events[i].0.fd in kernel && kernel[events[i].0.fd].channel == events[i].0)
  }

  class EPollPoller {
    var channels: map<nat, Channel>
    var kernel: map<nat, Watch>
    ghost const owned: set<Channel>
    ghost var refused: bool

    ghost function Value(): EPoll
      reads this, owned
    {
      EPoll(channels, IndexOf(owned), EventsOf(owned), kernel, refused, false)
    }

    constructor (ghost owned: set<Channel>)
      requires forall c <- owned :: c.index == K_NEW && c.events == NONE_EVENT
      ensures this.owned == owned && Value() == NewEPoll(owned)
    {
      this.owned := owned;
      channels, kernel, refused := map[], map[], false;
    }

    /** epoll_ctl. */
    method Control(operation: CtlOp, channel: Channel)
      requires channel in owned
      modifies this`kernel, this`refused
      ensures Value() == Ctl(old(Value()), operation, channel)
    {
      if (operation == CtlAdd) == (channel.fd in kernel) {
        refused := true;
      } else if operation == CtlDel {
        kernel := kernel - {channel.fd};
      } else {
        kernel := kernel[channel.fd := Watch(channel, channel.events)];
      }
    }

    method SetIndex(channel: Channel, index: int)
      requires channel in owned
      modifies channel`index
      ensures channel.index == index
      ensures Value() == old(Value()).(index := old(IndexOf(owned))[channel := index])
    {
      channel.index := index;
      assert IndexOf(owned) == old(IndexOf(owned))[channel := index];
      assert EventsOf(owned) == old(EventsOf(owned));
    }

    method UpdateChannel(channel: Channel)
      requires channel in owned && !EPollUpdate(Value(), channel).aborted
      modifies this`channels, this`kernel, this`refused, channel`index
      ensures Value() == EPollUpdate(old(Value()), channel)
    {
      var index := channel.index;
      if index == K_NEW || index == K_DELETED {
        if index == K_NEW {
          channels := channels[channel.fd := channel];
        }
        SetIndex(channel, K_ADDED);
        Control(CtlAdd, channel);
      } else {
        assert channel.fd in channels && channels[channel.fd] == channel && index == K_ADDED;
        if channel.events == NONE_EVENT {
          Control(CtlDel, channel);
          SetIndex(channel, K_DELETED);
        } else {
          Control(CtlMod, channel);
        }
      }
    }

    method RemoveChannel(channel: Channel)
      requires channel in owned && !EPollRemove(Value(), channel).aborted
      modifies this`channels, this`kernel, this`refused, channel`index
      ensures Value() == EPollRemove(old(Value()), channel)
    {
      var index := channel.index;
      channels := channels - {channel.fd};
      if index == K_ADDED {
        Control(CtlDel, channel);
      }
      SetIndex(channel, K_NEW);
    }

    /** epoll_wait names each watched descriptor at most once; its channel learns the events.
        That the channel is in the map, as the source asserts, follows from the second
        precondition (WatchedRegistered). */
    method FillActiveChannels(events: seq<(Channel, Revents)>) returns (active: seq<Channel>)
      requires MayReport(kernel, events)
      requires forall fd <- kernel :: Registered(channels, kernel[fd].channel)
      modifies set ev <- events :: ev.0
      ensures active == seq(|events|, i requires 0 <= i < |events| => events[i].0)
      ensures forall i :: 0 <= i < |events| ==> active[i].revents == events[i].1
    {
      active := [];
      for i := 0 to |events|
        invariant active == seq(i, j requires 0 <= j < i => events[j].0)
        invariant forall j :: 0 <= j < i ==> active[j].revents == events[j].1
      {
        var channel := events[i].0;
        assert channel.fd in channels && channels[channel.fd] == channel by {
          assert kernel[channel.fd].channel == channel;
        }
        channel.revents := events[i].1;
        active := active + [channel];
      }
    }
  }

  /** With PollPoller a round never calls anything: the revents of a channel stay as its
      constructor left them. */
  method PollRound(poller: PollPoller, revents: seq<Revents>, numEvents: nat) returns (calls: seq<seq<Callback>>)
    requires SlotsMatch(poller.pollfds, poller.channels, IndexOf(poller.owned))
    requires |revents| == |poller.pollfds| && numEvents == CountFrom(revents, 0)
    requires forall i :: 0 <= i < |poller.pollfds| && poller.pollfds[i].fd < 0 ==> revents[i] == NO_REVENTS
    requires forall c <- poller.owned :: c.revents == NO_REVENTS
    modifies poller.owned
    ensures forall called <- calls :: called == []
    ensures forall c <- poller.owned :: c.revents == NO_REVENTS
  {
    var active := poller.FillActiveChannels(revents, numEvents);
    ReadyOwned(poller.pollfds, poller.channels, revents, |poller.pollfds|, poller.owned);
    calls := HandleAll(active);
  }

  /** With EPollPoller it calls, channel by channel, what the reported events call for. */
  method EPollRound(poller: EPollPoller, events: seq<(Channel, Revents)>) returns (calls: seq<seq<Callback>>)
    requires MayReport(poller.kernel, events)
    requires forall fd <- poller.kernel :: Registered(poller.channels, poller.kernel[fd].channel)
    modifies set ev <- events :: ev.0
    ensures calls == DispatchAll(seq(|events|, i requires 0 <= i < |events| => events[i].1))
  {
    var active := poller.FillActiveChannels(events);
    assert Told(active) == seq(|events|, i requires 0 <= i < |events| => events[i].1);
    calls := HandleAll(active);
  }
}
