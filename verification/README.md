# A verified model of the networker reactor

networker is a reactor in the style of muduo: an `EventLoop` per thread polls file
descriptors, dispatches their events through `Channel`s, and runs functors that other
threads post. On it stand TCP servers and clients, timers, and an asynchronous logger. This
project models the parts with real state and proves what they promise.

How the files are laid out, one module each:

| file | what it models |
|---|---|
| `TcpServer.dfy` | the whole server: one base loop, any number of I/O loops with their queues, every connection, a kernel that may answer anything; lifecycle and byte stream over all runs |
| `Traffic.dfy` | what goes through one connection in a run: an account of bytes, functors and states that the connection balances with |
| `Shutdown.dfy` | graceful shutdown over the runs of that server, for callers in any thread |
| `Teardown.dfy` | startRead after a close, and the server's destructor |
| `TcpConnection.dfy`, `Channel.dfy` | one connection's handlers; dispatch order |
| `EventLoop.dfy` | functor queue and eventfd, with push and wake-up as separate steps of any number of threads |
| `TimerQueue.dfy` | two ordered sets, explicit heap with address reuse, cancellation from callbacks |
| `TimerLife.dfy` | how long a timer lives in a run |
| `AsyncLogging.dfy` | double buffering: ownership and conservation |
| `Pollers.dfy` | PollPoller and EPollPoller against one view of what callers asked for |
| `Connector.dfy` | the client's connector in the phases of its loop |
| `Ledger.dfy` | an account of the connector's attempts, kept from outside, that it agrees with |
| `Buffer.dfy` | the byte queue refining a sequence |
| `Date.dfy`, `TimeZone.dfy` | calendar and zone arithmetic |
| `LogStream.dfy` | integers printed in place |
| `Options.dfy` | the optional value that the others share |

Each module has the same build. A value (`Conn`, `Server`, `Loop`, `Queue`, `Log`, `Poll`,
`World`) holds the state and, where a promise speaks of the past, its history. Functions say
what each operation does to it; a C++ assertion that would fail sets `aborted`, so that "no
assertion fails" is a theorem. `Enabled` and `Apply` make the operations into steps, a run is
any sequence of enabled steps, and the main lemmas hold of every run. A class with the
source's fields follows, and its methods are proved to act on the fields as the functions do
on the value. The methods of `EventLoop` span several steps, so each is proved to be a run of
the model from its old value to its new one; `TcpServer` holds, with its own fields, the
queues and connections that its methods reach.

## Where the code does less than one would expect

Each of these is kept as it is in the code and has a lemma with the exact condition.

- `TimerQueue::insert` compares `when > first`, so the timerfd can be set too late after an
  insertion (`AddArmsInTime`, `SecondTimerLate`). A timer that does not lie after the epoch
  can leave it unset (`ForgetsExactly`, `EarlyTimerForgets`).
- `TimeZone::fromUtcTime` counts 50 seconds to a minute (`FromUtcLosesMinutes`).
- `TimeZone::fromLocalTime` recognizes only set-backs of one hour out of summer time
  (`LocalRoundTrip`, `MoscowComesBackLate`).
- `PollPoller` never stores revents (`PollRound`), keeps a removed channel's index, and does
  not park a slot on a channel's first update (`PollStep`, `PolledForNothing`). EPollPoller
  has none of this.
- `loop()` clears an earlier `quit()` (`QuitSurvives`), and queueInLoop from the loop's own
  thread before `loop()` may leave a functor unnoticed, as `callingPendingFunctors_` is not
  initialised (`EntryCondition`).
- `connectDestroyed` does not handle a disconnecting connection, which ~TcpServer may find
  (`DestructorTripsExactly`), and `startRead` after close re-registers its channel
  (`StartReadBreaksExactly`).
- `shutdown()` from another thread can shut the writing side twice, and can shut it with
  accepted bytes still waiting, when the connection was closed before the functor ran
  (`ShutdownExactly`, `ShutTwice`, `ShutWithBytesWaiting`); a `send()` that another thread
  queued before may accept bytes that are never written (`LateBytesLost`).
- `send()` from another thread cuts its payload at the first NUL byte (`CutAtNul`).
- `AsyncLogging` collects nothing more once it is stopped (`StopLosesTheRest`).
- `Connector` relies on its queued resetChannel running before the retry timer fires
  (`AbortsExactly`, `LateLoopAborts`).

## Model

| member | source | states |
|---|---|---|
| `TcpServers.Lifecycle` | networker/net/TcpServer.cpp:64-114 | In every run of any number of I/O loops no assertion fails; each connection goes through up, down, erased, destroyed in this order, each at most once; it is in the map exactly until erased, wants events exactly while up, and has a channel in its loop exactly from up to destroyed |
| `TcpServers.StepKeepsInv` | networker/net/TcpServer.cpp:64-114 | Each of the steps (accept, poll, callback, functor, any user call) keeps the system invariant, under any kernel answer and any interleaving of loops |
| `TcpServers.DestroyedLast` | networker/net/TcpServer.cpp:105-114 | connectDestroyed is the last functor ever queued for a connection on any loop, so those bound to a bare pointer run before it |
| `TcpServers.ByteStream` | networker/net/TcpConnection.cpp:100-147 | In every run the bytes on the wire are a prefix, in order, of those accepted; without a fault, which OutboundStream characterises, wire followed by output buffer is all of them; and write interest is on exactly while something waits |
| `Traffics.OutboundStream` | networker/net/TcpConnection.cpp:100-147 | In every run the data of every sendInLoop that ran before the close are, in order, what the kernel took, then what waits, then what was dropped; dropped is exactly what a direct write offered to a peer that was gone; a fault is noted if and only if a write(2) really made, direct or in handleWrite, was answered so; the wire is as long as what the kernel took |
| `Traffics.InboundStream` | networker/net/TcpConnection.cpp:258-280 | In every run what the user retrieved followed by the input buffer is everything readv(2) delivered, in order |
| `Traffics.FunctorsInOrder` | networker/net/TcpConnection.cpp:68-202 | In every run the functors of a connection that ran on its loop, followed by those that wait there, are in order exactly those its calls and events had to queue: foreign sends as they were cut, foreign shutdowns, forced closes, a notice for each completed write and each crossing of the high-water mark, the destruction |
| `Traffics.StatesExactly` | networker/net/TcpConnection.cpp:149-202 | In every run a connection is up if and only if connectEstablished ran, down if and only if handleClose did (hang-up, end of file, forced close), connected exactly in between and before any effective shutdown or forceClose; its callbacks and high-water mark stay as they were set; and after a forceClose it is down or the functor that closes it is queued |
| `Traffics.StepDid` | networker/net/TcpServer.cpp:64-114 | Each step of the server does to a connection, and to what is queued for it, the one thing that the account of a run notes, and nothing else |
| `TcpServers.StepGrows` | networker/net/TcpConnection.cpp:100-147 | No step takes back a byte from the wire, an accepted byte, a shutdown or an event of the history |
| `Shutdowns.ShutdownExactly` | networker/net/TcpConnection.cpp:149-164 | In every run, with callers in any threads, the writing side is shut at most twice; twice if and only if a queued shutdownInLoop runs after the drain that emptied the buffer has shut it; and, without a fault, it is shut with accepted bytes missing from the wire if and only if a queued shutdownInLoop runs on a closed connection that has bytes waiting |
| `Shutdowns.GracefulShutdown` | networker/net/TcpConnection.cpp:149-164 | If shutdown() is called in the connection's own loop, with senders in any thread: at most one shut, only with everything accepted on the wire (no fault), and issued once a shut down connection has nothing left to write |
| `Shutdowns.ShutTakesEffect` | networker/net/TcpConnection.cpp:149-164 | Whoever calls: a shut down connection that is open, has nothing to write and no functor pending has been shut; and no step writes a byte after a shut |
| `Shutdowns.LateBytesLost` | networker/net/TcpConnection.cpp:68-82 | After a shut, bytes are still accepted if and only if a send() queued by another thread before it runs while the connection is open; they never reach the wire |
| `Shutdowns.ShutTwice` | networker/net/TcpConnection.cpp:149-164 | A run of the server that shuts one connection twice |
| `Shutdowns.ShutWithBytesWaiting` | networker/net/TcpConnection.cpp:311-326 | A run of the server that shuts a connection with every accepted byte still waiting: the close had stopped the writing |
| `Teardowns.StartReadBreaksExactly` | networker/net/TcpConnection.cpp:217-230 | startRead() running at any time after a connection came up: if an assertion ever fails, or a destroyed connection has its channel registered, one ran after a close; and once the loops have emptied their queues the converse holds too |
| `Teardowns.DestructorTripsExactly` | networker/net/TcpServer.cpp:22-34 | In every state the server reaches, the connectDestroyed that ~TcpServer runs on a connection of its map fails the assertion of remove() if and only if that connection is shutting down; otherwise it has gone down once and is destroyed |
| `TcpServers.TcpServer.DoNewConnection` | networker/net/TcpServer.cpp:64-91 | Acts as the step the lemmas speak of: a fresh number enters the map, and the connection is established at once or queued on its loop |
| `TcpServers.TcpServer.DoRemoveConnection` | networker/net/TcpServer.cpp:94-103 | Erases at once on the base loop, by a functor posted to it otherwise |
| `TcpServers.TcpServer.DoRemoveConnectionInLoop` | networker/net/TcpServer.cpp:105-114 | Takes the connection out of the map and queues connectDestroyed on its loop, also from the loop itself |
| `TcpConnections.SendInLoopKeepsStream` | networker/net/TcpConnection.cpp:100-147 | sendInLoop appends exactly its data to what was accepted; wire ++ output grows by exactly the data, unless the direct write found the peer gone; only then is a fault noted, and wire ++ output stays in step |
| `TcpConnections.SendInLoopMoves` | networker/net/TcpConnection.cpp:100-147 | The same for any connection, and the wire grows by exactly what the kernel took; after a refusal nothing is left waiting |
| `TcpConnections.HandleWriteKeepsStream` | networker/net/TcpConnection.cpp:282-309 | handleWrite moves from the output buffer to the wire exactly the bytes the kernel took, losing and repeating none; a fault is noted only if the kernel said so |
| `TcpConnections.NoticesMeanWhatTheySay` | networker/net/TcpConnection.cpp:116-145 | Write-complete is queued if and only if the direct write took all the data, and then every accepted byte is on the wire; high-water if and only if the waiting bytes reach the mark from below, with their number |
| `TcpConnections.DrainNotice` | networker/net/TcpConnection.cpp:282-301 | handleWrite queues it if and only if the kernel took all that waited, and then every accepted byte is on the wire |
| `TcpConnections.CutAtNul` | networker/net/TcpConnection.cpp:68-82 | What a send() from another thread carries over is the longest prefix without a NUL byte, so all of it if and only if it holds none |
| `TcpConnections.DispatchTripsCloseAssertion` | networker/net/Channel.cpp:65-98 | One wake-up runs handleClose twice, failing its assertion, if and only if HUP comes without IN, with PRI or RDHUP, and the read then finds end of file |
| `TcpConnections.TcpConnection.DoSendInLoop` | networker/net/TcpConnection.cpp:100-147 | Acts as SendInLoop on the fields, including the direct write, the fault and what is queued |
| `TcpConnections.TcpConnection.DoHandleWrite` | networker/net/TcpConnection.cpp:282-309 | Acts as HandleWrite on the fields |
| `TcpConnections.TcpConnection.DoShutdown` | networker/net/TcpConnection.cpp:149-156 | Acts as Shutdown: state first, then in the loop or queued |
| `TcpConnections.TcpConnection.DoForceCloseInLoop` | networker/net/TcpConnection.cpp:184-190 | Closes a live connection once, and does nothing to a closed one |
| `TcpConnections.TcpConnection.DoHandleClose` | networker/net/TcpConnection.cpp:311-326 | Acts as HandleClose: down, no interest, close callback last |
| `TcpConnections.TcpConnection.DoHandleRead` | networker/net/TcpConnection.cpp:258-280 | Received bytes join the input; end of file closes; an error changes nothing |
| `TcpConnections.TcpConnection.DoTakeInput` | networker/net/TcpConnection.cpp:265-266 | What the message callback is there for: the user takes bytes off the front of the input buffer |
| `TcpConnections.TcpConnection.DoConnectEstablished` | networker/net/TcpConnection.cpp:232-242 | Acts as ConnectEstablished |
| `TcpConnections.TcpConnection.DoConnectDestroyed` | networker/net/TcpConnection.cpp:244-256 | Acts as ConnectDestroyed |
| `Channels.Dispatch` | networker/net/Channel.cpp:65-98 | Which callbacks one wake-up calls, each at most once, in the order close, error, read, write |
| `Channels.Channel.HandleEventWithGuard` | networker/net/Channel.cpp:65-98 | Calls exactly those callbacks in that order, and leaves eventHandling_ off |
| `EventLoops.NoLostWakeup` | networker/net/EventLoop.cpp:90-134 | For any threads and interleaving: at poll with something queued, or with quit requested, the eventfd is readable or a thread is about to write it; given that at entry nothing is queued without a wake-up on its way |
| `EventLoops.EntryCondition` | networker/net/EventLoop.cpp:157-168 | That condition at entry is exact: it fails if and only if the first poll then sleeps on a queued functor |
| `EventLoops.QueueBeforeLoopSleeps` | networker/net/EventLoop.cpp:63-67 | How it fails: queueInLoop by the loop's own thread before loop() |
| `EventLoops.OthersMayQueueEarly` | networker/net/EventLoop.cpp:157-168 | Other threads may queue before loop() is entered |
| `EventLoops.QuitSurvives` | networker/net/EventLoop.cpp:93-97 | After any run quit is set if and only if some thread asked for it and loop() was not entered afterwards |
| `EventLoops.QuitEndsLoop` | networker/net/EventLoop.cpp:99-134 | A quit requested in the loop is obeyed before another poll |
| `EventLoops.EndsOnlyOnQuit` | networker/net/EventLoop.cpp:99-118 | And the loop ends for nothing else: in every run that leaves loop(), quit was asked for since it was entered |
| `EventLoops.EventfdCounts` | networker/net/EventLoop.cpp:240-260 | In every run the eventfd holds exactly the wake-ups written since the loop last handled it, up to what it can hold: handling it empties it, and poll finds it readable only if one was written later |
| `EventLoops.OwnWakeWhileRunning` | networker/net/EventLoop.cpp:157-168 | The loop's own thread wakes itself if and only if functors are running; until the first batch has ended, if callingPendingFunctors_ started as false |
| `EventLoops.WakeupDelivers` | networker/net/EventLoop.cpp:99-118 | From a poll with a readable eventfd one round runs everything posted |
| `EventLoops.FunctorOrder` | networker/net/EventLoop.cpp:262-277 | Executed ++ rest of the batch ++ queue is every push of the run, in lock order |
| `EventLoops.LaterRound` | networker/net/EventLoop.cpp:262-277 | Until the next swap only functors of the current batch run, in order, whatever is pushed meanwhile |
| `EventLoops.EventLoop.QueueInLoop` | networker/net/EventLoop.cpp:157-168 | The loop's own post: pushes, and wakes exactly while functors run; the two steps of the model in a row |
| `EventLoops.EventLoop.QueueFromThread` | networker/net/EventLoop.cpp:157-168 | Another thread's post: pushes and always wakes |
| `EventLoops.EventLoop.RunInLoop` | networker/net/EventLoop.cpp:136-143 | Runs at once on the loop's thread, queues otherwise |
| `EventLoops.EventLoop.DoPendingFunctors` | networker/net/EventLoop.cpp:262-277 | Swap, the batch in order, end: a run of the model from the old value to the new one, in which exactly the batch is executed and what it posts stays queued |
| `EventLoops.EventLoop.Iterate` | networker/net/EventLoop.cpp:99-118 | One round (poll, handlers, eventfd, batch) is a run of the model from the old value to the new one; at its end the eventfd holds what was queued while functors ran, on top of what it held before if it was not handled: nothing if the wake-up was reported and nothing was queued |
| `EventLoops.EventLoop.Quit` | networker/net/EventLoop.cpp:124-134 | Sets quit_ and wakes the loop from another thread |
| `TimerQueues.StepKeepsInv` | networker/net/TimerQueue.cpp:119-275 | Every step of the timer queue keeps the two sets, the batch and the heap consistent, whatever addresses the allocator reuses |
| `TimerQueues.TimerMemory` | networker/net/TimerQueue.cpp:119-275 | In every run no assertion fails, no timer is used after deletion or deleted twice, and timers_ and activeTimers_ hold the same live timers under (expiration, t) and (t, sequence) |
| `TimerQueues.EveryTimerOnce` | networker/net/TimerQueue.cpp:119-243 | Every timer ever created is waiting to be added, in the sets, in the current batch or deleted, and in one of these only |
| `TimerQueues.CancelIsFinal` | networker/net/TimerQueue.cpp:141-165 | After cancelInLoop of an added timer it runs in no later batch, self-cancel and cancel by another callback included, and in the current one only if its turn was to come |
| `TimerQueues.CancelIsolated` | networker/net/TimerQueue.cpp:141-165 | No timer with another sequence number is touched, even at the same address |
| `TimerLives.TimerLifetime` | networker/net/TimerQueue.cpp:119-243 | In every run, between rounds, the n-th timer asked for waits in both sets if and only if it was added, not cancelled since, and either repeats or has not run; with the interval asked for, and until it runs the expiration too |
| `TimerLives.NeverDropped` | networker/net/TimerQueue.cpp:119-243 | In every run a timer is deleted only if it was cancelled after it was added, or does not repeat and has run: a repeating timer that nobody cancels lives on |
| `TimerLives.TurnOfReset` | networker/net/TimerQueue.cpp:221-235 | A turn of reset() deletes the timer if and only if its interval is not positive or its id is marked; otherwise it is in both sets with the same number and interval, expiring one interval after the round |
| `TimerQueues.ExpiresExactlyTheDue` | networker/net/TimerQueue.cpp:189-219 | getExpired takes exactly the timers due, in order |
| `TimerQueues.BatchRunsInOrder` | networker/net/TimerQueue.cpp:167-187 | The callbacks of a batch run once each, in order, whatever they add or cancel |
| `TimerQueues.ResetArms` | networker/net/TimerQueue.cpp:221-243 | In every run, with times after the epoch, reset() leaves the timerfd set to the expiration of a waiting timer and no waiting timer is due before |
| `TimerQueues.NoTimerForgotten` | networker/net/TimerQueue.cpp:221-275 | In every run, with times after the epoch, an idle queue with timers has its timerfd set |
| `TimerQueues.ForgetsExactly` | networker/net/TimerQueue.cpp:221-243 | A step leaves an idle queue with timers and no timerfd if and only if it is a reset() whose earliest timer does not lie after the epoch, with the timerfd unset since it fired |
| `TimerQueues.EarlyTimerForgets` | networker/net/TimerQueue.cpp:236-243 | A run in which that happens |
| `TimerQueues.AddArmsInTime` | networker/net/TimerQueue.cpp:245-275 | In every state of the invariant: after the insertion the timerfd is set no later than the earliest timer if and only if the queue was empty, or the new timer expires no later than the earliest and the timerfd was already set no later than that: the comparison in insert() is reversed, and sets it exactly when the queue is empty or the new timer is later than the earliest |
| `TimerQueues.SecondTimerLate` | networker/net/TimerQueue.cpp:245-275 | From the empty queue: a timer at 10, then one at 5, and the timerfd stays at 10 |
| `TimerQueues.TimerQueue.AddTimerInLoop` | networker/net/TimerQueue.cpp:132-139 | Acts as the step of the model, arming included |
| `TimerQueues.TimerQueue.CancelTimerInLoop` | networker/net/TimerQueue.cpp:141-165 | Acts as the step of the model on both sets, the heap and cancelingTimers_ |
| `TimerQueues.TimerQueue.BeginRead` | networker/net/TimerQueue.cpp:167-219 | Takes the due timers out of both sets |
| `TimerQueues.TimerQueue.EndRead` | networker/net/TimerQueue.cpp:221-243 | Re-inserts the repeating timers that were not cancelled, deletes the others, re-arms |
| `TimerQueues.TimerQueue.Insert` | networker/net/TimerQueue.cpp:245-275 | Puts the timer into both ordered sets; says whether the source takes it for the earliest |
| `AsyncLoggings.BuffersOwnedOnce` | networker/base/AsyncLogging.cpp:68-137 | In every interleaving of append with the backend no buffer is held twice, both recycling assertions hold, and every round starts with two empty spares |
| `AsyncLoggings.StepKeepsInv` | networker/base/AsyncLogging.cpp:30-137 | append, the critical section and the writing each keep ownership and content |
| `AsyncLoggings.LogConservation` | networker/base/AsyncLogging.cpp:30-137 | Every line given to append and shorter than a buffer is whole and in lock order in a collected batch, a full buffer or the current one; the file is what the finished batches render to, so with no batch over 25 the file followed by what is held is everything appended |
| `AsyncLoggings.OverloadLoses` | networker/base/AsyncLogging.cpp:100-109 | A batch over 25 buffers loses exactly those after the second, with one notice giving size - 2; a smaller one loses nothing |
| `AsyncLoggings.LineKept` | networker/base/AsyncLogging.cpp:30-48 | append loses a line if and only if it is as long as a whole buffer, and hands the current buffer over if and only if the line does not fit behind what it holds; a new buffer is made only if nextBuffer_ is gone |
| `AsyncLoggings.StopLosesTheRest` | networker/base/AsyncLogging.cpp:137-138 | When the backend leaves, the file is complete if and only if nothing is held in the front |
| `AsyncLoggings.AsyncLogging.AppendLine` | networker/base/AsyncLogging.cpp:30-48 | Acts as the append of the model on the shared buffers |
| `AsyncLoggings.AsyncLogging.CollectBuffers` | networker/base/AsyncLogging.cpp:69-95 | Acts as the critical section, given the assertions before it |
| `AsyncLoggings.AsyncLogging.WriteBuffers` | networker/base/AsyncLogging.cpp:97-135 | Drops, writes, keeps two, refills the spares emptied |
| `AsyncLoggings.AsyncLogging.AlwaysSeparate` | networker/base/AsyncLogging.cpp:33-46 | What the methods need of distinct objects holds in every reachable state |
| `AsyncLoggings.PutBytes` | networker/base/LogStream.h:28-34 | On bytes, a line goes in whole or not at all |
| `Pollers.SameInterest` | networker/net/poller/PollPoller.cpp:66-142 | Over any run both accept, the array, the map and the indices of PollPoller stay a bijection, and its slots, the kernel set of EPollPoller and the callers' view hold the same non-empty masks |
| `Pollers.PollStep` | networker/net/poller/PollPoller.cpp:66-142 | A legal call passes PollPoller's assertions if and only if it brings back no removed channel and removes none whose only update asked for nothing; then slots and channels stay in step |
| `Pollers.PollRuns` | networker/net/poller/PollPoller.cpp:66-142 | The same over whole runs |
| `Pollers.SwapRemoveMatches` | networker/net/poller/PollPoller.cpp:130-141 | Swap with the last and drop keeps slots and channels one to one |
| `Pollers.PolledForNothing` | networker/net/poller/PollPoller.cpp:71-88 | poll(2) is given a descriptor with an empty mask exactly when its channel was updated once, with no events |
| `Pollers.EPollDiscipline` | networker/net/poller/EPollPoller.cpp:90-179 | In every run of legal calls the kernel refuses no epoll_ctl, also with repeated disableAll and disable before the first enable; it watches exactly the registered channels disabled an even number of times in a row, with their current masks |
| `Pollers.EPollStep` | networker/net/poller/EPollPoller.cpp:90-150 | Each legal call keeps index, map and kernel set in step and passes the assertions |
| `Pollers.WatchedRegistered` | networker/net/poller/EPollPoller.cpp:80-82 | After any run of legal calls, every channel the kernel can report is registered in channels_: the assertions on a reported event hold |
| `Pollers.ReadyExactly` | networker/net/poller/PollPoller.cpp:43-63 | A channel is reported exactly when its slot was marked, and once |
| `Pollers.PollPoller.UpdateChannel` | networker/net/poller/PollPoller.cpp:66-110 | Acts as the model's update on the array, the map and the channel's index |
| `Pollers.PollPoller.RemoveChannel` | networker/net/poller/PollPoller.cpp:112-142 | Acts as the model's removal, swap included |
| `Pollers.PollPoller.FillActiveChannels` | networker/net/poller/PollPoller.cpp:43-63 | Stopping after numEvents marks misses none; slot order |
| `Pollers.EPollPoller.UpdateChannel` | networker/net/poller/EPollPoller.cpp:90-128 | Acts as the model's update on the index and the kernel set |
| `Pollers.EPollPoller.RemoveChannel` | networker/net/poller/EPollPoller.cpp:130-151 | Acts as the model's removal |
| `Pollers.EPollPoller.FillActiveChannels` | networker/net/poller/EPollPoller.cpp:72-87 | Every reported channel, in order, with its events stored in it; the assertions that it is in channels_ hold |
| `Pollers.PollRound` | networker/net/poller/PollPoller.cpp:43-63 | With PollPoller a round calls no callback at all, since revents are never stored |
| `Pollers.EPollRound` | networker/net/poller/EPollPoller.cpp:72-87 | With EPollPoller each channel is dispatched the events reported for it |
| `Buffers.Buffer.Append` | networker/net/Buffer.h:175-185 | The readable bytes grow by exactly the data, however storage is compacted or regrown |
| `Buffers.Buffer.MakeSpace` | networker/net/Buffer.h:361-377 | Compaction or growth leaves the readable bytes as they were and makes the room asked for; the compaction's assertion follows from its guard |
| `Buffers.Buffer.Retrieve` | networker/net/Buffer.h:109-117 | Drops exactly the first bytes; retrieving all resets both indices |
| `Buffers.Buffer.RetrieveAsString` | networker/net/Buffer.h:157-163 | Returns what it drops |
| `Buffers.Buffer.Unwrite` | networker/net/Buffer.h:211-215 | Drops exactly the last bytes |
| `Buffers.Buffer.Prepend` | networker/net/Buffer.h:326-332 | The data comes in front of the readable bytes |
| `Buffers.Buffer.Shrink` | networker/net/Buffer.h:334-341 | Keeps the readable bytes and the room asked for |
| `Buffers.Buffer.ReadFd` | networker/net/Buffer.cpp:19-48 | A read of n bytes appends exactly those, also when they spill into the extra buffer |
| `Buffers.Buffer.Grow` | networker/net/Buffer.h:361-366 | A larger vector, with the readable bytes where they were |
| `Buffers.Buffer.Compact` | networker/net/Buffer.h:367-376 | The readable bytes move to the front, in place |
| `Buffers.Buffer.FindCRLF` | networker/net/Buffer.h:83-90 | The first CRLF at or after the start, or none |
| `Buffers.Buffer.FindEOL` | networker/net/Buffer.h:98-103 | The first newline at or after the start, or none |
| `Buffers.Buffer.ReadInt` | networker/net/Buffer.h:243-263 | Takes a big-endian integer off the front |
| `Buffers.IntegerRoundTrip` | networker/net/Buffer.h:218-296 | An integer of any width comes back from its network-order bytes, negative ones included |
| `Dates.DateRoundTrip` | networker/base/Date.cpp:10-33 | getYearMonthDay undoes getJulianDayNumber on every proleptic Gregorian date from -4800-03-01 |
| `Dates.NumberRoundTrip` | networker/base/Date.cpp:10-33 | And back: every number from -32044 is that of a valid date |
| `Dates.NoDateBefore` | networker/base/Date.cpp:19-33 | getYearMonthDay gives a date of the calendar if and only if the number is at least -32044 |
| `Dates.NextNumber` | networker/base/Date.cpp:10-17 | Consecutive dates, by leap-year rule and month lengths, have consecutive numbers |
| `Dates.NumbersCountDays` | networker/base/Date.cpp:10-33 | Counting days of the calendar from -4800-03-01 on, day n has number n - 32044, and is what that number gives |
| `Dates.NoOverflow` | networker/base/Date.cpp:19-33 | For every number: no 32-bit intermediate value overflows if and only if it lies in -536902956..536838867 |
| `TimeZones.UtcFields` | networker/base/TimeZone.cpp:318-346 | toUtcTime gives a valid date and clock whose fields count up to the second, before and after 1970 |
| `TimeZones.FromUtcLosesMinutes` | networker/base/TimeZone.cpp:353-359 | fromUtcTime undoes toUtcTime if and only if the minute is 0: it is 10 s short per minute |
| `TimeZones.YearDay` | networker/base/TimeZone.cpp:340-343 | tm_yday is the day of the year by the month lengths, except in the year -4800 |
| `TimeZones.WeekDays` | networker/base/Date.h:71-75 | Week days follow each other from Thursday 1970-01-01; the field leaves 0..6 if and only if the number is below -1 and the day no Sunday |
| `TimeZones.UtcWeekDay` | networker/base/TimeZone.cpp:318-346 | The tm_wday that toUtcTime returns is that of the second's day, counted from Thursday on the first day of 1970, from day number -1 on; before, it is in 0..6 only on Sundays |
| `TimeZones.UtcYearDay` | networker/base/TimeZone.cpp:340-343 | The tm_yday it returns is the day of the year of the date it returns, by the month lengths, if and only if the year is after -4800 |
| `TimeZones.Tm.ToUtcTime` | networker/base/TimeZone.cpp:318-346 | Fills the fields that the lemmas speak of |
| `TimeZones.FindLocaltime` | networker/base/TimeZone.cpp:233-258 | The binary search gives the type of the last transition at or before t, and type 0 before the first: section 3.2 of RFC 8536 |
| `TimeZones.LowerBound` | networker/base/TimeZone.cpp:241-241 | The first transition not before t |
| `TimeZones.LocalRoundTrip` | networker/base/TimeZone.cpp:276-316 | fromLocalTime undoes toLocalTime on every second, repeated hours included, if and only if every set-back of the clock is one hour from summer to standard time; for ascending, spaced transitions |
| `TimeZones.FirstPassReturns` | networker/base/TimeZone.cpp:308-313 | In the first pass of a repeated time, the trip succeeds if and only if that set-back is so |
| `TimeZones.UnambiguousReturns` | networker/base/TimeZone.cpp:297-316 | Outside repeated times every second survives the trip |
| `TimeZones.MoscowComesBackLate` | networker/base/TimeZone.cpp:308-316 | A zone that fails: an hour back without summer time |
| `TimeZones.TimeZone.ToLocalTime` | networker/base/TimeZone.cpp:276-295 | Acts as ToLocal |
| `TimeZones.TimeZone.FromLocalTime` | networker/base/TimeZone.cpp:297-316 | Acts as FromLocal |
| `LogStreams.DecimalRoundTrip` | networker/base/LogStream.cpp:18-36 | The text of every integer parses back to it, without leading zeros |
| `LogStreams.HexRoundTrip` | networker/base/LogStream.cpp:38-56 | Likewise in hexadecimal |
| `LogStreams.NumericSizeSuffices` | networker/base/LogStream.cpp:59-66 | Text and terminator of every 64-bit integer or pointer fit kMaxNumericSize |
| `LogStreams.Convert` | networker/base/LogStream.cpp:18-36 | Fills the array in place with the decimal text and a terminator, for the minimum value too, under truncating division |
| `LogStreams.ConvertHex` | networker/base/LogStream.cpp:38-56 | Likewise in hexadecimal |
| `LogStreams.FixedBuffer.Append` | networker/base/LogStream.h:28-34 | Takes the text whole if it leaves a byte free, else not at all |
| `LogStreams.FixedBuffer.FormatInteger` | networker/base/LogStream.cpp:59-66 | The number goes in whole or not at all, and never passes the end |
| `LogStreams.FixedBuffer.FormatPointer` | networker/base/LogStream.cpp:117-130 | The same for a pointer and its prefix |
| `Ledgers.ConnectorKeepsLedger` | networker/net/Connector.cpp:27-211 | In every run with no late timer the connector agrees with an account kept from outside: whether a connection is wanted, which socket is connecting, when the next try is due and after how many failures, what became of every socket, the connection that is there, everything queued |
| `Ledgers.HandedExactly` | networker/net/Connector.cpp:153-181 | In every such run a socket was handed to the user if and only if a channel event found it connecting, without error, through to another end, and still wanted; every other one that is not connecting was closed |
| `Ledgers.FailedAttempt` | networker/net/Connector.cpp:153-211 | In every state such a run reaches, an attempt that ends in an error, a socket error, a self connect or a stop has its socket closed, and the next try is scheduled if and only if a connection is wanted, min(500 * 2^failures, 30000) ms from now |
| `Connectors.ConnectorSafe` | networker/net/Connector.cpp:27-211 | With one start, any stops and restarts after the connection is gone, if no posted reset waits 500 ms: no assertion fails, every socket is closed or handed over exactly once, at most one start, retry, attempt or connection is outstanding, and the k-th retry delay since a reset is min(500 * 2^k, 30000) |
| `Connectors.AbortsExactly` | networker/net/Connector.cpp:122-134 | In every run an assertion fails if and only if a retry timer fires, with a start still wanted and the connection in progress, while the queued resetChannel has not run; without such a firing all that ConnectorSafe says holds |
| `Connectors.LateFireAborts` | networker/net/Connector.cpp:122-134 | Each such firing fails the assertion |
| `Connectors.LateLoopAborts` | networker/net/Connector.cpp:136-146 | A run in which it fails: half a second passes between a failed attempt and the timers of the same round |
| `Connectors.StepKeepsInv` | networker/net/Connector.cpp:33-211 | Every step but such a firing keeps the invariant, in every phase of the loop |
| `Connectors.StopIsFinal` | networker/net/Connector.cpp:44-58 | From a stopped connector that was started and holds no connection, every run creates no socket and hands none over, late timers included |
| `Connectors.DelayBound` | networker/net/Connector.cpp:205-207 | The delay doubles until 30 s |
| `Connectors.Connector.DoHandleWrite` | networker/net/Connector.cpp:153-181 | Acts as the step: reset queued, then retry, hand-over or close |
| `Connectors.Connector.DoHandleError` | networker/net/Connector.cpp:183-193 | Reset queued, socket closed, retry |
| `Connectors.Connector.DoStopInLoop` | networker/net/Connector.cpp:50-58 | Gives up an attempt under way |
| `Connectors.Connector.DoConnect` | networker/net/Connector.cpp:65-111 | The three ways connect(2) can answer |
| `Connectors.Connector.DoRestart` | networker/net/Connector.cpp:113-120 | Resets the delay and starts at once |
| `Connectors.Connector.DoRetry` | networker/net/Connector.cpp:195-211 | Closes the socket and schedules a start if one is still wanted |

## Left out

- System calls: their answers are arguments of the steps, limited only by what is stated there (no more bytes taken than offered; EPIPE stays; only requested events, and ERR, HUP, NVAL; an open descriptor stays open until its channel is removed).
- Integer widths of indices, counters and sizes (`size_t`, `int`): unbounded in the model, except for `Date`, `LogStream` and the buffer's integers, where the widths matter.
- Mutexes, condition variables and atomics: critical sections are single steps. `send`, `shutdown` and `forceClose` test and set the state in one step also from another thread.
- The destructor of `TcpClient`, what follows an assertion that fails in the destructor of `TcpServer`, and object lifetime by reference counts beyond the order of functors (`DestroyedLast`).
- TcpServers.Lifecycle: runs have no `startRead` after close, and no PRI together with a HUP without IN; both fail an assertion, exactly as `StartReadBreaksExactly` and `DispatchTripsCloseAssertion` say.
- Teardowns.StartReadBreaksExactly: startReadInLoop may run at any moment its loop is not polling, not only where the queue would place it.
- `send(Buffer*)` from another thread: the bytes are cut as in `CutAtNul`; emptying the caller's buffer is not modelled.
- Callbacks of the user: whatever they do to the library is a step between others; nesting of user calls inside one handler is not modelled. The bytes received are taken off the input buffer in steps of the user's own, in any amounts.
- `Acceptor`, `Socket`, `InetAddress`, `EventLoopThreadPool` (the choice of an I/O loop is arbitrary), `TcpClient` but for its calls of the connector, idle timeouts, `forceCloseWithDelay`.
- TimerQueues: time is an integer number of microseconds; the 100 microsecond floor in arming the timerfd and the arithmetic on doubles are not part of this model.
- AsyncLoggings: the logging front end, LogFile's names, rolling and flushing, and the text of the notice; the file is the sequence of its appends.
- AsyncLoggings.AsyncLogging.AppendLine: the buffers are seen line by line; the bytes of one are proved for `FixedBuffer` itself, and `PutBytes` connects the two.
- EventLoop::removeChannel's assertion on the active list: in the server's model channels are removed by functors only, never while events are handled.
- TimeZone: reading TZif files; gmtime_r and timegm are taken as inverses of each other; the cast of the day count to int (its safe range is `NoOverflow`).
- LogStream: floating point, characters, strings and `Fmt`.
- Buffer: the capacity of the vector beyond its size; `swap`.
- Printing of events and states for debugging.
