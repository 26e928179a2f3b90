# Verified model of a reactor-style web server

This project models the C++ server in this repository (event loop, timers, poller, TCP connections,
HTTP parser and printer, asynchronous logger) in Dafny 4.11 and proves what its parts promise.
`dafny verify dfyconfig.toml` checks everything.

The parts with several threads are step systems: a state, the stretches of code that run without
interruption, and theorems over every sequence of such steps. The parts that work on one object at a
time are classes whose methods change the same fields as the source and are proved against functions;
the properties are then proved about those functions. The kernel (`write`, `readv`, `epoll_ctl`,
`eventfd`, `timerfd`, the clock) answers through parameters that may take any value it could return.
A source assertion that fails, a freed or null pointer that is followed, or a call the kernel would
refuse sets a flag in the state, and the theorems show that the flag is never set.

| file | what it models |
|---|---|
| Bytes.dfy, Decimal.dfy | searching and joining byte strings; decimal notation and its value |
| Buffer.dfy | the growable two-index buffer, refining a byte queue |
| HttpRequest.dfy, HttpContext.dfy, HttpResponse.dfy | request object, incremental parser, response printer |
| TimerQueue.dfy, TimerSchedule.dfy, TimerCancellation.dfy, TimerQueueObject.dfy | the timer queue over a heap with reusable addresses; deadlines and putting back; when a cancellation counts; the queue object |
| EventLoop.dfy | loop thread, queuing threads and eventfd |
| EpollPoller.dfy | channel index, poller maps and the kernel's interest set |
| TcpConnection.dfy | one connection: sending, draining, half-close, and the object over a real buffer |
| TcpServer.dfy, TcpServerDispatch.dfy, TcpServerProgress.dfy, TcpServerShutdown.dfy, TcpServerObject.dfy | the whole server with its three-hop teardown; what its loops do with events and functors, and can always still do; SHUT_WR; the `connections_` map |
| LogStream.dfy, AsyncLogging.dfy | fixed buffer, integer formatting, double buffering |

A byte is a Dafny `char`; no result depends on how many distinct bytes there are. White space is what
`isspace` accepts in the C locale.

Where a promise does not hold of the code on all inputs, the code is kept and the exact condition is
proved:

- `HttpResponses.ResponseRoundTripIff`: a body of 10^13 bytes or more;
- `HttpParser.LoopEndsIffParsing` and `HttpParser.RetryTripsIffMethodRecognised`: parser states that spin or trip an assertion;
- `TcpConnections.ShutdownSafeIff`, `TcpConnections.DestroySafeIff` and `TcpServerShutdown.ShutWithDataIff`: calls on a connection that is not open;
- `TcpServerDispatch.ClosesTwiceIff`: an event that closes twice;
- `EventLoops.OwnQueueSafeIff`, `EventLoops.OwnQueueUnheardIff` and `EventLoops.QuitHeardIff`: calls the loop does not hear;
- `TimerCancellation.CancelPreventsIff`: a cancellation that comes too early;
- `EpollPollers.QuietKeptIff`: a channel registered without interest;
- `ByteBuffer.RoomIff`: lengths beyond `int`;
- `LogStreams.LengthIsNeverFilled`: a length that is the capacity, which no filled buffer ever reaches.

The server theorems accordingly assume that `shutdown()` is not called on a disconnected connection, that
nobody has a connection before connect_established has handed it out, and that HUP is never reported
without IN but with PRI or RDHUP. Of the last, the half about RDHUP holds because no channel subscribes to
it (src/net/channel.cpp:6-8) and epoll reports, besides HUP and ERR, only what was subscribed; the half
about PRI is an assumption about the kernel. The timer theorems assume a clock past its epoch; deadlines
may be anything.

## Model

| member | source | states |
|---|---|---|
| TcpServers.NoAssertionFails | src/net/tcp_connection.cpp:82-127 | in every interleaving of the base loop, the io loops and other threads, no assertion of the teardown fails: closing an open connection, erasing exactly one entry, removing a registered channel without interest |
| TcpServers.RegisteredIsHeld | src/net/tcp_server.cpp:102-127 | a connection whose channel is registered is held by `connections_` or by exactly one connect_destroyed on its way, never both; one that is out of `connections_` is disconnected |
| TcpServers.DestroyedOnceAfterEstablished | src/net/tcp_connection.cpp:109-127 | connect_established and connect_destroyed run at most once each and in that order |
| TcpServers.RemovedOnlyBetweenWalks | src/net/event_loop.cpp:66-73 | a connection channel is removed only while its loop calls functors, never while the loop walks its active channels |
| TcpServers.ActiveChannelsAreAlive | src/net/event_loop.cpp:69-71 | every raw channel pointer a loop has still to follow is to a registered channel of a connection that is held |
| TcpServers.FunctorsRunAtHome | src/net/tcp_server.cpp:112-127 | every functor waits on the loop whose thread its code asserts |
| TcpServers.StreamsSurviveTheServer | src/net/tcp_connection.cpp:60-80 | inside the whole server, the bytes written are what the kernel's answers say, with the buffered ones they are the accepted messages in order; every connection drains before SHUT_WR and never forgets a half-close |
| TcpServers.ServerRefinesConnection | src/net/tcp_connection.cpp:60-213 | in every interleaving, each connection of the server is exactly where its own events take a new connection |
| TcpServerDispatch.EventOutcome | src/net/channel.cpp:28-59 | from every reachable state and for every event: the connection closes exactly on HUP without IN or on a read that meets the end of the stream, otherwise a writable socket takes what the kernel says, and nothing else changes |
| TcpServerDispatch.EventCanRun | src/net/channel.cpp:28-59 | the callbacks of any event can be run to its end |
| TcpServerDispatch.EveryActiveChannelIsTakenUp | src/net/event_loop.cpp:66-73 | in every run each loop takes up every channel its polls report, once and in order |
| TcpServerDispatch.FunctorsAreCalledInOrder | src/net/event_loop.cpp:148-162 | in every run the functors called on a loop, then those that wait, are those queued there by new_connection, the teardown and other threads, once each and in order |
| TcpServerDispatch.ErasedExactlyOnce | src/net/tcp_server.cpp:76-127 | in every run each erasure finds exactly its entry in `connections_`, each new connection is a new entry, and nothing else changes it |
| TcpServerDispatch.ClosesTwiceIff | src/net/channel.cpp:28-59 | one event closes an open connection twice, against the assertion, exactly when HUP comes without IN and with PRI or RDHUP |
| TcpServerShutdown.ShutWithDataIff | src/net/tcp_connection.cpp:136-145 | for every reachable state and step: SHUT_WR first goes out with data left exactly when the connection has been closed with data in its buffer |
| TcpServerShutdown.ShutWithDataHappens | src/net/tcp_connection.cpp:60-145 | a run that gets there: a stuck byte, shutdown() from another thread, the peer hanging up, then the queued half-close |
| TcpServerProgress.TeardownCanFinish | src/net/tcp_server.cpp:112-127 | from every reachable state with a closed connection, steps of the loops alone take it through its remaining hops |
| TcpServerProgress.FunctorComes | src/net/event_loop.cpp:148-162 | every functor that waits can be brought to its call by its loop alone, whatever else the loop is in |
| TcpServers.StepKeepsInv | src/net/tcp_server.cpp:76-127 | every step of every thread keeps the teardown invariant |
| TcpServers.CloseKeepsInv | src/net/tcp_connection.cpp:82-92 | the first hop of the teardown: handle_close and its close callback, on the base loop or off it |
| TcpServers.RemoveRuns | src/net/tcp_server.cpp:117-127 | the second hop finds its entry and posts the last hop once |
| TcpServers.DestroyRuns | src/net/tcp_connection.cpp:109-117 | the last hop finds the channel registered and without interest |
| TcpServers.EstablishRuns | src/net/tcp_connection.cpp:119-127 | the functor posted by new_connection finds the connection connecting |
| TcpServers.SendRuns | src/net/tcp_connection.cpp:147-171 | a send queued from another thread is harmless whatever has become of the connection |
| TcpServers.HalfCloseRuns | src/net/tcp_connection.cpp:129-145 | so is a shutdown queued from another thread |
| TcpServers.AcceptKeepsInv | src/net/tcp_server.cpp:76-110 | new_connection, for an io loop that is or is not the base loop |
| TcpServers.CallbacksShape | src/net/channel.cpp:36-56 | under what the kernel reports, a close comes first and is never followed by a read |
| TcpServerObjects.NamesAreDistinct | src/net/tcp_server.cpp:79-82 | the names that key `connections_` are distinct for distinct connection numbers |
| TcpServerObjects.TcpServer.NewConnection | src/net/tcp_server.cpp:76-110 | adds exactly one new connection and posts connect_established unless the io loop is the base loop |
| TcpServerObjects.TcpServer.RemoveConnection | src/net/tcp_server.cpp:112-115 | runs the removal on the base loop, or posts it there |
| TcpServerObjects.TcpServer.RemoveConnectionInLoop | src/net/tcp_server.cpp:117-127 | erases exactly one entry and posts connect_destroyed to the io loop |
| TcpConnections.StreamAndDrain | src/net/tcp_connection.cpp:60-80 | over every history of sends, partial and failed writes, shutdowns and a close, every handler invariant holds: stream conserved, writing enabled exactly while an open connection has data, half-close never forgotten |
| TcpConnections.OutputIsAcceptedInOrder | src/net/tcp_connection.cpp:178-213 | bytes written followed by bytes buffered are exactly the accepted messages in order |
| TcpConnections.WrittenIsWhatTheKernelTook | src/net/tcp_connection.cpp:178-213 | over every history the bytes counted as written are those the answers to each write say, so the rest of every partial write is still buffered |
| TcpConnections.StateTellsHistory | src/net/tcp_connection.cpp:82-145 | over every history the state is what its calls make it, and SHUT_WR is issued when, and only when, shutdown() was called |
| TcpConnections.SendKeeps | src/net/tcp_connection.cpp:178-213 | a send with any outcome of the write keeps the invariants and never turns writing off |
| TcpConnections.WriteKeeps | src/net/tcp_connection.cpp:60-80 | so does handle_write; a connection going down goes on writing or issues SHUT_WR |
| TcpConnections.ShutdownSafeIff | src/net/tcp_connection.cpp:129-134 | whatever hops, sends and writes still follow, a shutdown() leads to no failed assertion, no removed channel registered again and no destruction of a connection not disconnected, exactly on an open connection |
| TcpConnections.ShutdownOnDisconnectedBreaksTeardown | src/net/tcp_connection.cpp:129-134 | on a disconnected connection it takes a queued send: it registers the channel again, and a connect_destroyed still to come fails its assertion; without the send, or without the shutdown(), nothing happens |
| TcpConnections.DestroySafeIff | src/net/tcp_connection.cpp:109-117 | connect_destroyed is safe exactly on a connected, or a disconnected and registered, connection |
| TcpConnections.InterestFollowsPoller | src/net/channel.h:35-57 | the change of registration used for a connection is the one proved for the poller |
| TcpConnections.FlagsFollowMask | src/net/channel.h:35-57 | each change of a connection's interest is the mask one of the four channel calls leaves |
| TcpConnections.TcpConnection.SendData | src/net/tcp_connection.cpp:178-213 | send_in_loop over the real output buffer, for every result of the write, when the buffer has room for what is left |
| TcpConnections.TcpConnection.SendBuffer | src/net/tcp_connection.cpp:159-171 | send(Buffer*) on its own loop sends and empties the buffer exactly when connected |
| TcpConnections.TcpConnection.OnWritable | src/net/tcp_connection.cpp:60-80 | handle_write over the real output buffer |
| TcpConnections.TcpConnection.Shutdown | src/net/tcp_connection.cpp:129-134 | the exchange in any state, and the call that follows only from connected |
| TcpConnections.TcpConnection.HalfClose | src/net/tcp_connection.cpp:136-145 | SHUT_WR when nothing is being written |
| TcpConnections.TcpConnection.Established | src/net/tcp_connection.cpp:119-127 | connecting becomes connected and readable |
| TcpConnections.TcpConnection.OnClose | src/net/tcp_connection.cpp:82-92 | an open connection becomes disconnected without interest |
| TcpConnections.TcpConnection.Destroyed | src/net/tcp_connection.cpp:109-117 | the channel leaves the poller |
| Timers.OwnershipAndAgreement | src/net/timer_queue.cpp:73-187 | in every run: no assertion fails, nothing freed is followed or freed twice, nothing leaks; each live timer is in exactly one of pending addition, the two indexes, the batch; the indexes are in bijection and each key is its timer's deadline |
| Timers.StaleIdsAreHarmless | src/net/timer_queue.cpp:172-187 | cancelling an id leaves every other live timer where it is, even one at the same address |
| Timers.CancelledNeverRunsLater | src/net/timer_queue.cpp:131-187 | after a cancel of an added timer, by anyone, it runs in no later batch |
| Timers.CancelIsRemembered | src/net/timer_queue.cpp:172-187 | a cancel of any added live timer counts for that statement |
| TimerCancellation.CancelPreventsIff | src/net/timer_queue.cpp:172-187 | in every reachable state, a cancel of a live timer keeps it out of all later batches exactly when its add_timer_in_loop has run |
| TimerCancellation.EarlyCancelIsForgotten | src/net/timer_queue.cpp:172-187 | otherwise a continuation runs it |
| Timers.RunsAreSpaced | src/net/timer_queue.cpp:146-157 | a one-shot timer runs at most once; two runs of a repeating one are at least its interval, truncated to microseconds, apart |
| Timers.BatchIsWhatIsDue | src/net/timer_queue.cpp:88-107 | a batch is exactly the timers due, in deadline order, and no due timer is left |
| TimerSchedule.BatchIsCalledInOrder | src/net/timer_queue.cpp:131-144 | when the callbacks of a batch are done, exactly its timers have run, once each and in deadline order |
| TimerSchedule.DeadlinesAreExact | src/net/timer.cpp:5-11 | in every run a timer still to run is due when it was asked for, or its truncated interval after the batch it last ran in |
| TimerSchedule.RestartedIff | src/net/timer_queue.cpp:146-157 | in every reachable state reset puts a timer back, in both indexes and with the interval asked for, exactly when it repeats and was not cancelled, and frees any other |
| TimerSchedule.RunsAgainIff | src/net/timer_queue.cpp:131-157 | in every reachable state an added timer can run in a later batch exactly when it waits in the index or is a repeating, uncancelled one of the batch |
| Timers.AlarmCoverage | src/net/timer_queue.cpp:80-86 | between calls of handle_read a queue that is not empty has an alarm early enough for its earliest deadline |
| Timers.FromNow | src/net/timer_queue.cpp:18-28 | the time to a deadline in seconds and nanoseconds, never less than 100 microseconds |
| Timers.Arm | src/net/timer_queue.cpp:40-52 | the alarm is for the deadline, or 100 microseconds from now, whichever is later |
| Timers.ExpiredIsPrefix | src/net/timer_queue.cpp:92-96 | lower_bound with the sentry cuts off exactly the due entries |
| Timers.InsertKeepsOwn | src/net/timer_queue.cpp:109-129 | inserting a timer held by nobody passes both assertions and restores the invariant |
| Timers.AddKeepsOwn | src/net/timer_queue.cpp:80-86 | add_timer_in_loop moves a timer from its pending addition to the indexes |
| Timers.CancelKeepsOwn | src/net/timer_queue.cpp:172-187 | cancel_in_loop erases from both indexes and frees once, or marks, or does nothing |
| Timers.BeginKeepsOwn | src/net/timer_queue.cpp:131-138 | get_expired moves the due timers from the indexes to the batch |
| Timers.ResetKeepsOwn | src/net/timer_queue.cpp:146-157 | reset puts each timer of the batch back, or frees it |
| Timers.StepKeepsTime | src/net/timer_queue.cpp:131-157 | every step keeps the pacing invariant |
| Timers.StepKeepsCancel | src/net/timer_queue.cpp:131-187 | every step keeps cancelled timers from running again |
| Timers.StepKeepsAlarm | src/net/timer_queue.cpp:131-187 | every step keeps the alarm invariant |
| TimerQueues.TimerQueue.AddTimer | src/net/timer_queue.cpp:73-78 | creates a timer and returns its identity |
| TimerQueues.TimerQueue.AddTimerInLoop | src/net/timer_queue.cpp:80-86 | inserts it and re-arms when it is the earliest |
| TimerQueues.TimerQueue.InsertBoth | src/net/timer_queue.cpp:109-129 | inserts into both indexes and says whether it is the earliest |
| TimerQueues.TimerQueue.Cancel | src/net/timer_queue.cpp:172-187 | cancel_in_loop, in place |
| TimerQueues.TimerQueue.GetExpired | src/net/timer_queue.cpp:88-107 | the loop that erases the due timers from both indexes |
| TimerQueues.TimerQueue.HandleRead | src/net/timer_queue.cpp:131-144 | a whole handle_read, with callbacks that add and cancel, is a run of the step system |
| TimerQueues.TimerQueue.Reset | src/net/timer_queue.cpp:146-165 | the loop of reset and the re-arming |
| EventLoops.NoLostWakeup | src/net/event_loop.cpp:119-137 | in poll with functors pending, the eventfd is readable or a wakeup is about to be written, in every run without queuing outside the loop |
| EventLoops.ExactlyOnceInOrder | src/net/event_loop.cpp:148-162 | executed functors, the rest of the batch and the pending ones are exactly those the run has queued, in order |
| EventLoops.QuitEndsTheLoop | src/net/event_loop.cpp:59-84 | after a quit() in a running loop at most one more pass completes before the loop is started again, and poll is not slept through |
| EventLoops.LoopIsLeftIff | src/net/event_loop.cpp:66-81 | in every run the loop is left exactly at a test preceded by a quit() since its start |
| EventLoops.ReadableIff | src/net/event_loop.cpp:130-146 | in every run the eventfd is readable exactly when a wakeup has been written since the last one was handled |
| EventLoops.OwnQueueSafeIff | src/net/event_loop.cpp:119-128 | in every reachable state, however the run goes on: before poll is entered again the call's own wakeup has been written or its functor swapped out, exactly when loop() is running |
| EventLoops.OwnQueueUnheardIff | src/net/event_loop.cpp:119-128 | in every reachable state, the loop thread left to itself enters poll with the functor pending and no wakeup exactly when it is queued outside loop(), the eventfd is not readable and no thread is about to write it |
| EventLoops.QueueOutsideIsNotHeard | src/net/event_loop.cpp:126-127 | a run in which a functor queued before loop() is in poll without a wakeup |
| EventLoops.QuitHeardIff | src/net/event_loop.cpp:60-84 | in every run, `quit_` is set exactly when some quit() has come after the last start of the loop |
| EventLoops.QuitOutsideIsLost | src/net/event_loop.cpp:64 | a quit() just before loop() is forgotten |
| EventLoops.StepKeepsWake | src/net/event_loop.cpp:119-146 | every step keeps the wakeup invariant |
| EventLoops.StepKeepsOrder | src/net/event_loop.cpp:59-162 | every step keeps the order and quit invariants |
| EventLoops.EventLoop.QueueOnLoopThread | src/net/event_loop.cpp:119-128 | queue_in_loop on the loop thread, with its wakeup while functors are being called |
| EventLoops.EventLoop.DoPendingFunctors | src/net/event_loop.cpp:148-162 | with the functors and other threads queuing, waking and quitting meanwhile: every swapped-out functor is called in order, all that was queued is kept in order for the next pass, and a wakeup is there or coming if anything was |
| HttpParser.ChunkingIndependence | src/http/http_context.cpp:39-75 | however the bytes are cut, one retained context ends with the same flag, state, request and unconsumed bytes |
| HttpParser.HttpContext.FeedPieces | src/http/http_context.cpp:39-75 | the same for the parser object and a real buffer, fed piece by piece |
| HttpParser.ParseThenMore | src/http/http_context.cpp:39-75 | more bytes change nothing once the parse has stopped, and are otherwise taken up where it waits |
| HttpParser.HttpContext.ParseRequest | src/http/http_context.cpp:39-75 | the loop over a buffer computes the specified parse |
| HttpParser.LoopEndsIffParsing | src/http/http_context.cpp:43-73 | the loop is left exactly when it is entered expecting a request line or headers |
| HttpParser.RetryTripsIffMethodRecognised | src/http/http_request.h:26-44 | a call after a rejected request line trips the assertion exactly when the line began with a supported method |
| HttpParser.RequestLineIff | src/http/http_context.cpp:7-37 | a request line is accepted exactly when it is a supported method, a space, a space-free target, a space and HTTP/1.0 or HTTP/1.1 |
| HttpParser.RequestLineSound | src/http/http_context.cpp:7-37 | an accepted line is the canonical line of what it yields |
| HttpParser.RequestLineComplete | src/http/http_context.cpp:7-37 | a canonical line yields its own parts |
| HttpParser.RequestRoundTrip | src/http/http_context.cpp:39-75 | a canonical request (section 3 of RFC 9112) gives its parts back and leaves what follows the blank line |
| HttpParser.FieldsRoundTrip | src/http/http_context.cpp:56-69 | the header loop undoes the field printer, a later field replacing an earlier one of the same name |
| HttpParser.AnyLineWithoutColonEnds | src/http/http_context.cpp:59-66 | any line without a colon ends the headers, with exactly what follows it left |
| HttpParser.HttpContext.ProcessRequestLine | src/http/http_context.cpp:7-37 | fills the request as specified, also when the line is rejected half-way |
| HttpParser.HttpContext.TurnHeaders | src/http/http_context.cpp:56-69 | one header line, or the line that ends the headers |
| HttpRequests.MethodsInvert | src/http/http_request.h:26-73 | exactly the five tokens are recognised, each as its method, and method_string writes them back |
| HttpRequests.HttpRequest.SetMethod | src/http/http_request.h:26-44 | recognises exactly the five methods |
| HttpRequests.HttpRequest.AddHeader | src/http/http_request.h:87-98 | the two trimming loops compute the trimmed value |
| HttpRequests.LookupIsLastLine | src/http/http_request.h:87-108 | after any header lines, get_header gives the trimmed text of the last line of that name |
| HttpRequests.LookupOfAbsent | src/http/http_request.h:100-108 | and the empty string when there was none |
| HttpRequests.TrimCuts | src/http/http_request.h:90-96 | a stored value is the text after the colon without the white space around it |
| HttpRequests.SpaceIff | src/http/http_request.h:90-96 | the bytes skipped are the six white-space bytes of the C locale |
| HttpResponses.ResponseRoundTripIff | src/http/http_response.cpp:12-32 | the printed response reads back as its headers and exactly its body if and only if the connection closes or the body is below 10^13 bytes (section 6.3 of RFC 9112) |
| HttpResponses.StatusLineReadsBack | src/http/http_response.cpp:6-10 | the status line ends at the first CRLF and carries version, code and message |
| HttpResponses.LongBodyLosesConnection | src/http/http_response.cpp:18-20 | with a longer body the Connection header is swallowed by the truncated Content-Length line |
| HttpResponses.HttpResponse.AppendToBuffer | src/http/http_response.cpp:4-33 | the pieces appended to the buffer are the rendered response |
| ByteBuffer.Buffer.Drive | src/net/buffer.h:50-130 | any sequence of append, retrieve and read_fd keeps the index invariant and the contents of a plain byte queue |
| ByteBuffer.Fifo | src/net/buffer.h:57-130 | what has left the queue followed by what remains is what came in |
| ByteBuffer.RoomIff | src/net/buffer.h:104-187 | making room works for every length an int holds; beyond that, exactly when the tail suffices or compaction suffices and the truncated length does not grow the vector |
| ByteBuffer.Buffer.Compact | src/net/buffer.h:178-186 | the overlapping move keeps the contents |
| ByteBuffer.Buffer.MakeSpace | src/net/buffer.h:167-187 | grows or compacts for the truncated length it is given, and keeps the contents |
| ByteBuffer.Buffer.EnsureWritableBytes | src/net/buffer.h:104-111 | wherever making room works, the room is there afterwards and the contents are unchanged |
| ByteBuffer.Buffer.Append | src/net/buffer.h:125-130 | appends, wherever making room works |
| ByteBuffer.Buffer.Retrieve | src/net/buffer.h:57-77 | drops from the front, everything when the length reaches the end |
| ByteBuffer.Buffer.RetrieveAsString | src/net/buffer.h:94-101 | returns and drops the first bytes |
| ByteBuffer.Buffer.FindCRLF | src/net/buffer.h:132-137 | the first CRLF of the contents |
| ByteBuffer.Buffer.ReadFd | src/net/buffer.cpp:17-57 | appends exactly the bytes delivered, those spilled into the side area included |
| EpollPollers.PollerShadowsKernel | src/net/epoll_poller.cpp:68-136 | over every run on a new poller the kernel set is exactly the added channels with their masks, `channels_` exactly the added and deleted ones, and no epoll_ctl is refused |
| EpollPollers.MasksAreWhatWasAsked | src/net/channel.h:35-57 | over every run a channel listens for reading, and for writing, exactly when the last call that decides it asked for it, for nothing else, and the kernel has been told so |
| EpollPollers.QuietKeptIff | src/net/epoll_poller.cpp:74-86 | "no interest means not registered" survives a call that empties a mask exactly when the channel was registered before it |
| EpollPollers.InterestMeansRegistered | src/net/epoll_poller.cpp:68-100 | a channel with interest is registered after its update |
| EpollPollers.UpdateEffect | src/net/epoll_poller.cpp:68-100 | an update leaves the channel added, or deleted when it was added and has lost all interest |
| EpollPollers.RemoveEffect | src/net/epoll_poller.cpp:102-118 | a removal leaves no trace in either map |
| EpollPollers.ReportedIsLive | src/net/epoll_poller.cpp:57-66 | the pointer stored with a descriptor is a live registered channel of that descriptor |
| EpollPollers.EpollPoller.Perform | src/net/channel.h:35-57 | enable and disable calls on the channel object, with their update |
| EpollPollers.EpollPoller.UpdateChannelInPlace | src/net/epoll_poller.cpp:68-100 | update_channel, in place |
| EpollPollers.EpollPoller.RemoveChannelInPlace | src/net/epoll_poller.cpp:102-118 | remove_channel, in place |
| EpollPollers.EpollPoller.FillActiveChannels | src/net/epoll_poller.cpp:57-66 | every reported channel is live and registered and learns its own reported mask; no other channel changes |
| AsyncLogging.HandOff | src/base/log/async_logging.cpp:23-100 | in every interleaving, lines handed over, in hand, in `buffers_` and in `current_buffer_` are the accepted lines in order; no pop or dereference is unsafe; a null `next_buffer_` means `buffers_` is not empty |
| AsyncLogging.AcceptedAreShortLines | src/base/log/async_logging.cpp:23-42 | the accepted lines are the appended lines shorter than a buffer, each once |
| AsyncLogging.NoBufferOverflows | src/base/log/async_logging.cpp:23-100 | in every interleaving every buffer holds fewer bytes than it has room for |
| AsyncLogging.RotatesIff | src/base/log/async_logging.cpp:27-41 | in every reachable state an append leaves `buffers_` alone exactly when the line fits in the free bytes; otherwise the old buffer goes last and the line begins a fresh one |
| AsyncLogging.PassHandsOverAll | src/base/log/async_logging.cpp:56-77 | one pass of the writer hands over every line accepted before its swap, whatever is appended meanwhile |
| AsyncLogging.AppendKeepsInv | src/base/log/async_logging.cpp:23-42 | an append keeps the hand-off invariant, rotating buffers or not |
| AsyncLogging.WriterKeepsInv | src/base/log/async_logging.cpp:54-100 | so do the writer's swap, write and refill |
| AsyncLogging.LinesAreBytes | src/base/log/fixed_buffer.h:16-22 | an append does to the bytes of the buffer it ends in what the fixed buffer does |
| AsyncLogging.AsyncLogging.Append | src/base/log/async_logging.cpp:23-42 | append, in place |
| AsyncLogging.AsyncLogging.SwapBuffers | src/base/log/async_logging.cpp:56-72 | the locked section of the writer |
| AsyncLogging.AsyncLogging.WriteOut | src/base/log/async_logging.cpp:75-77 | the loop hands over every line in hand |
| AsyncLogging.AsyncLogging.RefillBuffers | src/base/log/async_logging.cpp:79-98 | both back()/pop_back() pairs find a buffer |
| LogStreams.FixedBuffer.Append | src/base/log/fixed_buffer.h:16-22 | appends whole or not at all |
| LogStreams.LengthIsNeverFilled | src/base/log/fixed_buffer.h:16-25 | after any appends the filled length is below the capacity, so never what length() returns |
| LogStreams.SignedInverts | src/base/log/log_stream.h:159-185 | the notation reads back as the number, without leading zeros, for every integer |
| LogStreams.SignedFits | src/base/log/log_stream.h:151-165 | it fits the 48 reserved bytes with its NUL for every 64-bit value |
| LogStreams.DigitStep | src/base/log/log_stream.h:171-175 | one turn of the loop: the mirrored table gives the last digit for either sign |
| LogStreams.LogStream.FormatInteger | src/base/log/log_stream.h:163-185 | appends exactly the decimal notation when 48 bytes are left, and nothing otherwise |
| LogStreams.ReverseRange | src/base/log/log_stream.h:182 | reverses a part of an array in place |

## Left out

- Destruction of the server: queued functors may hold a raw server pointer, and a disconnecting connection breaks the removal assertion; `TcpConnections.DestroySafeIff` says when.
- `send(Buffer*)` from another thread: it binds a raw pointer into the caller's buffer without copying; only the in-loop form and the string form are modelled.
- `Http_Server::on_message` over several messages: it starts a fresh context each time; the incremental results are about a retained context.
- Request bodies: the source does not implement them; only that the parse loop spins in that state is stated.
- Receive time of a request: it is stored and never used by the parser.
- HttpResponses.HttpResponse.AppendToBuffer: each piece is at most INT_MAX bytes long, since `make_space` takes an `int` (`ByteBuffer.RoomIff` says what happens beyond); the header lines come in any order, where std::map writes them sorted by name, and no result depends on it.
- ByteBuffer.Buffer.Drive: the appends of a sequence are at most INT_MAX bytes long each; a single longer one is covered by Append where making room works at all.
- Integer widths elsewhere: sequence numbers, timestamps and connection numbers do not wrap around.
- Timer intervals: seconds are exact reals and their product with a million is truncated; rounding of doubles is not modelled.
- TcpServers.NoAssertionFails: the wakeups and the other channels of each loop (acceptor, timer, eventfd) are not repeated there; EventLoops and Timers cover them.
- Wait in Async_Logging: the condition wait only delays the writer's locked section, which may come at any time; lines still buffered when the logger stops are not written by the source either.
- Socket set-up, accept, errno classification, socket options, log files, time formatting, floating-point formatting: input and output with no further property.
- Mutex, condition, thread and latch wrappers: a locked block is one step.
- Event_Loop_Thread_Pool and the setters of the response: any io loop may be picked.
