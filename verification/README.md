# Verified model of the video streamer

The streamer takes frames from a camera, decodes, filters and encodes them on two threads, puts the
encoder's output into a queue, and a broadcaster thread sends the queue to WebSocket sessions that a
server thread accepts and cleans up. A message thread starts and stops streams; SIGINT ends the process.
This project models the repository's own concurrency, ownership and bookkeeping, and proves what holds in
every interleaving, for every number of sessions, packets and commands, and for every choice of failing
step. The libraries (Boost.Beast/Asio and libav) appear as parameters: a result per call, or, for codecs
and filter graphs, a transducer whose outputs depend only on its inputs so far.

Code that several threads run is a transition system: each read or write of a shared variable, each lock,
unlock, join and release is one step, steps of different threads interleave freely, and memory is
sequentially consistent. Code that one thread runs keeps its own form: classes with methods, loops with
invariants, arrays changed in place.

| module | what it models |
|---|---|
| `SessionProtocol`, `SessionInvariant`, `SessionSteps` | server loop, broadcaster, one thread per session and the owner in `Server::run` and `Server::stop`, with the session list, its mutex and every release; the inductive invariant |
| `SessionTheorems`, `SessionProgress`, `SessionClearup`, `SessionWitness` | safety, conservation, closing and notification; waiting, calls that block and how many steps a stop takes; what a clean-up takes out; reachable states that a reader might not expect |
| `Clearup` | the in-place `remove_if` and `erase` of `clearup` on an array |
| `SessionServing`, `SessionThreads`, `SessionLoop` | what the protocol delivers: whom a broadcast serves, what a session's thread and a call of close do, what each pass of the server's loop does |
| `Streaming`, `StreamingInvariant`, `StreamingTheorems`, `StreamingProgress` | all threads of the application around the broadcast queue, over any sequence of start, stop and SIGINT, and their three mutexes and all joins |
| `Whole`, `WholeInvariant`, `WholeRuns`, `WholeTheorems` | the whole application: `Streaming` with the steps of `SessionProtocol` in place of its single steps for server loop, broadcast and stop; its runs are, moment by moment, runs of both, and its wait-for graph covers every thread, sessions included |
| `Application` | the same life cycle as one object with its six component pointers and a ledger of every object built and deleted |
| `Transducer`, `VideoIO`, `Transcoder`, `Decimator` | codecs, `encode`, `decode`, the filter graph, the decoder task with its frame decimator and read-error latch |
| `Pipeline`, `PipelineProgress` | decoder and encoder tasks as two threads, the sequential transcoder they refine, and how many steps each needs to pass on all there is |
| `LoopThread` | run, stop and join of a loop-until-stopped thread |
| `Exceptions` | the linked chain of exceptions on the heap: copy, delete, report |
| `Status` | the main loop and the status file |

Findings about the code, each with a proof:

- readyState can go from CLOSED back to CLOSING (`SessionWitness.StepsBack`). A CLOSED session stays CLOSED
  in every continuation exactly when no thread is past the guard of a close of it
  (`SessionTheorems.ClosedIsFinalIff`); it converges to CLOSED all the same.
- `onClose` can be called twice for a session, and before its `onConnection` (same run). A call is a repeated
  one exactly when the session is closing or closed or a thread is inside a close or delete of it, and comes
  before `onConnection` exactly when the server thread has not got to that (`SessionTheorems.NotifiedIff`).
- `Server::stop`, and with it a stop command and SIGINT, can wait for ever: for a client that connects and
  sends no request; for a peer that takes no data while the broadcaster writes to it under sessionsMtx; or,
  in the teardown of a session under sessionsMtx, for a peer that does not close its end.
  `SessionWitness.StopWaitsForUpgrade`, `SessionWitness.StopWaitsForWrite` and
  `SessionWitness.StopWaitsForTeardown` reach such states of the protocol, and `WholeTheorems.StopStaysHeld`
  shows that nothing any thread does ends them. These, the broadcaster's closing handshake and teardown, and
  a camera that delivers nothing are, of the calls modelled as ones that may not return, the only places in
  which a thread others wait for can be held up (`WholeTheorems.RootMoves`).
- The status file can stay wrong for as long as nothing changes, when the state changes twice in one
  iteration of the main loop (`Status.StaleForGood`, `Status.StaleIff`).
- The decimator keeps up with the encoder's rate exactly when the camera is at least as fast
  (`Decimator.NeverStarves`), and stays under twice that rate on every series of packets exactly when the
  quotient of the two rates fits the unsigned short (`Decimator.UnderTwiceIff`).
- The subtraction in `decodeST` wraps for stacks shorter than what is cut at the bottom
  (`Exceptions.WrapShowsIff`); with the repository's constants this never shows.

## Model

| member | source | states |
|---|---|---|
| SessionSteps.StepKeepsInv | src/ws/Server.cpp:18-86 | each atomic step of server thread, broadcaster, stopper or any session thread keeps the whole protocol invariant: who holds the mutex, who owns each session, where each session is, how far each closer is |
| SessionSteps.RunKeepsInv | src/ws/Server.cpp:18-86 | the invariant holds in every state of every run |
| SessionTheorems.MemorySafety | src/ws/Server.cpp:18-86 | in every interleaving every session a thread stands before is accepted and unreleased and in the bounds of the list, no step has touched a released one, and no session is released twice |
| SessionTheorems.ReleasedForGood | src/ws/Session.cpp:19-22 | from its release on a session's fields never change again, and no accepted session is ever forgotten |
| SessionTheorems.ReleasedIsFinished | src/ws/Server.cpp:27-31 | when a session is gone, its thread has ended, nobody is closing it, its socket is down, it was announced exactly once and its end at least once |
| SessionTheorems.ReleaseChangesNothingElse | src/ws/Session.cpp:19-22 | the releasing step changes only that, so all of the above held before the release |
| SessionTheorems.Conservation | src/ws/Server.cpp:36-86 | every accepted session is in exactly one of: freshly accepted, listed, in toFree, released; and held there once |
| SessionTheorems.NoStrays | src/ws/Server.cpp:36-86 | nothing but an accepted, unreleased session is ever listed, pending or in toFree |
| SessionTheorems.StopReleasesAll | src/ws/Server.cpp:18-34 | when stop returns on a running server the list is empty and every session ever accepted was released exactly once, also one accepted while stop waited |
| SessionTheorems.SkippedStopHasNone | src/ws/Server.cpp:20 | when stop found the server not running, there has never been a session |
| SessionTheorems.CloseConverges | src/ws/Session.cpp:61-90 | CLOSED implies the socket was torn down, CLOSING implies a closer in flight, and with no closer in flight a session being closed is CLOSED |
| SessionTheorems.ClosingIsForGood | src/ws/Session.cpp:61-90 | once a close has begun, readyState stays CLOSING or CLOSED for the rest of the run |
| SessionTheorems.ClosedIsFinalIff | src/ws/Session.cpp:61-90 | a CLOSED session is CLOSED in every continuation of the run if and only if no thread stands between the guard of a close of it and the write of CLOSING |
| SessionTheorems.NotifiedIff | src/ws/ServerCallback.cpp:23-34 | in every reachable state onClose was called for a session if and only if it is closing or closed or a thread is inside a close or delete of it, and onConnection was not called yet if and only if the server thread is on its way to it |
| SessionWitness.StepsBack | src/ws/Session.cpp:63-65 | a reachable state and a step in which readyState goes from CLOSED to CLOSING, after two calls of onClose and before onConnection |
| SessionWitness.StopWaitsForUpgrade | src/ws/ServerRequestAcceptor.cpp:16-28 | a reachable state in which stop joins the server thread while that reads the request of a client |
| SessionWitness.StopWaitsForWrite | src/ws/Session.cpp:92-102 | a reachable state in which stop waits for sessionsMtx while the broadcaster writes to a session whose own thread reads |
| SessionWitness.StopWaitsForTeardown | src/ws/Session.cpp:65-72 | a reachable state in which stop, under sessionsMtx, tears down a session whose own thread reads |
| SessionServing.BroadcastServesAll | src/ws/Server.cpp:52-58 | a whole broadcast asks every session of the list, in order and once each, inside the mutex, whether it is OPEN, and enters a write to exactly those whose read said so |
| SessionServing.WriteFails | src/ws/ServerCallback.cpp:23-34 | after a write that failed for good the broadcaster calls onClose and close(code) for that session, socket.close(code) unless it was CLOSED by then, and turns to the next when it is closing or closed |
| SessionServing.WriteGoesOn | src/ws/Session.cpp:92-102 | after any other write it turns to the next session and leaves this one as it is |
| SessionThreads.CloseDoes | src/ws/Session.cpp:61-76 | whatever happens between its steps, close() does nothing if its guard finds CLOSED, and else writes CLOSING, tears down, writes CLOSED and clears the flag, in this order |
| SessionThreads.CloseCodeDoes | src/ws/Session.cpp:78-90 | close(code) does nothing if its guard finds CLOSED, and else writes CLOSING, calls socket.close(code) and then close() |
| SessionThreads.EndsOnlyWhenClosing | src/runtime/LoopInside.cpp:16-18 | a session's thread ends only once its flag is down and its session is closing or closed; until then a started one has its flag up |
| SessionThreads.GoesRound | src/ws/Session.cpp:24-50 | as long as a session is OPEN and reads bring messages or harmless errors, every third step of its thread is a read |
| SessionThreads.ReadEnds | src/ws/Session.cpp:33-49 | after a read that ends the session its thread calls onClose and then close(), or close(code) with socket.close(code) after an error onError closes for, before it is back at the head of its loop with the session closing or closed |
| SessionThreads.ReadGoesOn | src/ws/Session.cpp:30-35 | after any other read it is back at the head of its loop and nothing else has happened |
| SessionThreads.SelfCloseEnds | src/ws/Session.cpp:74-75 | a thread that closed its own session ends with its next step |
| SessionLoop.EveryConnectionCounts | src/ws/ServerRequestAcceptor.cpp:16-45 | every connection the acceptor delivers is read and answered, and exactly those accepted become sessions |
| SessionLoop.AllStarted | src/ws/Server.cpp:36-47 | at the head of the loop every session ever accepted has been opened, started and announced once, and is listed unless released |
| SessionLoop.PassIsBounded | src/ws/Server.cpp:36-50 | a pass of the loop takes at most PassLeft steps of the server thread |
| SessionLoop.EveryPassCleans | src/ws/Server.cpp:49-65 | a pass that finds the server running takes the mutex for a clean-up |
| SessionLoop.PassReleases | src/ws/Server.cpp:81-83 | at the end of a pass every session its clean-up took out has been released |
| SessionProgress.WaitsGoDown | src/ws/Server.cpp:18-34 | every wait inside the protocol, for sessionsMtx or in a join, also the joins done with the mutex held, goes to a thread of lower rank that has not ended |
| SessionProgress.RootMoves | src/ws/Server.cpp:18-86 | for every set of calls that get no answer: at the end of every chain of waits stands a thread that can move or is in such a call, and one that others wait for is held up exactly in the upgrade of a new connection or, under the mutex with an untorn session, in the broadcaster's write, closing handshake or teardown or the stopping thread's teardown |
| SessionProgress.DeadlockFree | src/ws/Server.cpp:18-86 | so no reachable state of the protocol is stuck, but for these calls |
| SessionProgress.SilentClientHoldsStop | src/ws/ServerRequestAcceptor.cpp:24 | as long as the client sends no request, no continuation of any length ends the wait of stop for the server thread |
| SessionProgress.StalledPeerHoldsStop | src/ws/Session.cpp:92-102 | as long as the peer neither takes nor sends data, no continuation ends the wait of stop for the mutex |
| SessionProgress.OpenPeerHoldsStop | src/ws/Session.cpp:65-72 | as long as the peer neither sends data nor closes its end, no continuation ends stop's teardown of its session, nor gives back the mutex |
| SessionProgress.JoinedIsDown | src/ws/Session.cpp:19-22 | a session whose thread is being joined has lost its socket and its running flag |
| SessionProgress.JoinIsBounded | src/ws/Session.cpp:19-22 | from when a session is told to stop and torn down its thread takes at most ThreadLeft steps in any run, so a join of it returns |
| SessionProgress.ServerJoinIsBounded | src/ws/Server.cpp:22-23 | over any stretch of a run in which stop joins the server thread, that thread takes at most ServerLeft steps |
| SessionProgress.StopIsBounded | src/ws/Server.cpp:25-33 | after the join stop itself takes at most StopLeft steps in any run, and with none left it has returned |
| SessionProgress.BcastIsBounded | src/ws/Server.cpp:52-58 | as long as the broadcaster has sessionsMtx it takes at most BcastLeft steps, whatever the schedule |
| SessionClearup.ClearupPartitions | src/ws/Server.cpp:60-79 | with readyStates changing meanwhile, what a clean-up has kept and taken out so far is the stable partition, by one read per session made in order, of the list it found when it took the mutex |
| SessionClearup.ClearupResult | src/ws/Server.cpp:66-83 | the list it writes back and the sessions it is going to delete are the survivors and the rest of that list |
| Clearup.PositionsExact | src/ws/Server.cpp:66-77 | each side of the partition takes exactly the positions whose read said so |
| Clearup.PositionsAscend | src/ws/Server.cpp:66-77 | and takes them in increasing order |
| Clearup.StablePartition | src/ws/Server.cpp:66-77 | the k-th element of a side is the list's element at that side's k-th position: order kept, nothing lost or doubled |
| Clearup.RemoveClosed | src/ws/Server.cpp:66-77 | the in-place algorithm leaves the survivors at the front of the array and the others in toFree, both as the partition says |
| StreamingInvariant.StepKeepsInv | src/Application.cpp:191-338 | each step of control, main, decoder, encoder, broadcaster or server thread keeps the invariant on components, workers, mutexes and queue |
| StreamingInvariant.RunKeepsInv | src/Application.cpp:191-338 | it holds in every state of every run over all commands and failures |
| StreamingTheorems.StreamIsolation | src/Application.cpp:290-337 | in every stream, failed starts included, what was broadcast is an in-order prefix of what was pushed in it, and each buffer pushed was written by the output which that stream's own start built |
| StreamingTheorems.NothingLost | src/Application.cpp:258-260 | while the server exists every pushed buffer was broadcast, is in the broadcaster's hand or is queued, in this order |
| StreamingTheorems.CallbackDelivers | src/Application.cpp:249-263 | in every stream the write callback pushed, in order, all it was called with, for the header and by the encoder, but for the buffer it is busy with, and it finds a server |
| StreamingProgress.CallsAre | src/av/VideoMemoryOutput.cpp:83-86 | the record of its calls is what the outputs wrote, step by step, in the current stream |
| StreamingProgress.BroadcasterDrains | src/Application.cpp:322-337 | while a stream runs, DrainLeft steps of the broadcaster alone broadcast everything pushed |
| StreamingProgress.EachFrameCounts | src/av/Transcoder.cpp:75-125 | every packet read is decoded to its end, every frame decoded is pushed and every frame popped is encoded, each before the next |
| StreamingTheorems.RunningMeansAlive | src/Application.cpp:224-228 | RUNNING between commands means the four threads were started, live, and were not told to end |
| StreamingProgress.StartIsObeyed | src/Application.cpp:191-211 | a start command given when nothing runs makes the application RUNNING unless one of its steps throws; then the state is what it was |
| StreamingProgress.StartDoesAll | src/Application.cpp:198-228 | one that succeeds has gone through all parts of a start, in their order |
| StreamingProgress.StopIsObeyed | src/Application.cpp:213-222 | a stop command leaves the application waiting |
| StreamingProgress.SigintIsObeyed | src/Application.cpp:230-242 | after SIGINT the message thread begins no command once its current one is over, and the application ends STOPPED with nothing left |
| StreamingTheorems.HistoryIsFinal | src/Application.cpp:322-337 | over any stretch of a run, the record of a finished stream never changes, and that of the current one only grows |
| StreamingTheorems.StartsClean | src/Application.cpp:191-222 | between commands, when not RUNNING: nothing queued or in hand, no component, no worker, all mutexes free, also after a start that failed once the header was written |
| StreamingTheorems.RunningMeansUp | src/Application.cpp:191-222 | between commands RUNNING holds exactly if server, task and video components exist |
| StreamingTheorems.OneMutexEach | src/Application.cpp:258-260 | no thread ever holds two of the three mutexes |
| WholeInvariant.StepKeepsInv | src/Application.cpp:191-338 | each step of any thread of the whole application keeps both invariants and the agreement between the two halves |
| WholeRuns.StreamingRun | src/Application.cpp:191-338 | the application's part of every run of the whole is, moment by moment and step by step in the same order, a run of Streaming |
| WholeRuns.ServerRun | src/ws/Server.cpp:18-86 | the part of the latest server, from when it was built, is moment by moment and step by step in the same order a run of the session protocol |
| WholeRuns.HistoryIsFinal | src/Application.cpp:322-337 | between any two moments of a run of the whole, records of finished streams stay and that of the current one only grows |
| WholeRuns.ReleasedForGood | src/ws/Session.cpp:19-22 | between any two moments of one server in a run of the whole, a released session does not change and none is forgotten |
| WholeRuns.ClosingIsForGood | src/ws/Session.cpp:61-90 | and a session being closed never opens again |
| WholeRuns.JoinIsBounded | src/ws/Session.cpp:19-22 | and the thread of a session that was told to stop takes at most ThreadLeft steps |
| WholeRuns.StopIsBounded | src/ws/Server.cpp:25-33 | and the control thread, once it has joined the server's thread, takes at most StopLeft steps in stop |
| WholeRuns.CastsAreBounded | src/Application.cpp:290-296 | while the control thread stops the server, the broadcaster takes sessionsMtx at most once for each buffer queued or in its hand, and once more if it already waits for it |
| WholeRuns.NoFault | src/Application.cpp:313-337 | no step of the whole application touches a released session or looks past the end of the session list |
| WholeRuns.NoSessionOutlivesItsServer | src/Application.cpp:290-296 | whenever there is no server, every session the last one ever accepted has been released exactly once |
| WholeTheorems.WaitsGoDown | src/Application.cpp:230-311 | every wait of main, control, decoder, encoder, broadcaster, server or any session's thread, for any of the three mutexes or in any join, also those done under sessionsMtx, goes to a thread of lower rank that has not ended |
| WholeTheorems.RootMoves | src/Application.cpp:230-337 | whatever calls get no answer, at the end of every chain of waits stands a thread that moves or is in such a call, and one that others wait for is held up exactly in the camera read, the upgrade, or under sessionsMtx in a write, closing handshake or teardown of the broadcaster or a teardown of the control thread |
| WholeTheorems.DeadlockFree | src/Application.cpp:230-337 | so in every reachable state of the whole application |
| WholeTheorems.StopStaysHeld | src/Application.cpp:290-296 | in every run of the whole, a stop that waits for a silent client, a peer that takes no data, or one that keeps its end open stays there as long as the call gets no answer, whatever the other threads do |
| Application.RunningIff | src/Application.cpp:191-242 | after any events: RUNNING exactly if some start succeeded, no stop came after it and the process did not exit; STOPPED exactly if it exited |
| Application.Application.OnStart | src/Application.cpp:191-211 | keeps the idle invariant for every failing step, is RUNNING after it exactly if it was or no step throws, builds exactly the objects of the steps passed, in order, and leaves only the new header in the queue |
| Application.Application.OnStop | src/Application.cpp:213-222 | back to WAITTING with every component deleted once and the queue empty |
| Application.Application.Stop | src/Application.cpp:230-242 | every object ever built was deleted exactly once; a second call changes nothing |
| Application.Application.InitWs | src/Application.cpp:313-338 | server and broadcast task built, or neither |
| Application.Application.InitVideo | src/Application.cpp:244-267 | which objects exist and what the queue holds after each way it can fail |
| Application.Application.StopVideo | src/Application.cpp:269-288 | deletes what exists, the transcoder before the input and output it uses; can be repeated |
| Application.Application.StopWs | src/Application.cpp:290-311 | deletes what exists and flushes the queue if there was a task; can be repeated |
| Application.Drive | src/Application.cpp:191-311 | over every sequence of events the idle invariant holds, the state is the specified one, exactly the specified objects were built, and unless RUNNING each component was deleted exactly once |
| Transducer.OutPrefix | src/av/VideoOutput.cpp:29-56 | more input only adds output at the end, whatever the codec |
| Transducer.Codec.Send | src/av/VideoOutput.cpp:22-26 | an accepted input appends its outputs to those pending; a refused one changes nothing |
| Transducer.Codec.Receive | src/av/VideoInput.cpp:77-90 | takes the oldest pending output, or says that there is none; what was taken and what is pending stay the output of what was given |
| VideoIO.VideoOutput.Encode | src/av/VideoOutput.cpp:18-59 | for every failing call and round: without a fault every available packet is written, once and in order, rescaled exactly if asked, and nothing stays pending; with one, exactly which packets were written, what stays pending, and whether it throws; one packet object allocated and freed on every exit past the send |
| VideoIO.VideoOutput.Drain | src/av/VideoOutput.cpp:29-58 | the same of the receive loop, which ends |
| Transcoder.Transcoder.Decode | src/av/VideoInput.cpp:72-93 | pushes every available frame into the filter graph, once and in order, up to a failing round; its frame object is freed once on both exits |
| Transcoder.Transcoder.DecoderBody | src/av/Transcoder.cpp:75-101 | one body of the decoder task: latch and counter after every outcome, said outright, decoder and graph, packet freed exactly once |
| Transcoder.Transcoder.PushAndDecode | src/av/VideoInput.cpp:17-28 | a packet's way through push and decode for every failing call: what the decoder was given and still holds, what the graph was fed |
| Transcoder.Transcoder.DecoderTask | src/av/Transcoder.cpp:75-101 | over any series of bodies without codec errors the decoder is given exactly the decimated packets, is empty at every send, the graph is fed all it makes of them in order, and as many packets are freed as allocated |
| Transcoder.Transcoder.InitSkip | src/av/Transcoder.cpp:71-73 | with a quotient that fits 16 bits, k * E <= D < (k + 1) * E |
| Transcoder.FilterGraph.Flush | src/av/FilterGraph.cpp:35-42 | ends, and leaves the graph empty unless it refused the end of stream |
| Transcoder.FilterGraph.Pop | src/av/FilterGraph.cpp:117-119 | takes the oldest frame the graph holds, or reports that it holds none |
| Decimator.BumpCycles | src/av/Transcoder.cpp:91-94 | the unsigned short counter stays below max(1, k), never wraps, and counts modulo max(1, k) |
| Decimator.Decimates | src/av/Transcoder.cpp:82-94 | from a zero counter exactly the packets at the multiples of max(1, k) are decoded, so n packets leave ceil(n / max(1, k)) |
| Decimator.NeverStarves | src/av/Transcoder.cpp:71-94 | kept * D >= n * E for every n exactly when D >= E |
| Decimator.StaysUnderTwice | src/av/Transcoder.cpp:71-94 | (kept - 1) * D < 2 * n * E while D / E fits the unsigned short |
| Decimator.PassesTwice | headers/av/Transcoder.hpp:17-18 | once it does not fit, the bound fails at two periods and one packet |
| Decimator.UnderTwiceIff | src/av/Transcoder.cpp:71-94 | for positive rates the bound holds of every series of packets if and only if D / E is below 65536 |
| Decimator.ReadErrorLatch | src/av/Transcoder.cpp:78-98 | after a failed body no later body reads, fails or decodes until the next run |
| Pipeline.StepKeepsInv | src/av/Transcoder.cpp:51-125 | each step of either thread keeps: every frame is, in order, in exactly one place between the decoder and the file |
| Pipeline.HandedIsPrefix | src/av/Transcoder.cpp:51-125 | under every schedule the frames handed to the encoder are an in-order prefix of the graph's output on the frames pushed |
| Pipeline.RefinesSequential | tests/fileTranscoder.cpp:32-40 | what the two threads have written is a prefix of what the sequential transcoder writes for every k-th packet, and all of it whenever neither thread holds anything |
| PipelineProgress.EncoderDelivers | src/av/Transcoder.cpp:103-125 | EncLeft steps of the encoder, the decoder taking none, hand on every frame the graph gave and write every packet of it |
| PipelineProgress.DecoderDelivers | src/av/VideoInput.cpp:72-93 | DecLeft steps of the decoder alone push every frame of every packet sent |
| PipelineProgress.AllRead | src/av/Transcoder.cpp:80-88 | the packets that went through the decimator are those read, in order |
| PipelineProgress.CanFinish | tests/fileTranscoder.cpp:84-90 | every run has a continuation without a further packet that has written all the sequential transcoder writes |
| Pipeline.SendsNeverRefused | src/av/Transcoder.cpp:83-88 | whenever a packet or frame is sent to a codec that codec holds nothing, so ignoring push's result loses nothing |
| Pipeline.TranscodeSequentially | tests/fileTranscoder.cpp:84-90 | the sequential loop computes the specification the pipeline refines |
| Pipeline.OnDecoded | tests/fileTranscoder.cpp:32-40 | push, then pop and encode until the graph is empty, keeps written = encoded graph output |
| LoopThread.StepKeepsInv | src/runtime/LoopTask.cpp:12-20 | each step of owner, thread or another thread that clears the flag keeps the invariant |
| LoopThread.NothingRunsAfterStop | src/runtime/Thread.cpp:11-14 | after stop(true) has returned no body is in progress, begins or finishes until a thread is spawned again |
| LoopThread.OneMoreAtMost | src/runtime/LoopInside.cpp:11-18 | once the flag was cleared at most one body begins and at most one finishes before it is raised again |
| LoopThread.EndsOnlyWhenTold | src/runtime/LoopInside.cpp:16-18 | a thread that has ended was started, and the flag was cleared after the start or between the last raise before it and the start |
| LoopThread.GoesRound | src/runtime/LoopTask.cpp:17-20 | while the flag stays up a live thread stays alive and goes round test, begin and finish, one body for three steps |
| LoopThread.OneBodyInThree | src/runtime/LoopTask.cpp:17-20 | any three steps of it in a row begin exactly one body and finish exactly one |
| LoopThread.EachCallCounts | src/runtime/LoopTask.cpp:12-15 | each call of run raises the flag and starts a thread, but for one over a thread not joined; each stop clears the flag; each stop(true) that returned has joined |
| LoopThread.StopsAreIdempotent | src/runtime/LoopTask.cpp:8-10 | however often a stopped thread is stopped again, no call blocks and nothing changes but the record of the calls |
| LoopThread.JoinNearsItsEnd | src/runtime/Thread.cpp:11-18 | while stop joins, each step of the thread brings its end nearer, nobody else moves it, and the join can return exactly when no step is left |
| Exceptions.Exception.Copy | src/exceptions/Exception.cpp:18-25 | copying a chain of any length builds all new nodes with the same contents in the same order |
| Exceptions.Exception.Chained | src/exceptions/Exception.cpp:27-29 | a new exception in front of a fresh copy of the given chain |
| Exceptions.Exception.Delete | src/exceptions/Exception.cpp:43-45 | frees the chain's nodes and nothing else, the innermost exception first |
| Exceptions.Distinct | src/exceptions/Exception.cpp:43-45 | a chain has no node twice, so each is freed once |
| Exceptions.DeleteCopy | src/exceptions/Exception.cpp:18-45 | deleting a copy frees as many nodes as it has, none of the original's, and leaves the original unchanged |
| Exceptions.DeleteOriginal | src/exceptions/Exception.cpp:18-45 | deleting the original frees exactly its nodes, and the copy keeps the original's contents |
| Exceptions.Exception.DecodeST | src/exceptions/Exception.cpp:81-98 | shows exactly the frames between the two cuts, numbered from 0, with the wrap-around of size_t |
| Exceptions.WrapShowsIff | src/exceptions/Exception.cpp:85-91 | the wrap-around shows frames that should be cut exactly if the stack is shorter than the bottom cut and longer than the top cut; never with 2 and 1 |
| Exceptions.ShownAre | src/exceptions/Exception.cpp:88-95 | which frames are shown, one by one |
| Exceptions.Exception.What | src/exceptions/Exception.cpp:54-79 | the loop writes the report of the whole chain |
| Exceptions.ReportNamesAll | src/exceptions/Exception.cpp:54-79 | that report names every message in chain order, numbered 0 to n - 1, and no other |
| Exceptions.ReportAt | src/exceptions/Exception.cpp:54-79 | the text about the k-th exception, its number, message, label and frames, stands behind those of the k exceptions before it |
| Status.MainLoop.Iteration | src/Application.cpp:106-131 | an iteration that sees a change leaves the state of its third read in the file if that can be written, one that sees none changes nothing, and no update stays pending |
| Status.FromLastUpdate | src/Application.cpp:108-129 | the loop's copy and the file come from two different reads of the last iteration that saw a change |
| Status.StaleIff | src/Application.cpp:103-131 | after an iteration that sees no change the file is wrong exactly if the last update remembered the current state and wrote another |
| Status.FileIsCurrent | src/Application.cpp:103-131 | if the state changes at most once between comparisons, it never is |
| Status.FileNamesState | src/Application.cpp:103-131 | said of the events of the application: if at most one of them changes the state from one comparison to the next and the file can be written, then after an iteration during which none did the file names the application's state |
| Status.StaleForGood | src/Application.cpp:108-129 | with two changes in one iteration it stays wrong for any number of quiet iterations |
| Status.StaleInProcess | src/Application.cpp:108-129 | the same of the application's events: a start between assignment and write, then a stop, leave RUNNING in the file of an application that waits |
| Status.Process | src/Application.cpp:60-76 | driven by any events of the application: the main loop ends exactly if the process is told to exit, the last write then finds the state STOPPED and leaves it in the file if it can be written, and before that the file is what the specification says of the states read |

## Left out

- Boost.Beast, Asio and libav are not part of this model: their calls are results chosen freely, or transducers. A call on a session's socket is taken to return once the socket is torn down; the camera read, the upgrade of a connection, and reads, writes, closing handshakes and teardowns of a session may not return; every other call is taken to.
- HTTP upgrade checks and response headers, option dictionaries, pixel formats, filter argument strings: library plumbing.
- The message queue and JSON parsing: commands are a sequence of events, and each step of a start succeeds or throws.
- `Application::exit` with a nonzero code and the missing-argument path, where `stop` uses the message listener before it exists.
- Commands handled before src/Application.cpp:104, whose assignment of WAITTING can overwrite their result, and SIGINT delivered to a thread other than main.
- Exceptions that are not the repository's own `Exception`: src/Application.cpp:202 does not catch them.
- The window between the broadcaster's test of `server` and its call at src/Application.cpp:336 against the delete at :294: a stopped server counts as an empty object that outlives the broadcaster.
- Data races on the plain bool and enum flags: memory is taken to be sequentially consistent.
- Values instead of objects for concurrent code: the transition systems hold sessions, queue and threads as values, so update in place and aliasing appear there only as the release count and the fault flag; the in-place form of clearup is in `Clearup.RemoveClosed`.
- SessionProgress.StopIsBounded: bounds on steps and a thread that can always step; schedulers and their fairness are not modelled.
- Sessions inside `Streaming` alone: there a broadcast, a clean-up and the closing of all sessions are single steps; `Whole` puts the protocol's steps in their place.
- The session's message type (`setType`) and the content of messages.
- Pipeline.RefinesSequential: assumes that no library call fails; frame release when `encode` throws (src/av/Transcoder.cpp:115-121) is not modelled.
- VideoInput::read with its own packet (src/av/VideoInput.cpp:35-49) and rescaling of packets on input: not used by, or not visible to, the transcoder's control flow.
- FilterGraph::flush with an output, flushing the codecs at the end of a file, and a filter graph that refuses a frame in `onDecoded`.
- Decimator.StaysUnderTwice: integer time bases, as the code divides them; real frame intervals of a camera are not modelled.
- Virtual functions of `Exception`'s subclasses, and the slicing of a subclass when a chain is copied.
- SDL display, latency statistics, the signal map, status text printing and the other test programs.
