# slick-net: verified models of its concurrent protocols and parsers

slick-net is a C++ WebSocket, HTTP and HTTP-stream client on top of Boost.Asio and Beast. Around the I/O it has a
small number of hard parts: lock-free coordination between user threads and service threads, and incremental parsing.
This project models those parts in Dafny and proves what the code's own comments promise about them.

| part | files |
|---|---|
| the write-chain gate and the websocket write chain | `WriteChain`, `WriteChainProofs`, `WriteChainDrain`, `WriteChainReach`, `WriteChainSends`, `WriteChainWitness` |
| the websocket service thread | `ServiceThread`, `ServiceThreadProofs`, `ServiceThreadProgress`, `ServiceThreadReturns`, `ServiceThreadLifecycle` |
| the generations of an HttpStream | `HttpStream`, `HttpStreamProofs`, `HttpStreamTheorems`, `HttpStreamOutcome`, `HttpStreamSilence`, `HttpStreamProgress`, `HttpStreamWitness` |
| the handoff of a shared read buffer | `BufferHandoff`, `BufferHandoffProofs`, `BufferHandoffProgress`, `BufferHandoffCalls`, `BufferHandoffWitness` |
| the event-stream parser | `SseSpec`, `SseCost`, `SseParser`, `SseRoundTrip` |
| the epochs of the HTTP service, and response delivery | `HttpEpoch`, `HttpEpochProofs`, `HttpEpochDelivery`, `HttpEpochProgress`, `ResponseDelivery` |
| URL parsing and printing | `Url`, `UrlMeaning` |
| what they share: options, counting the threads at a point | `Wrappers`, `Tally` |

`dafny verify dfyconfig.toml` checks all of it.

## How the concurrent parts are modelled

Each is a transition system: a `State`, a `Step` for every atomic access or handler, `Enabled` and `Apply`. `Run` plays
a schedule, `Reachable` quantifies over all schedules and over any number of threads (sequences of any length), and
`Inv` is the inductive invariant from which the results follow. A weak compare-and-swap may fail spuriously: the `Call`
and `Cas` steps say so with a parameter.

The write chain is modelled under total store order. Every thread has a FIFO store buffer; a publish and a release of
the gate enter it and reach memory in a later `Flush`; fences and read-modify-writes wait for it to drain. The parameter
`fences` switches the two fences of the gate off one by one, to show that each is needed. The queue is a log of slots
that are reserved in one step and published in another, so it has holes.

An await of an HttpStream session takes any number of operations one after another. A cancel ends the operation that is
pending; between two of them it finds none.

The parser, the delivery of a response and the URL functions are objects and methods as in the C++ code, proved against
an independent specification: a per-byte automaton, a declarative split into lines, a round trip.

## Where code and comments differ

- `abandon` promises that the next producer to publish finds no chain and starts one
  (`include/slick/net/detail/write_chain_gate.hpp:95-98`). There is no fence behind that release. A producer finds the
  gate free exactly when the release has left the store buffer of the service thread (`ClaimAfterAbandon`), and
  `AbandonStrands` is a run in which it has not. Without a write error nothing is ever stranded.
- The state word of an HttpStream packs the generation above two status bits of 64. That loses nothing exactly while
  the generation is below 2^62 (`PackRoundTrip`).
- After close() an HttpStream promises no more onConnected, onData or onError but one already running
  (`include/slick/net/http_stream.hpp:68-70`). A close() from another thread can return between the check of the session
  and its call, and the callback then begins: `DataBeginsAfterClose` is such a run. A generation that is over is heard
  of again exactly if its session had passed the check (`HeardAgainIffCommitted`), once, and never if close() was called
  from a callback of the stream (`CloseInCallbackSilences`).
- close() promises to cancel whatever the session waits on but a DNS lookup (`include/slick/net/http_stream.hpp:66-68`).
  The cancel ends a wait exactly if one of its operations is pending at that moment, it is no lookup, and it is not a
  connect that goes on with another address of the host (`CancelEndsWaitIff`). An await that takes several operations
  has moments with none pending: then its handler begins the next one, and a closed session waits on with no cancel
  outstanding (`ReadOutlivesCancel`, and `LookupOutlivesCancel` for the lookup). These are the only such waits
  (`CancellationComplete`), and whatever they return is thrown away (`LateResultIsDropped`).
- The event-stream parser says each byte is examined once (`include/slick/net/detail/sse_parser.hpp:10-11`). That holds
  of a body exactly if it lies inside an ignored line, is only the LF of a CRLF cut in two, or is empty (`ReadOnceIff`).
  Every other body has bytes that are read twice or three times: to find the end of the line, to match or copy them, to
  look for the LF behind a CR. `data:x` with its LF takes 15 reads for 7 bytes (`DataLineReads`). What the comment is
  for does hold: the reads of a body are between one and three a byte (`ReadsBounds`), three are reached at any length
  (`CrReads`), and cutting the body into pieces adds none (`ReadsAppend`, `SseParser.FeedBody`).
- A payload comes back out of the event-stream parser exactly if it is not empty, has no CR and does not begin with LF
  (`RoundTrip`): an empty leading `data:` line adds nothing.
- A URL printed from its parts parses back to them exactly if the host has none of `/?#` and is either free of colons
  and not opened by `[`, or has colons and no `]` (`UrlRoundTrip`).

## Model

| member | source | states |
|---|---|---|
| WriteChainProofs.NeverStranded | include/slick/net/detail/write_chain_gate.hpp:64-93 | In every reachable state, with any number of producers and any delay of their stores: a readable record at the cursor with the gate free has somebody still going to claim it, unless the chain was abandoned on a write error |
| WriteChainProofs.NoWriteErrorNoStrand | include/slick/net/detail/write_chain_gate.hpp:16-33 | A run without `abandon` strands no record |
| WriteChainProofs.ClaimAfterAbandon | include/slick/net/detail/write_chain_gate.hpp:95-102 | After an abandoned chain a send sees the gate free if and only if the release has reached memory |
| WriteChainProofs.AtMostOneChain | include/slick/net/detail/websocket_impl.hpp:456-540 | Posted wakeups and resumes, a parked chain, frames in flight, a claimed gate and a handler that owns it are one in all while the gate is held and none while it is free |
| WriteChainProofs.WrittenIsPrefix | include/slick/net/detail/websocket_impl.hpp:488-504 | The frames handed to the socket are a prefix of the reservation order, each record once, no two writes outstanding, the cursor committed exactly for what was taken |
| WriteChainProofs.ParkedIsResumed | include/slick/net/detail/websocket_impl.hpp:434-443 | In every run in which the websocket is not detached in its callback, a parked chain is about to be resumed once the session is CONNECTED |
| WriteChainProofs.StepKeepsInv | include/slick/net/detail/websocket_impl.hpp:456-540 | Every step of a send, a store buffer, the chain or the session keeps the invariant |
| WriteChainDrain.DrainStepDecreases | include/slick/net/detail/websocket_impl.hpp:463-504 | With no send going on, each step of the drain lowers a measure on unread records and the place of the chain |
| WriteChainDrain.DrainGoesOn | include/slick/net/detail/websocket_impl.hpp:486-504 | A connected chain that is not at rest always has a step to take |
| WriteChainDrain.QuietIsDone | include/slick/net/detail/write_chain_gate.hpp:75-83 | A connected chain at rest has written every record of the queue |
| WriteChainDrain.DrainWritesEverything | include/slick/net/detail/websocket_impl.hpp:456-504 | Every drain is bounded, and where it can go no further all records have been handed to the socket in order |
| WriteChainReach.ChainStepLowers | include/slick/net/detail/websocket_impl.hpp:456-504 | While a given slot is ahead of a connected chain, each step of the chain lowers its distance to it, and meeting a slot not yet visible adds twelve |
| WriteChainReach.OtherStepKeeps | include/slick/net/detail/write_chain_gate.hpp:64-73 | No step of a send, a store buffer or the session adds to that distance, claims included |
| WriteChainReach.SlotIsReached | include/slick/net/detail/websocket_impl.hpp:486-504 | However many sends go on meanwhile, the chain takes a given slot after at most its distance and twelve for each hole it meets, chains that end at a hole and are restarted included |
| WriteChainReach.VisibleIsReached | include/slick/net/detail/write_chain_gate.hpp:16-33 | A record with no hole in front of it is taken after at most twenty steps of the chain for each record ahead and thirty-nine more, whatever the sends do |
| WriteChainReach.WaitGoesOn | include/slick/net/detail/write_chain_gate.hpp:64-93 | A record at the cursor of a connected websocket is never waited for in vain: a step of a send under way, of a store buffer or of the service thread is possible, with no new send |
| WriteChainSends.SendWorks | include/slick/net/detail/websocket_impl.hpp:646-683 | Whatever happens meanwhile, a send that is let in and returns has put its record into the queue behind all that was there, where the chain can see it |
| WriteChainSends.SendCanReturn | include/slick/net/detail/websocket_impl.hpp:646-683 | A send under way can return within eight steps of its own and of its store buffer |
| WriteChainSends.SendIsLetIn | include/slick/net/detail/websocket_impl.hpp:646-651 | A send is let in if and only if the websocket is CONNECTING or CONNECTED |
| WriteChainWitness.BothFencesNeeded | include/slick/net/detail/write_chain_gate.hpp:23-33 | Whichever of the two fences there are: nothing but a write error ever strands a record if and only if both are there |
| WriteChainWitness.UnfencedSendStrands | include/slick/net/detail/write_chain_gate.hpp:64-72 | Without the fence of a send, a record is stranded in some run with no write error in which every send has returned, whether or not the chain has its own |
| WriteChainWitness.UnfencedChainStrands | include/slick/net/detail/write_chain_gate.hpp:85-93 | The same without the fence of the chain, whether or not the sends have theirs |
| WriteChainWitness.AbandonStrands | include/slick/net/detail/write_chain_gate.hpp:95-102 | With the fences, a run in which a send after a write error leaves its record to the abandoned chain |
| WriteChainWitness.EarlySendIsWritten | include/slick/net/detail/websocket_impl.hpp:456-517 | A run in which a record sent while CONNECTING is parked, resumed at CONNECTED and written |
| ServiceThreadProofs.ExclusiveOwner | src/websocket.cpp:8-21 | No two threads are ever at a point that touches the thread object; that point is never on the service thread and lies in starting or stopping |
| ServiceThreadProofs.ThreadObjectSafe | src/websocket.cpp:41-48 | A join finds a joinable thread that is not the caller, an assignment finds none, and stopped leaves nothing joinable and nothing running |
| ServiceThreadProofs.OneServiceThread | src/websocket.cpp:113-129 | At most one service thread is alive |
| ServiceThreadReturns.StopWorks | src/websocket.cpp:172-220 | In every run, whichever way it returns: a stop from outside the service thread returns with every service thread ended that was there when it began, a stop from a callback with `run_` false |
| ServiceThreadReturns.StartWorks | src/websocket.cpp:89-125 | A start from outside the service thread returns only if at some moment of the call the service was running or starting |
| ServiceThreadReturns.LoopFollowsSwitch | src/websocket.cpp:138-154 | A step begins to poll only with busy polling on, and to block only with it off |
| ServiceThreadReturns.BusyOffHolds | src/websocket.cpp:61-65 | Busy polling switched off stays off until it is switched on |
| ServiceThreadReturns.ServesAgain | src/websocket.cpp:142-155 | A stop of the io_context that was not meant to end the service is undone within six steps of the loop |
| ServiceThreadLifecycle.CanStart | src/websocket.cpp:89-170 | From every reachable stopped state any outside thread can start the service and return |
| ServiceThreadLifecycle.CanStop | src/websocket.cpp:172-220 | From every reachable state in which it runs, or was asked to stop, any outside thread can stop it and return |
| ServiceThreadLifecycle.CanRestart | src/websocket.cpp:108-125 | A service that a callback has asked to stop can be started again, the old thread joined first |
| ServiceThreadLifecycle.CallbackCanStop | src/websocket.cpp:188-203 | A callback can ask its own service to stop and return, with `run_` false and the join still owed |
| ServiceThreadLifecycle.CallCanReturn | src/websocket.cpp:89-220 | Whatever call a thread is in, and wherever the others are, some schedule lets it return |
| ServiceThreadProofs.StopNeverLost | src/websocket.cpp:34-39 | Running implies `run_`; a loop that is in `run()`, or about to be, with `run_` false has the io_context stopped or a requester about to stop it |
| ServiceThreadProofs.RunningIsServed | src/websocket.cpp:127-169 | While the state is running, and from the assignment on, the thread object holds a live service thread that has not left its loop |
| ServiceThreadProofs.EndedLeavesStopped | src/websocket.cpp:163-166 | A service thread that has ended has left the io_context stopped |
| ServiceThreadProofs.BusyPollWakes | src/websocket.cpp:61-70 | With busy polling on, a loop in `run()` has been or is about to be woken |
| ServiceThreadProofs.StepKeepsInv | src/websocket.cpp:89-220 | Every step of a start, a stop, a busy-poll switch or the service loop keeps the invariant |
| ServiceThreadProgress.OwnStepLowers | src/websocket.cpp:89-220 | Each step of the owner, and of the thread it joins, lowers a measure, whatever it does |
| ServiceThreadProgress.OwnershipIsBounded | src/websocket.cpp:89-220 | In every run the ownership is over after at most the measure of such steps, and ten more for each new call |
| ServiceThreadProgress.MoverIsEnabled | src/websocket.cpp:96-125 | While the thread object is owned, the owner or the thread it joins has a step to take |
| ServiceThreadProgress.OwnershipEnds | src/websocket.cpp:89-220 | From every state that satisfies the invariant a schedule no longer than the measure ends the ownership: a start with the service running, a stop with it stopped, the call returned |
| ServiceThreadProgress.WaiterIsReleased | src/websocket.cpp:96-125 | No deadlock: every thread that spins or joins can be released within 1300 steps |
| HttpStream.PackRoundTrip | src/http_stream.cpp:98-109 | The status always survives the packing, the generation if and only if it is below 2^62 |
| HttpStreamProofs.StepKeepsInv | src/http_stream.cpp:214-375 | Every step of open, close, the strand's handlers and the session keeps the invariant |
| HttpStreamTheorems.NoOpenStranded | src/http_stream.cpp:312-354 | A generation not yet served has the serve loop running past its exit check, a serve handler queued, or an opener about to post one |
| HttpStreamTheorems.OpenStarts | src/http_stream.cpp:214-227 | When an open that found a generation over has done its work a newer generation has begun, whatever CAS it lost |
| HttpStreamTheorems.OpenWorks | src/http_stream.cpp:214-237 | An open that is called while the stream is DISCONNECTED has returned only with a newer generation begun |
| HttpStreamTheorems.ParsedIsBlocks | src/http_stream.cpp:414-551 | A trace the event automaton accepts is a concatenation of blocks `(connected data*)? error? disconnected`, one for each generation in order, and the beginning of the next |
| HttpStreamTheorems.CallbacksAreBlocks | src/http_stream.cpp:335-375 | The callbacks of every run are such a trace: generations never interleave |
| HttpStreamTheorems.ExactlyOneDisconnected | include/slick/net/http_stream.hpp:58-64 | No generation is told twice that it is over; at every loop head all served ones have been told once, at quiescence all ones, and the stream is DISCONNECTED |
| HttpStreamOutcome.SessionIsReported | src/http_stream.cpp:356-551 | A session that comes to its end with its generation still open has called onConnected if and only if the server accepted the request, behind all awaits in order; onError if and only if an await, the TLS setup or a read failed or the server refused; onData for every event read; it read until the end of the response or a failure, and shut TLS down if and only if it had been accepted over TLS |
| HttpStreamOutcome.ConnectedHasSession | src/http_stream.cpp:483-489 | CONNECTED is said only while the session that made it so is there, and said from before onConnected for as long as an open stream is read |
| HttpStreamTheorems.SilentAfterClose | src/http_stream.cpp:239-309 | Once a generation is over it stays over, and at most one callback that a check has let through still runs, however the run goes on |
| HttpStreamSilence.HeardAgainIffCommitted | include/slick/net/http_stream.hpp:68-70 | A generation that is over is heard of again in some run if and only if its session has passed the check for one more callback |
| HttpStreamWitness.DataBeginsAfterClose | src/http_stream.cpp:498-502 | A run in which close() has returned, no callback is running, and the next step begins an onData of the closed generation |
| HttpStreamSilence.CloseInCallbackSilences | include/slick/net/http_stream.hpp:66-72 | A close() called from a callback of the stream: not one report of its generation from the call on, in any run |
| HttpStreamSilence.ReportWasSeenOpen | src/http_stream.cpp:473-543 | Behind every onConnected, onData and onError of every run there is an earlier step of the session at which the generation was open, and from there on the session is only on its way to that call |
| HttpStreamTheorems.CloseEnds | src/http_stream.cpp:298-310 | When a close has done its work the generation it first saw is over for good, whatever CAS it lost |
| HttpStreamTheorems.CloseWorks | src/http_stream.cpp:239-256 | A close has returned only with the generation over that was there when it was called |
| HttpStreamTheorems.SessionCommitsNothing | src/http_stream.cpp:284-296 | No check lets a callback through for a generation that is not open at that step |
| HttpStreamTheorems.WordMovesForward | src/http_stream.cpp:214-227 | No step takes the state word back to an earlier generation or an earlier status of the same one |
| HttpStreamTheorems.OldSessionHarmless | src/http_stream.cpp:298-310 | The late end of an old session never changes the state of a newer generation |
| HttpStreamTheorems.PieceConserved | src/http_stream.cpp:497-531 | While the generation is open, events delivered plus events left of a piece stay the same at every step |
| HttpStreamTheorems.PieceDelivered | src/http_stream.cpp:524-531 | A piece whose generation is still open at its end has passed every event to onData |
| HttpStreamTheorems.CancellationComplete | src/http_stream.cpp:239-256 | A session that waits although its generation is over has a cancel queued, about to be posted or already run; one that has run has left only a DNS lookup, a connect with further addresses, or an await that was between two operations |
| HttpStreamTheorems.CancelEndsWaitIff | src/http_stream.cpp:149-152 | The cancel of a closed generation ends its session's wait if and only if an operation is pending that is no lookup and no connect going on with another address |
| HttpStreamWitness.LookupOutlivesCancel | src/http_stream.cpp:290-296 | A run in which the cancel has been and gone, the lookup goes on, and no step but a new call or the network's is possible |
| HttpStreamWitness.ReadOutlivesCancel | src/http_stream.cpp:507-522 | The same for a read whose cancel ran between two of its operations |
| HttpStreamTheorems.LateResultIsDropped | src/http_stream.cpp:290-296 | A session in any await whose generation is over begins no further stage and reports nothing in any run, however the await completes |
| HttpStreamTheorems.CancellationPrecise | src/http_stream.cpp:247-254 | No cancel reaches a wait of a generation that is still open |
| HttpStreamProgress.StepWorks | src/http_stream.cpp:214-375 | Every step but a failed compare-and-swap leaves less work than there was, but for what a new call, a further read or its events add |
| HttpStreamProgress.RetryWorks | src/http_stream.cpp:219-227 | A compare-and-swap that fails because the word has changed leaves one stale copy fewer |
| HttpStreamProgress.RunIsBounded | src/http_stream.cpp:214-375 | No run is longer than the work it starts with, what it adds, and its spurious failures |
| HttpStreamProgress.StuckIsDone | src/http_stream.cpp:335-375 | Where nothing but a new call is possible, all is quiet, the stream is DISCONNECTED and every generation ever opened has had exactly one onDisconnected |
| HttpStreamProgress.ComesToRest | src/http_stream.cpp:335-375 | From every state that satisfies the invariant a schedule no longer than its work reaches that rest |
| BufferHandoffProofs.StepKeepsInv | include/slick/net/detail/websocket_impl.hpp:126-169 | Every step of the facade, of open, and of the sessions keeps the invariant of the chain of impls |
| BufferHandoffProofs.CallsGoOn | include/slick/net/detail/websocket_impl.hpp:731-782 | While a call is in progress one of them can go on |
| BufferHandoffProgress.StepLowers | include/slick/net/detail/websocket_impl.hpp:731-782 | Each step of a call, of a deferred open and of a session on its way to its release lowers a measure; a new facade call adds at most twenty |
| BufferHandoffProgress.HandoffIsBounded | include/slick/net/detail/websocket_impl.hpp:126-169 | Every run has a bounded number of such steps, however they interleave |
| BufferHandoffProofs.OpenedAfterRelease | include/slick/net/detail/websocket_impl.hpp:752-758 | An impl is opened only after every earlier one has released |
| BufferHandoffProofs.OneHolder | include/slick/net/detail/websocket_impl.hpp:123-138 | At most one session holds the shared backend, and a session connects and reads only while it does |
| BufferHandoffProofs.ContinuedOnce | include/slick/net/detail/websocket_impl.hpp:126-169 | A continuation runs at most once, after both the set and the release, whichever comes first; at rest it has run exactly where a released impl has a successor |
| BufferHandoffProofs.ReleaseIsForwarded | include/slick/net/detail/websocket_impl.hpp:238-246 | At rest all impls have been opened and released up to the first live one, whose session runs; cancelled opens have forwarded the release |
| BufferHandoffCalls.PendingCloseIsFinal | include/slick/net/detail/websocket_impl.hpp:773-778 | A close that returns in front of a deferred open calls it off: the impl has no session in any run, and at rest, once opened, it has released |
| BufferHandoffCalls.CloseIsFinal | include/slick/net/detail/websocket_impl.hpp:615-644 | After a close of a started session its status is never CONNECTING or CONNECTED again |
| BufferHandoffCalls.DestroyIsFinal | include/slick/net/detail/websocket_impl.hpp:719-728 | The destructor detaches the last impl and calls its open off, closes a session that had started, and one not opened by then never has a session |
| BufferHandoffCalls.DetachIsFinal | include/slick/net/detail/websocket_impl.hpp:831-835 | A detached impl stays detached, and one not opened by then never has a session |
| BufferHandoffCalls.OpenReplacesSpent | include/slick/net/detail/websocket_impl.hpp:731-766 | An open that finds the last session over or its open called off has detached it and made a new impl when it returns; any other changes nothing |
| BufferHandoffCalls.FirstOpenOpens | include/slick/net/detail/websocket_impl.hpp:767-770 | The first open makes one impl, opens it, and returns behind that |
| BufferHandoffCalls.ReplacedIsClosed | include/slick/net/detail/websocket_impl.hpp:747-751 | A session that had started by the time it is replaced is down for good |
| BufferHandoffCalls.FacadeKeepsStatus | include/slick/net/detail/websocket_impl.hpp:615-625 | No call of the facade takes a status back |
| BufferHandoffCalls.StatusTellsOpen | include/slick/net/detail/websocket_impl.hpp:238-265 | An open past its checks is CONNECTING, a session begins so unless closed, and an open that was called off leaves DISCONNECTED |
| BufferHandoffWitness.ReconnectReads | include/slick/net/detail/websocket_impl.hpp:731-770 | A run in which a closed session hands the buffer to the one opened behind it, which connects and reads |
| SseSpec.BodyIsLines | include/slick/net/detail/sse_parser.hpp:10-15 | The per-byte automaton gives the events of the declarative split into lines, and the partial last line as its state |
| SseSpec.CutsDoNotMatter | include/slick/net/detail/sse_parser.hpp:10-11 | Any sequence of pieces gives the events and the state of the whole body |
| SseCost.ReadsAppend | include/slick/net/detail/sse_parser.hpp:10-11 | The reads of a body are those of any two parts of it: no byte is read again by a later piece |
| SseCost.ReadsBounds | include/slick/net/detail/sse_parser.hpp:31-46 | Every byte is read, and none more than three times |
| SseCost.ReadOnceIff | include/slick/net/detail/sse_parser.hpp:10-11 | A body is read once a byte if and only if it lies inside an ignored line, is the LF of a CRLF cut in two, or is empty |
| SseCost.DataLineReads | include/slick/net/detail/sse_parser.hpp:75-94 | One data line of seven bytes takes fifteen reads, three of them of the first byte of its value |
| SseCost.CrReads | include/slick/net/detail/sse_parser.hpp:38-45 | Three reads a byte are reached by bodies of every length |
| SseParserModel.SseParser.Feed | include/slick/net/detail/sse_parser.hpp:21-47 | The bulk scan ends in the events and the state of the automaton, and reads exactly as often as the sum over the bytes says |
| SseParserModel.SseParser.FeedBody | src/http_stream.cpp:507-531 | Feeding pieces one after another gives the events and the state of the whole body, in exactly the reads of the whole body |
| SseParserModel.SseParser.Reset | include/slick/net/detail/sse_parser.hpp:50-55 | Every state goes back to the start of a body |
| SseParserModel.SseParser.FindLineEnd | include/slick/net/detail/sse_parser.hpp:67-72 | The first line ending at or behind the position, and how many bytes were read for it |
| SseParserModel.SseParser.ConsumeLineContent | include/slick/net/detail/sse_parser.hpp:75-102 | A run of line content changes the state as the automaton does byte by byte, in exactly the reads the bytes account for |
| SseParserModel.SseParser.EndTheLine | include/slick/net/detail/sse_parser.hpp:104-113 | A blank line dispatches non-empty data, any line end starts a line |
| SseRoundTrip.EncodedFed | include/slick/net/detail/sse_parser.hpp:75-113 | Encoded payloads behind earlier events are delivered in order and leave the parser at the start of a line |
| SseRoundTrip.DeliveredIsDeliverable | include/slick/net/detail/sse_parser.hpp:13-15 | No body whatever delivers data that is empty, has a CR or begins with LF |
| SseRoundTrip.RoundTrip | include/slick/net/detail/sse_parser.hpp:21-113 | Encoding payloads and feeding them in any pieces gives the payloads back if and only if each is non-empty, has no CR and does not begin with LF |
| SseRoundTrip.Deliver | include/slick/net/detail/sse_parser.hpp:21-113 | The same of the parser object itself |
| HttpEpochProofs.StepKeepsInv | src/http.cpp:364-382 | Every step of start, shutdown, the I/O thread and the callback threads keeps the invariant |
| HttpEpochProofs.ShutdownAbandons | src/http.cpp:530-560 | When the shutdown that won the CAS is done, the service threads have ended and every request of an earlier epoch is abandoned |
| HttpEpochProofs.ShutdownReturns | src/http.cpp:546-560 | From the winning CAS on, along every run: every request made by then is abandoned when that shutdown is about to return, and in every later state not being stopped |
| HttpEpochProofs.StepKeepsAbandoned | src/http.cpp:312-335 | No step starts or posts the callback of an abandoned request or brings it back |
| HttpEpochProofs.AbandonedForever | src/http.cpp:303-335 | Nor does any run, across any number of restarts and shutdowns |
| HttpEpochProofs.StartedOnce | src/http.cpp:276-278 | The callback of a request is started once if the delivery got as far as starting it, and not at all otherwise |
| HttpEpochDelivery.DroppedOnlyByShutdown | src/http.cpp:312-335 | A request is dropped only if a shutdown has moved the epoch on since it was made |
| HttpEpochDelivery.TakenIsInHand | src/http.cpp:312-335 | A request that a service thread has taken up is at that thread, whose next step takes it on |
| HttpEpochDelivery.ExecutorKeepsItsCallback | src/http.cpp:317-323 | A callback with an executor never reaches the callback threads |
| HttpEpochDelivery.RunningDelivers | src/http.cpp:317-334 | While the service runs its threads are alive; a callback is queued only if there is a callback thread, and run by the I/O thread only if there is none or it has an executor |
| HttpEpochDelivery.StartedInFull | src/http.cpp:370-382 | The service comes up with as many callback threads as were asked for |
| HttpEpochDelivery.StartLeavesNoneStopped | src/http.cpp:364-369 | A request never leaves the service stopped |
| HttpEpochDelivery.ShutdownWorks | src/http.cpp:530-544 | A shutdown returns only if at some moment of the call the service was stopped or being stopped |
| HttpEpochProgress.CanStart | src/http.cpp:364-382 | From every reachable stopped state any caller can start the service with any number of callback threads |
| HttpEpochProgress.CanShutdown | src/http.cpp:530-560 | From every reachable running state any caller can shut it down, its threads gone and its epoch moved on |
| HttpEpochProgress.CanDeliver | src/http.cpp:312-335 | From every reachable running state a request in flight can be delivered: started if its epoch is the current one, dropped if not |
| HttpEpochProgress.NewRequestCanRun | src/http.cpp:280-335 | Every request made while the service runs is taken in and can have its callback started |
| HttpEpochProofs.OneOwner | src/http.cpp:364-382 | The service threads are created and joined by one caller at a time, and none is alive before the first is created |
| HttpEpochProofs.JoinGoesOn | src/http.cpp:551-560 | A shutdown that joins can finish or some thread can move; no thread takes up new work and each step of one leaves less |
| ResponseDeliveryModel.ResponseDelivery.constructor | src/http.cpp:280-289 | The delivery owns the executor it was given, if any, and the current epoch |
| ResponseDeliveryModel.ResponseDelivery.Move | src/http.cpp:291-300 | Executor and callback change hands; the source's storage holds nothing constructed |
| ResponseDeliveryModel.ResponseDelivery.Deliver | src/http.cpp:312-335 | Exactly one of abandoning, posting, running inline and queueing, with the executor destroyed once if posted and kept if abandoned |
| ResponseDeliveryModel.MoveAndDeliver | src/http.cpp:278-343 | However often a delivery is moved, its outcome is that of the first, and no executor is destroyed twice or unconstructed |
| Url.SchemeEquals | include/slick/net/detail/url.hpp:19-31 | ASCII case-insensitive equality, both ways |
| Url.Parse | include/slick/net/detail/url.hpp:40-90 | The narrowing parser gives, error cases included, what the specification of the round trips gives; what it accepts is well formed and of the scheme it names, or of the secure one |
| Url.Format | include/slick/net/detail/url.hpp:92-111 | What the appending printer gives splits into the host and the digits it was given if and only if the host allows it |
| Url.AcceptedShape | include/slick/net/detail/url.hpp:33-90 | Every accepted URL has a port in 1-65535, a target that begins with a slash and has no fragment, and a host that ends before them |
| UrlMeaning.SplitIffMeans | include/slick/net/detail/url.hpp:57-74 | An authority is split into a host and a port if and only if that is what its text means - brackets, one colon, or an address with several - and refused if it means nothing |
| UrlMeaning.BadBracketIff | include/slick/net/detail/url.hpp:59-64 | A bracket is refused if and only if it is not closed, or closed in front of anything but the end or a colon |
| UrlMeaning.RestMeaning | include/slick/net/detail/url.hpp:51-90 | For every authority, tail and fragment: the host, the port or its default, and the target, which is `/` in front of a query without a path; or which error |
| UrlMeaning.BadPortIff | include/slick/net/detail/url.hpp:76-82 | A port is refused if and only if the authority means one that is not a number from 1 to 65535 |
| UrlMeaning.WithScheme | include/slick/net/detail/url.hpp:40-50 | A scheme in front is the plain one, the secure one, or an error |
| UrlMeaning.WithoutScheme | include/slick/net/detail/url.hpp:33-42 | Without a delimiter in front of the path, the query and the fragment the scheme is the secure one |
| UrlMeaning.BareAddress | include/slick/net/detail/url.hpp:70-74 | An unbracketed authority with several colons is the host as it stands, with the default port |
| UrlMeaning.DelimiterInTarget | include/slick/net/detail/url.hpp:33-42 | A delimiter behind the start of the path or query is part of the target |
| UrlMeaning.AnyCase | include/slick/net/detail/url.hpp:19-31 | A scheme is matched in any letter case and no other way |
| Url.PortDigits | include/slick/net/detail/url.hpp:105-109 | The digits of every port fit the buffer of five and read back as the port |
| Url.AuthorityRoundTrip | include/slick/net/detail/url.hpp:57-74 | A printed authority splits into its host and digits if the host allows it, and never into the same host if not |
| Url.UrlRoundTrip | include/slick/net/detail/url.hpp:33-111 | scheme, authority and target parse back to exactly their parts, in any letter case, if and only if the host allows it |
| Url.HostHeaderRoundTrip | include/slick/net/detail/url.hpp:113-117 | The same with the Host header value, which drops the default port |
| Url.FragmentDropped | include/slick/net/detail/url.hpp:33-51 | A fragment changes nothing of what is parsed, even when it holds a scheme delimiter |

## Left out

- The concurrent files as classes with mutating methods: a method contract sees no interleaving, so their objects are
  values changed by one atomic step at a time. Aliasing between them is not modelled.
- Sockets, DNS, TLS, HTTP framing and timers: every await completes in any way.
- `slick::queue` and the slick read buffer: an unbounded log with an atomic reserve and a plain release publish, and no
  overrun of the ring.
- Relaxed memory other than the write chain's: only the gate flag and the publish of a slot go through store buffers,
  all other accesses are sequentially consistent, and models weaker than total store order are not covered.
- Handlers queued on one executor run one at a time, but in any order.
- SilentAfterClose: the header promises that nothing but a callback already running follows close(). The code does not
  keep that, so the contract allows the one callback a check has let through; `HeardAgainIffCommitted` says when.
- What the operations of an await are, and how many it takes: any number, each ending when it will.
- Sends larger than the queue takes, logging, and statistics.
- Generations from 2^62 on in the HttpStream machine.
- Callbacks that throw, failing allocations and failing thread creation.
- Exactly one onDisconnected for a Websocket: its session completion and `on_close` can both report it.
- A second `Http::shutdown` or `HttpStream::shutdown` returns while the first still joins; only the one that won the CAS
  is claimed to have joined. A call of either from a callback of its own service is not modelled.
- Calls of the Websocket facade from several threads at once.
- Fairness: progress is proved as a bound on the steps of every run and as a step that is always possible; that a
  scheduler takes it, and that a request is finally delivered, is not claimed.
- The synchronous HTTP contexts, the start and stop of the HttpStream service, `src/logging.cpp` and `src/tls.cpp`:
  easier than what is here.
- The rest of the event-stream format (event, id and retry fields), as in the class itself.
