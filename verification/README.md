# Verified model of the ThingBlock link helper

The helper is a local WebSocket server between a browser editor and two back ends: an `arduino-cli` daemon reached over
gRPC (compile, upload, flash, platform install, serial monitor) and a Bluetooth LE adapter. This project models its two
session engines as step systems whose parts may interleave in any order, models the code those steps are made of, and
proves what a browser may rely on. `dafny verify dfyconfig.toml` checks all of it.

## How it is built

- **Text coalescing and the writer** (`Batch`, `WriterModel`, `WriterLatency`, `WriterTask`). `Coarsens` says that one response sequence
  is another with neighbouring chunks of one stream glued together; `Expand` forgets chunk boundaries altogether. The
  class `Writer` is the writer task: buffer, timer, biased select. It is proved against `WriterModel`.
- **Streams and pumps** (`Frames`, `FrameMeaning`, `Pumps`). `Frames` translates daemon frames; the class `EventStream` is the unfold
  that skips empty frames and stops after an error, `RunPump` the biased select loop on top. `Outcome` is the independent
  account of what a request must be told for a given stream and moment of cancellation, and `Tells` says the same in plain
  words. `FrameMeaning` says what each of the daemon's frames is worth.
- **One flash session** (`Conversation`, `Tasks`, `TaskCourses`, `MonitorLink`, `FlashSession`, `FlashBookkeeping`,
  `FlashConversations`, `FlashOrigins`, `FlashTheorems`, `FlashReplies`, `FlashCancels`, `FlashLateCancel`, `FlashReuse`,
  `FlashTeardown`, `FlashProgress`, `FlashMonitor`, `FlashSerial`). `FlashSession` interleaves
  the read loop (one step per await), the spawned tasks, the monitor pump and its command channel, the bounded response
  channel and the writer; the socket may fail after any number of frames. The class in `SessionObject` holds the
  session's fields, and its methods are proved to be the steps that `FlashSession` interleaves.
- **The daemon** (`Installs`, `Daemon`). Installs of all sessions against the one install lock, `Init` as a copy of the
  data directory into what compiles see, and the dial loop. Taking the lock and draining an `Init` are steps of `Installs`.
- **BLE** (`BleTransport`, `BleScans`, `BleStops`, `BleSession`). The shared radio with its scan generation; any number of sessions
  and scan tasks over it; one session's own maps under its event loop.

Where a property needs a hypothesis of the code's own, the theorem says so: request ids are non-empty and never reused
within a session (`UsesFreshId`, or `UsesIdleIds` for scans); an adapter that obeys (`AdapterObeys`); an honest clock
(`HonestClock`); a daemon that has reloaded its data once an `Init` has come to its end (`HonestInit`). For the first two
there is also the exact condition (`TokensAgreeIffIdsAreIdle`, `AskReachableIffIdIsIdle`, `OwnedUnlessOrphaned`), and a run
from the initial state that shows a token lost and an adapter left scanning (`ReuseLosesAToken`,
`AFailedSubscriptionLeavesTheAdapterScanning`).

The doc comment on `dispatch` (src/service/arduino/bridge.rs:67-68) promises exactly one terminal to each request. The
code has three exceptions, which the model keeps and `EveryRequestIsAnsweredOnce` spells out: `cancel` and a
`monitorWrite` with a monitor held get none, and `monitorOpen` gets a `result` that serial data and one `error` may follow.

## Model

| member | source | states |
|---|---|---|
| Batch.CoarsensPush | src/server/batch.rs:17-38 | Pushing a response coalesced onto a buffered suffix only ever glues: order, ids, variants and text survive |
| Batch.CoalesceIsNormal | src/server/batch.rs:15-38 | Folding the push over any responses glues neighbours only and leaves no two neighbours that could still be glued |
| Batch.NormalFormIsUnique | src/server/batch.rs:15-38 | A sequence is the fold's result if and only if it is a regluing of the input without gluable neighbours: the normal form exists and is unique |
| Batch.RechunkingIsInvisible | src/server/batch.rs:15-16 | Chunk boundaries inside a run do not matter: any regluing of the input coalesces to the same frames |
| Batch.SameNormalForm | src/server/batch.rs:15-38 | Two sequences coalesce alike if and only if they have a common regluing |
| Batch.CoalescedLength | src/server/batch.rs:15-38 | One frame per maximal run of one stream |
| Batch.CoalescedIsShortest | src/server/batch.rs:1-2 | No regluing of the input has fewer frames |
| Batch.CoarsensExpand | src/server/batch.rs:15-16 | Gluing loses, adds, reorders and re-attributes no character and no message |
| Batch.CoarsensUnder | src/server/batch.rs:15-16 | Gluing the whole traffic glues each id's own traffic and nothing else, so ids never mix |
| Batch.CoarsensPicks | src/server/batch.rs:15-16 | Every frame contains a piece said under the same id and variant, and these pieces stand in the frames' order |
| WriterModel.TickIsFaithful | src/server/session.rs:145-150 | The timer arm keeps frames sent, buffered and lost an exact account of what was received, and disarms the timer |
| WriterModel.MessageIsFaithful | src/server/session.rs:157-170 | Receiving text or a prompt message keeps that account, with the timer armed exactly while text waits |
| WriterModel.ClosedIsFaithful | src/server/session.rs:152-156 | The closing flush keeps that account and ends the task |
| WriterModel.WhatTheSocketSaw | src/server/session.rs:251-260 | With the account kept: a failed socket saw an unreordered beginning of the traffic, a task that ended well sent all of it |
| WriterTask.Writer.PushCoalesced | src/server/batch.rs:17-38 | Editing the buffer's tail in place computes the specified push |
| WriterTask.Writer.Flush | src/server/session.rs:253-260 | Draining sends the buffer in order up to the first refusal, loses the rest, always leaves the buffer empty, and reports which |
| WriterTask.Writer.Receive | src/server/session.rs:157-170 | The receive arm refines the specified reaction, prompt messages leaving behind all buffered text |
| WriterTask.Writer.Poll | src/server/session.rs:143-173 | One biased poll: a due timer beats a waiting message, which beats the closed channel |
| WriterTask.Writer.Run | src/server/session.rs:130-174 | The whole task over any arrivals and clock: refines the specified life; faithful to what was received; ends well only with every message out; the timer stands 100 ms after the oldest text held back was received, and each poll leaves only text received less than 100 ms before it; for one text stream, text frames are at most elapsed/100 plus the prompt messages plus one |
| WriterTask.LifeIsTimely | src/server/session.rs:143-171 | The latency bound over any life: messages split into those sent or lost and those buffered, the timer fixed by the receipt of the first one buffered, nothing overdue after any poll |
| WriterTask.TurnIsTimely | src/server/session.rs:157-160 | One turn, whatever it takes in, leaves the timer one window after the receipt of the oldest chunk held back: arrivals never push it back |
| WriterTask.TurnKeeps | src/server/session.rs:28-30 | One turn keeps faithfulness and the frame-rate account of a single stream |
| WriterTask.WriterFinishes | src/server/session.rs:151-156 | Once every message has arrived and every sender is gone the task ends, within two polls for each message and three more; it ends well if the socket takes as many frames as there are messages |
| WriterTask.NothingIsTakenEarly | src/server/session.rs:151 | Over any life no message is taken before it has arrived |
| Conversation.PhaseSettled | src/service/arduino/bridge.rs:67-68 | The automaton reaches a settled phase if and only if the bodies are streamed ones followed by exactly one terminal |
| Conversation.PhaseMonitor | src/service/arduino/bridge.rs:233-242 | The monitor phases are reached if and only if the bodies are a result, serial data, and at most one final error |
| Conversation.PhaseOfCoarser | src/server/batch.rs:15-16 | Gluing chunks never changes what phase a conversation is in |
| Frames.EventsSplit | src/service/arduino/grpc/platform.rs:92-115 | Translating a stream in two parts gives the same events as in one, the download label carried across the cut |
| Frames.LabelSticks | src/service/arduino/grpc/platform.rs:139-171 | The label in force after any items is that of the latest download start, or empty if there was none |
| Frames.UpdateCarriesLatestLabel | src/service/arduino/grpc/platform.rs:155-160 | Each sized Update yields one progress event, in its frame's place, under the label of the latest start |
| Frames.PercentsClimb | src/service/arduino/grpc/platform.rs:142-171 | In the translation of a whole stream, between two starts and with the counter never falling inside one total, the progress events of the Update frames stand in order under one label, with percentages in 0 to 100 that never fall, whatever other frames come between |
| FrameMeaning.OutputIsLogged | src/service/arduino/grpc/compile.rs:90-92 | A tool's text, and a finished download's message on a line of its own, is one line event in its frame's place in the stream's events |
| FrameMeaning.ProgressIsNamed | src/service/arduino/grpc/compile.rs:93-101 | A stage's frame is one progress event with its percentage, under its name, or under its message if it has none |
| FrameMeaning.StartIsAnnounced | src/service/arduino/grpc/platform.rs:148-154 | A download's start is one progress event of zero under its label |
| FrameMeaning.SuccessIsHandedOver | src/service/arduino/grpc/compile.rs:102-104 | A result frame is one finishing event that hands over the artifact found, or an empty object |
| FrameMeaning.FailureIsLast | src/service/arduino/grpc/platform.rs:165-169 | A failed status, a build without artifact and a failed download each are one failure with the daemon's words, or what failed and where, and nothing behind it is ever yielded |
| FrameMeaning.OnlyFailuresFail | src/service/arduino/grpc/platform.rs:163-169 | A frame's events hold a failure if and only if the frame reports one; a download that ended well never fails |
| FrameMeaning.MuteFramesYieldNothing | src/service/arduino/grpc/platform.rs:161-164 | Empty frames, updates of unknown size and silent ends of downloads yield nothing |
| FrameMeaning.LogsAreTheOutput | src/service/arduino/grpc/upload.rs:84-94 | The lines of a whole stream's events are its frames' output texts, all of them, in order, and nothing else |
| Pumps.EventStream.Read | src/service/arduino/grpc/platform.rs:102-111 | One frame read yields the next event, if any, of the stream's full translation (what each frame is worth is in FrameMeaning); an error ends the stream |
| Pumps.EventStream.Next | src/service/arduino/grpc/compile.rs:66-82 | The skip loop yields the next event and reads nothing past its frame; after an error or the end it yields nothing |
| Pumps.OutcomeUpToFailure | src/service/arduino/grpc/compile.rs:61-83 | The stream's own stop after an error cannot be told apart behind the select loop |
| Pumps.OutcomeIsAnswered | src/service/arduino/bridge.rs:393-394 | The specified outcome always is streamed bodies and then exactly one terminal |
| Pumps.OutcomeTells | src/service/arduino/bridge.rs:429-454 | The specified outcome is, in plain words: a log of each line's text and a progress of each stage's name and percentage before the first deciding event; then the very result handed over, or an error with the failure's code and words (the reinit's for an install whose reinit failed), or what was left undone if the stream just ended; cut short with a cancelled error at the poll that saw the token |
| Pumps.TellingIsUnique | src/service/arduino/bridge.rs:418-455 | That description fixes every body but the wording of a final error |
| Pumps.FailureReports | src/error.rs:8-38 | An error's message names its kind and ends with what went wrong |
| Pumps.React | src/service/arduino/bridge.rs:429-454 | The body sent shows the event, or concludes the request as its deciding event, the stream's end or a failed reinit demands |
| Pumps.RunPump | src/service/arduino/bridge.rs:418-455 | The biased loop tells the request exactly what it is owed, for every stream and every moment of cancellation, takes only the events it needs, and reads no frame, not even an empty one, past that of the last event it took |
| Pumps.Serve | src/service/arduino/bridge.rs:608-647 | Stream and loop together tell the request what it is owed about the plain translation of all its frames; what is read ends with the deciding frame, so that one frame less would not do, or is the whole stream if its end decides |
| MonitorLink.OutboundProtocol | src/service/arduino/grpc/monitor.rs:73-107 | The daemon is sent a beginning of: the open request, the commands in order, at most one close, nothing after it; all of it once the close is out |
| MonitorLink.LinkSendsWhatWasPulled | src/service/arduino/grpc/monitor.rs:92-103 | Read off the messages alone: the open request comes first and once, their data are the data of the writes pulled, in order, and a close is among them, last and once, if and only if one was pulled |
| MonitorLink.EveryInterleavingIsOk | src/service/arduino/grpc/monitor.rs:73-107 | Both hold over every interleaving of sends, pulls and disconnections of either end |
| MonitorLink.LinksTakeABurst | src/service/arduino/bridge.rs:24-26 | Thirty-two commands may wait for a living stream, a sender waits only behind that many, and then the stream can take one; a stream that has gone holds nobody up |
| Tasks.MoveIsOk | src/service/arduino/bridge.rs:418-455 | Run one await at a time, a task always stands at a point of its specified outcome, and is decided as cancelled only with its token set |
| Tasks.UncancelledIsPlain | src/service/arduino/bridge.rs:418-455 | A request whose token was never set is answered as if cancelling did not exist |
| Tasks.CancelWinsThePoll | src/service/arduino/bridge.rs:419-428 | A token set when the select is polled decides the request as cancelled, whatever the stream holds |
| Tasks.ReinitIsReported | src/service/arduino/bridge.rs:626-635 | An install that has seen its Done reports how the reinit came out, cancelled or not |
| Tasks.TaskPhase | src/service/arduino/bridge.rs:393-394 | A task has sent a terminal, and it last, exactly when it is at its end |
| Tasks.MoveLowersRank | src/service/arduino/bridge.rs:418-455 | Every move uses up a bound that the task starts with |
| TaskCourses.EveryOutcomeHappens | src/service/arduino/bridge.rs:418-455 | Conversely every specified outcome, for every kind, stream, moment of cancellation and reinit, is one a task can reach |
| TaskCourses.EveryRefusalHappens | src/service/arduino/bridge.rs:412-415 | So is the refusal of a stream to start, in whatever words |
| SessionObject.Session.HandleText | src/server/session.rs:207-236 | Handling any envelope is one Ask step of the session system |
| SessionObject.Session.FinishTask | src/service/arduino/bridge.rs:374-391 | A task's end is one step: deregister by id, then drop what it owned, the last owner removing the directory |
| SessionObject.Session.DrainTokens | src/server/session.rs:196-198 | The drain loop leaves the map empty and has fired exactly the tokens that were in it, in any order |
| SessionObject.Session.CancelInFlight | src/server/session.rs:196-198 | The drain is one step of the session system |
| FlashBookkeeping.ActKeepsRoster | src/service/arduino/bridge.rs:110-303 | Every step keeps each task in agreement with its pump's outcome and the only one ever spawned under its id |
| FlashOrigins.TasksServeTheirRequests | src/service/arduino/bridge.rs:112-303 | Over any run a task exists under an id if and only if the request asked under it passed its checks; it is of that request's kind (a firmware flash with its staged copy) and is fed that request's stream |
| FlashBookkeeping.ActKeepsFlight | src/service/arduino/bridge.rs:128-157 | Every step keeps the token map in agreement with the running tasks |
| FlashBookkeeping.CancelReachesOneTask | src/service/arduino/bridge.rs:150-157 | A cancel fires the running task of its id and changes nothing else in the session |
| FlashBookkeeping.SpawnAgreesIffIdIsIdle | src/service/arduino/bridge.rs:130-133 | Registering a task keeps map and tasks in agreement if and only if no running task bears that id |
| FlashBookkeeping.ActKeepsScratch | src/utils/tempdir.rs:37-43 | Every step keeps: at most one compile directory, alive with the session or any of its compiles, removed exactly once after; a staged copy for exactly the running flashes |
| FlashBookkeeping.ActKeepsMonitor | src/server/session.rs:54-55 | Every step keeps at most one monitor and one pump, none while another is opened or the session winds down |
| FlashBookkeeping.ActKeepsLink | src/server/session.rs:108-120 | Every step keeps the outbound protocol and lets no write in behind a close |
| FlashConversations.RunKeepsSession | src/server/session.rs:124-203 | Over any run with fresh ids every invariant holds and every id has been told what its request's standing allows |
| FlashTheorems.WireConservation | src/server/session.rs:130-174 | In every reachable state, sent, buffered and queued text and messages spell out all that was said while the channel is open; what was sent is always a beginning of it |
| FlashTheorems.EveryRequestIsAnsweredOnce | src/service/arduino/bridge.rs:67-307 | When the writer ends well each id has on the wire what it is owed: one terminal and nothing after it; a monitor's transcript; for monitorWrite nothing if a monitor was held at dispatch and one error if not; other ids have nothing |
| FlashTheorems.NothingFollowsATerminal | src/service/arduino/bridge.rs:67-68 | At every moment, socket failures included, nothing has followed a terminal on the wire, but for data under a monitor's id |
| FlashReplies.RepliesAreRight | src/service/arduino/bridge.rs:77-109 | Over any run each request the read loop answers itself gets the reply right for it, alone: the boards listed, that it is done, or an error with the code and words of what was wrong, be it found by its checks or by the daemon; on the wire when the writer ends well |
| FlashReplies.ThePortIsTheLastChosen | src/server/session.rs:91-97 | Over any run the session remembers the port connected last, and none after a disconnect |
| FlashReplies.GarbledMessagesAreRefused | src/server/session.rs:207-224 | Over any run the empty id is told of each malformed message, in order, what was wrong with it, and nothing else |
| FlashTheorems.WireRefinesThePump | src/service/arduino/bridge.rs:418-455 | What a spawned request received on the wire is, up to gluing, what its pump owes it about the stream of the request asked under its id and the moment its token was seen, in plain words as well as by the specification; or the very error with which that stream failed to start; as cancelled only if its token was set |
| FlashCancels.FailuresAreTheDaemons | src/service/arduino/bridge.rs:412-415 | Over any run, a refusal to start or a failed reinit that a request reports, code and detail, is one the daemon gave to that request |
| FlashCancels.CancelledOnlyIfAsked | src/service/arduino/bridge.rs:150-157 | Over any run a token is set only by a cancel under its own id or by the teardown |
| FlashCancels.UncancelledRequestsRunTheirCourse | src/service/arduino/bridge.rs:418-455 | A request answered before anyone cancelled it has on the wire, whatever follows, exactly what its own request's stream brings about: each line, each stage, and the result or failure |
| FlashTheorems.TokensAreTheRunningTasks | src/service/arduino/bridge.rs:110-133 | In every reachable state before teardown the map's keys are the running tasks' ids, each with its own token; after it the map is empty and every running task is cancelled |
| FlashReuse.TokensAgreeIffIdsAreIdle | src/service/arduino/bridge.rs:128-133 | Over any run whatsoever, map and running tasks agree in every state if and only if no task is spawned under the id of one still running |
| FlashReuse.ReuseLosesAToken | src/service/arduino/bridge.rs:385-390 | A concrete run from a fresh session: an id reused after its error reached the browser, a running task whose token is gone, and a cancel that changes nothing |
| FlashTheorems.RefusedRequestsRegisterNothing | src/service/arduino/bridge.rs:120-133 | A request refused during dispatch has no token |
| FlashTheorems.CancelledTasksFallSilent | src/service/arduino/bridge.rs:418-428 | After its token fires a task's responses are bounded over any continuation, whatever else happens |
| FlashTheorems.CancelIsAnsweredPromptly | src/service/arduino/bridge.rs:418-428 | In any reachable state with a task's token fired, every continuation has it send at most one more response before its terminal; and wherever it stands at its select, even awaiting a silent stream, the helper alone can bring it to its cancelled terminal, taking nothing from the stream |
| FlashLateCancel.TwinsStep | src/service/arduino/bridge.rs:150-157 | A session in which a decided task's token is fired and one in which it is not allow the same steps, send the same, and stay alike |
| FlashLateCancel.LateCancelIsInvisible | src/service/arduino/bridge.rs:150-157 | A cancel for a decided, finished or unknown id changes neither the possible runs nor the wire after any of them |
| FlashTeardown.StepLowersMeasure | src/server/session.rs:193-203 | After the read loop ends every step lowers a measure over tasks, monitor, channel and buffer |
| FlashTeardown.TeardownIsBounded | src/server/session.rs:193-203 | After the read loop ends no run is longer than that measure |
| FlashTeardown.NeverStuck | src/server/session.rs:193-203 | While anything of a session that winds down is left, the helper itself can make a step, unless it waits for the daemon to start a call, to reinit, or to end a monitor whose close is already accepted; and then the daemon can: the bounded channels never close a circle of waits |
| FlashConversations.ChannelsTakeABurst | src/server/session.rs:25-26 | Sixty-four responses may wait; a sender waits only behind that many and only while the writer is there to take one |
| FlashTeardown.TeardownLeavesNothing | src/server/session.rs:193-203 | Once the read loop of any session has ended no continuation is longer than the measure, and one that can go no further has left no token, task, pump, writer or directory |
| FlashTeardown.TheWriterFinishesFirst | src/server/session.rs:200-202 | Over any run the session returns only after its writer has finished or its socket has failed |
| FlashMonitor.MonitorsTakeTurns | src/service/arduino/bridge.rs:235-266 | Over any run, in what was said and on the wire, a monitor's output all precedes the reply to the close that ends it and any later monitor's result and data |
| FlashSerial.OutboundOverAnyRun | src/server/session.rs:108-120 | Over any run the messages sent to the daemon are the open request, then messages whose data are a beginning of the data of the monitorWrite requests since the port was opened, untouched and in order, then at most one close; a session that let go of a living stream has had a close accepted last, and a stream pulled to its end has sent all of the writes and the close |
| FlashSerial.MonitorsRelayWhatComesIn | src/service/arduino/bridge.rs:342-369 | Over any run a monitor's id is told its result and then everything its port sends, untouched and in order, up to the first fault; when the writer ends well that is on the wire |
| FlashProgress.QuietRunsAreBounded | src/service/arduino/bridge.rs:67-369 | Left alone, a session goes on for no longer than its measure plus what the one port still being opened will send |
| FlashProgress.QuietSessionsAnswerEverything | src/service/arduino/bridge.rs:67-68 | Any reachable session whose browser asks no more goes on within that bound; and whenever the helper has nothing left to do by itself and awaits no call, stream, reinit or end of a closed monitor, every id has been answered as it is owed, on the wire if the socket lives |
| FlashProgress.OthersAreNotHeldBack | src/server/session.rs:176-191 | Any request can be made of a session that reads, and whatever the daemon is waited for it may answer in any way |
| Installs.InstallsAreSerialized | src/service/arduino/bridge.rs:279-303 | Across all sessions at most one install exists, its lock held past its terminal; another request is refused if and only if one exists |
| Installs.InstallsAreThoseAccepted | src/service/arduino/bridge.rs:269-303 | Over every run the install tasks are those asked for while none was running, in order, each for the platform asked for |
| Installs.ResultsAreVisible | src/service/arduino/bridge.rs:588-635 | A platform whose install got a result is visible to compiles then and in every later state |
| Installs.AnswersFollowTheInit | src/service/arduino/bridge.rs:626-635 | Over every run an install is answered with a result if and only if its reinit succeeded, and results are sent for those platforms only |
| Installs.AnInstallCanSucceed | src/service/arduino/bridge.rs:588-635 | An install can always go well; then its platform is on disk, visible and promised, and the lock is free again |
| Installs.AnInstallCanFail | src/service/arduino/bridge.rs:603-644 | An install may be cut short while it downloads, and its reinit may fail at any time; it is then answered without a result and frees the lock |
| Daemon.ConnectWithRetry | src/service/arduino/daemon.rs:175-193 | The first dial that connects wins; all before it failed short of the deadline; at most 51 dials |
| Daemon.DaemonHandle.Reinit | src/service/arduino/daemon.rs:90-96 | Draining an Init is a run of the install system's steps; item errors are tolerated, a broken stream fails it, and success means compiles see the whole data directory |
| BleTransport.Ble.StartScan | src/service/ble/transport.rs:74-82 | Starting hands out a new generation and makes the adapter scan for it, or leaves it as the failed calls did |
| BleTransport.Ble.ReleaseScan | src/service/ble/transport.rs:130-138 | Releasing a stale generation is a no-op; the current one stops the adapter |
| BleTransport.Ble.Notice | src/service/ble/transport.rs:87-126 | An event is a hit if and only if it resolves and passes this scan's services and name prefix; only hits join the cache |
| BleTransport.HitsFitTheFilter | src/service/ble/transport.rs:242-246 | A hit is a resolved device that shares a service with the filter, if that names any, and whose name continues the prefix, if there is one |
| BleScans.GenerationsIncrease | src/service/ble/transport.rs:76-82 | Over any run generations are handed out in strictly increasing order |
| BleScans.ScansHitWhatTheyAsked | src/service/ble/session.rs:237-256 | Over any run the scans are those sessions asked for, each with its own filter, and a scan's hits are the devices noticed for it that pass that filter, all of them, in order |
| BleScans.EveryScanKeepsItsContract | src/service/ble/session.rs:256-310 | Over any run each scan says hits of its own filter and nothing else until it is over, and then exactly one terminal; it releases once if it ran and never otherwise, and its hits stay connectable for good |
| BleStops.CancelledScanEnds | src/service/ble/session.rs:272-280 | Wherever a cancelled scan stands, its own steps alone, with no event taken, bring it to its end: one release and one stopped reply, unless its terminal was chosen before |
| BleStops.ScansAdvanceBoundedly | src/service/ble/session.rs:272-310 | Over any run scans take no more steps forward than their rank, five for each new scan and one for each hit |
| BleStops.GoneSessionsLeaveNothing | src/service/ble/session.rs:506-510 | When every browser has gone and only the adapter's own doing is left to happen, every scan of every session is over with its one terminal said, and an adapter that has obeyed is idle |
| BleStops.OthersAreNotHeldBack | src/service/ble/session.rs:256-310 | Any browser request can be made at any time, and each adapter call of a scan may succeed or fail, its stream yield anything, or end |
| BleScans.ConnectableIffShown | src/service/ble/transport.rs:154-163 | Over any run a device can be connected if and only if some scan of some session has hit it |
| BleScans.CancelledOnlyByItsOwnSession | src/service/ble/session.rs:317-322 | Over any run a scan is cancelled only by its own session's cancel under its id or by its own session's teardown |
| BleScans.CancelReachesItsScan | src/service/ble/session.rs:317-322 | A cancel tells the pending scan of its session and id to stop, gives up its token, and leaves every other scan, token and the adapter alone |
| BleStops.CancelStopsItsScan | src/service/ble/session.rs:275-280 | Over any run in which pending ids are not reused: from a browser's cancel on, the scan under its id comes to rest only when it is over, with its one terminal said |
| BleScans.TheAdapterKeepsScanning | src/service/ble/transport.rs:130-138 | From a scan's successful start to its own release or the next start, the adapter scans for it through any stale releases, cancels and teardowns |
| BleScans.OwnedUnlessOrphaned | src/service/ble/transport.rs:76-83 | A step leaves the adapter scanning for nobody if and only if the owner's event stream fails to open, its release finds another generation current, or its stop fails |
| BleScans.NoScanMeansIdle | src/service/ble/session.rs:506-510 | With an adapter that obeys, over any run and any sessions, no live scan means an idle adapter |
| BleScans.AFailedSubscriptionLeavesTheAdapterScanning | src/service/ble/transport.rs:80-83 | A concrete run in which opening the events fails and the adapter scans on with no scan alive |
| BleScans.AskReachableIffIdIsIdle | src/service/ble/session.rs:252 | A new scan keeps all scans within reach of cancel and teardown if and only if no pending scan of the session has its id |
| BleScans.TeardownReachesAll | src/service/ble/session.rs:506-510 | A teardown tells every pending scan of its session to stop |
| BleScans.TeardownSilencesTheSession | src/service/ble/session.rs:506-510 | Over any run in which pending ids are not reused, every scan of a torn-down session is over or has its token fired, in every later state |
| BleStops.GoneScansEnd | src/service/ble/session.rs:256-310 | After its session has gone a scan comes to rest only when it is over, its one terminal said and its generation released once if it ran |
| BleSession.Session.HandleScan | src/service/ble/session.rs:235-313 | Registers a token for an accepted scan, answers a bad uuid at once |
| BleSession.Session.HandleCancel | src/service/ble/session.rs:315-322 | Fires and forgets the token of that id only |
| BleSession.Session.HandleConnect | src/service/ble/session.rs:324-374 | A reconnect replaces the connection and aborts the orphaned pump, the first one starts the watch, a failed one changes nothing |
| BleSession.Session.HandleDisconnect | src/service/ble/session.rs:376-387 | Forgets device and pump before the adapter is asked, so also when it then fails |
| BleSession.Session.HandlePeripheralDisconnect | src/service/ble/session.rs:474-496 | A relayed event is announced and forgets the device if connected here, and is ignored otherwise |
| BleSession.Session.Teardown | src/service/ble/session.rs:498-514 | Whatever order the maps drain in: every pump aborted, every token fired, every remaining device asked exactly once |
| BleSession.Session.Run | src/service/ble/session.rs:83-110 | The whole loop over any requests, bad frames and relayed events, then the teardown, refines the books' specification |
| BleSession.BooksHoldThroughout | src/service/ble/session.rs:359-387 | At every loop head connections and pumps agree and are one-to-one, the running pumps are exactly those in the map, and a connection implies the watch |
| BleSession.ConnectedIffLastLinked | src/service/ble/session.rs:324-387 | A device is connected if and only if its latest event that counts was a successful connect |
| BleSession.EveryWakeIsAnswered | src/service/ble/session.rs:119-156 | Over any history each request is answered with what it asked for or what went wrong, transfers and disconnects according to whether the history left the device connected; relayed disconnects are announced for connected devices only, and just the connected devices a browser disconnects are asked to go |
| BleSession.CancelsFireTheirScan | src/service/ble/session.rs:315-322 | Over any history a cancel finds and fires the token of the scan last accepted under its id, unless it was cancelled since |
| BleSession.WithoutAdapterNothingHappens | src/service/ble/session.rs:158-170 | Without an adapter every request is refused and no state ever changes |
| BleSession.TeardownStopsEverything | src/service/ble/session.rs:498-514 | After any history and teardown no pump ever spawned runs, every token held has fired, and exactly the devices still linked were asked to disconnect |

## Left out

- axum, HTTP, CORS, static serving and the cloud binary: the socket is a sink that takes some number of frames and then fails.
- tonic, btleplug and tokio internals: a channel is a bounded FIFO, a token a flag that only rises, a lock an optional owner, an RPC a finite sequence of frames, the adapter its current scan and its events.
- Tray, status window, icons, the HTML page, process spawning, port picking, configuration paths: user interface and operating system effects.
- `ResourceRoot` path resolution, firmware copying, sketch writing and the naming of temporary directories: only whether they succeed; a failed sketch write is a task that never started.
- JSON, base64, UUID parsing and lossy UTF-8 decoding: a request comes parsed, with the error its arguments lead to; serializing a response never fails.
- Board listing, `to_status`, `build_request`, `build_open_request`, `sketch_name`, artifact search, error-code tables: single expressions.
- The flash session's read loop is not one method: between its awaits other parts run, so it is the reader's place in `FlashSession`, with `SessionObject` for the code between two awaits.
- Installs in `FlashSession` take the lock's outcome as part of the request; the lock itself, over all sessions, is in `Installs`.
- Pumps.RunPump: a cancel seen while the stream skips empty frames counts as one at the poll that began the skip; what is sent is the same.
- WriterTask.Writer.Run: the frame-rate bound is for one text stream; interleaved streams have no such bound in the code.
- Frames.PercentsClimb: percentages are reals, so f32 rounding is not modelled.
- Batch.CoarsensExpand: an empty text chunk spells nothing, so this meaning does not see it; `Coarsens` itself does.
- FlashLateCancel.LateCancelIsInvisible: says nothing of a cancel that comes before the request is decided; for that see CancelIsAnsweredPromptly.
- FlashTeardown.TeardownIsBounded, like FlashProgress.QuietRunsAreBounded, bounds steps, not time; a gRPC call that never returns is a run that stops early.
- WriterTask.LifeIsTimely: counts from the writer's receipt of a message, as the code does; time spent waiting in the channel is not bounded.
- BLE notifications, reads, writes and subscriptions: beyond needing a live connection they change nothing the session keeps. The BLE writer is a plain FIFO without batching; its channel is taken to have room.
- Nothing is claimed about a pump task between its abort and its next await.
