# Verified model of the fpfilter application

The application runs a video pipeline in which a filter bin ("main") can be taken out and put back while
frames are flowing, and in which frames with many false positives are queued for upload. Four threads
share the work: the command server, the streaming thread, the main loop with its timers, and the upload
worker. This project models them and proves what holds over all their interleavings.

## The parts

- `LiveLink.dfy`, `LiveLinkInvariant.dfy`, `LiveLinkSteps.dfy`, `LiveLinkTheorems.dfy`: live
  reconfiguration. The state holds the link graph, pipeline membership, each bin's held items and
  end-of-stream flag, the waiting probes, the heap of request copies and the command thread's position
  inside a handler. A label is one statement of a thread; a run is any sequence of labels.
- `LostItems.dfy`, `Arrival.dfy`: exactly which items the reconfiguration loses, and that all others arrive.
- `LinkRuntime.dfy`, `App.dfy`: the same code as classes whose methods change their fields in place. Each
  method's `ensures` equates the new state with the step or fold the theorems are about.
- `Prompts.dfy`: a user message as a fold of its commands over the filter's state and the save gate.
- `CommandThread.dfy`: what the command thread leaves behind depends on its own statements alone, so a message
  has one outcome under every interleaving.
- `MessageRuns.dfy`: a handled message is a run of the whole system of `EndToEnd`.
- `SaveGate.dfy`: the save gate and its one-shot timers over a timed history.
- `SaveWorker.dfy`, `SaveFrameTask.dfy`: the upload worker, the stopper and the producer, statement by
  statement, and the worker's nested loops, whose trace is a run of that system in
  which the worker makes a statement between any two turns of the others unless it is blocked.
- `StopProgress.dfy`: every pushed frame is saved and stop returns.
- `CommandChannel.dfy`: the length-prefixed packet, written and read in arbitrary positive pieces.
- `FrameSelection.dfy`: the ratio test and the batch scan.
- `EndToEnd.dfy`, `ScanCoverage.dfy`: all threads in one step system.
- `GateControl.dfy`: who moves the save gate in that system, and what is pushed while nobody does.
- `Projections.dfy`, `SystemProgress.dfy`: each part of that system makes a run of its own; its streaming thread
  is never stuck.
- `ScanRefinement.dfy`: the scan of that system pushes what the batch loop of `FrameSelection` pushes.

## Assumptions about the environment

- Static pads exist. Probes on a pad fire in the order they were installed, on the next item; a DROP stops
  the later ones for that item, an OK goes on to the next.
- Sending an end-of-stream into main drains what main holds, in order, before the end-of-stream itself
  leaves and the send returns. Main neither drops, invents nor reorders items; a pad that has seen an
  end-of-stream refuses further items. Main may pass on held items at any moment.
- The element in front of main holds nothing. Nothing follows the stream's own end.
- A bin named like one already in the pipeline is refused by the pipeline.
- A frame that did not cross the filter carries no user metadata. What a frame that did carries is left open.
- The main loop runs a due timer at most `lag` milliseconds late; `lag` is a parameter.
- A read or write moves at least one byte, and both ends of the channel run on one host.
- The inputs of the model are the parsed commands, whether a bin can be built, how transfers are cut, and
  the order in which threads move.

## Where the code does not do what one would expect

Each of these has a concrete run or input, and the exact condition beside it.

- The repository describes enabling as happening without interrupting the pipeline. The add callback drops the
  item that fired it, whatever it is; if that is the stream's end, the end never arrives
  (`EndOfStreamCanBeLost`, `DroppedEndNeverArrives`). An item is lost if and only if an add is among the callbacks
  waiting at some moment before it clears the pad (`ItemLostIffItMeetsAnAdd`); the add may come in after the item
  (`LateAddTakesTheItem`).
- `stop_save_frame_task` is commented as waiting for the queued frames to be uploaded. It waits for an
  empty queue, so the last frame may still be in flight (`StopCanReturnEarly`); everything is uploaded when it
  returns if and only if nothing is queued and none is in flight (`StopReturnsExactly`). A frame pushed after the
  worker's last look stays behind (`LateFrameCanBeLost`, `LeftBehindExactly`).
- A timer belongs to no particular opening of the gate. An older one closes a later opening early
  (`StaleTimerClosesLaterOpening`), and so does a younger one started by a command during it
  (`YoungerTimerCutsOpening`). A duration is kept if and only if nothing closes the gate explicitly and no other
  timer, older or younger, is due inside it (`DurationKeptIff`).
- The client reads up to 4095 bytes of the message file, one more than fits beside the prefix
  (`LongestFileDoesNotFit`, `FileFitsIff`).
- Skipping metadata entries of other types has no effect: the scan ends on the last entry, whatever it is, and
  reads its payload as counts (`ForeignPayloadIsCounted`, `ScanFindsFilterEntryIffLast`).
- The sum of the counts may wrap (`WrappedSumPasses`, `RatioExactly`).

## Model

| member | source | states |
|---|---|---|
| LiveLinkSteps.StepKeeps | src/ds_dynamic_link_unlink_element.c:32-153 | every step of either thread keeps graph, probe queue, bins, item flow, copies and globals consistent |
| LiveLinkSteps.RunKeeps | src/ds_dynamic_link_unlink_element.c:32-153 | the same over every run of every interleaving |
| LiveLinkSteps.InitKeeps | src/deepstream_fpfilter_app.c:1141-1203 | both configurations start consistent |
| LiveLinkSteps.AddEffect | src/ds_dynamic_link_unlink_element.c:39-65 | a firing add finds prev linked to next and an empty pipeline, so unlink and both links succeed |
| LiveLinkSteps.PadEffect | src/ds_dynamic_link_unlink_element.c:94-107 | a firing removal finds its own bin in the chain, playing and not ended |
| LiveLinkSteps.RemoveEffect | src/ds_dynamic_link_unlink_element.c:74-86 | when the injected end-of-stream comes out, main holds nothing else and the direct link is restored |
| LiveLinkSteps.PushEffect | src/ds_dynamic_link_unlink_element.c:62-107 | an item let through always finds the next element or a bin that still takes items |
| LiveLinkTheorems.WaitingRequestsMeetTheFlag | src/deepstream_fpfilter_app.c:324-362 | between commands, replaying the waiting callbacks from the graph as it is leaves exactly the remembered bin linked; flag, bin and main element agree |
| LiveLinkTheorems.WaitingRequestsMeetTheCommand | src/deepstream_fpfilter_app.c:324-362 | the same at every statement inside a command, with the two windows in which flag and probes differ |
| LiveLinkTheorems.WaitingRequestsAlternate | src/ds_dynamic_link_unlink_element.c:123-153 | waiting callbacks alternate between add and remove, starting with the one the chain needs |
| LiveLinkTheorems.DrainedGraphMatchesFlag | src/ds_dynamic_link_unlink_element.c:32-108 | once drained, the graph is prev-main-next or prev-next, as the flag says |
| LiveLinkTheorems.DeliveredSeesAPrefix | src/ds_dynamic_link_unlink_element.c:32-153 | every delivered item crossed the chain that a prefix of the accepted requests produces |
| LiveLinkTheorems.PrefixesGrow | src/ds_dynamic_link_unlink_element.c:32-153 | those prefixes grow along the delivered stream |
| LiveLinkTheorems.ClearedSeesWholeHistory | src/ds_dynamic_link_unlink_element.c:32-153 | an item that clears the pad with nothing waiting sees the whole history |
| LiveLinkTheorems.ItemsSeeEarlierRequests | src/ds_dynamic_link_unlink_element.c:123-153 | in every continuation, a delivered item saw all requests accepted before it was offered |
| LiveLinkTheorems.NothingElseIsLost | src/ds_dynamic_link_unlink_element.c:65-107 | delivered, held and in-hand items are, in order, the offered ones minus exactly those that fired an add, one per completed add |
| LiveLinkTheorems.DeliveredInOrder | src/ds_dynamic_link_unlink_element.c:32-108 | delivery is in stream order and at most once |
| LiveLinkTheorems.RemovalLosesNothing | src/ds_dynamic_link_unlink_element.c:74-107 | a removed bin passed on everything that entered it, in order, before it went to NULL |
| LiveLinkTheorems.InjectedEosStaysInside | src/ds_dynamic_link_unlink_element.c:86-105 | the injected end-of-stream never reaches the next element |
| LiveLinkTheorems.NothingEntersAfterInjectedEos | src/ds_dynamic_link_unlink_element.c:101-105 | no item enters a bin after the injected end-of-stream |
| LiveLinkTheorems.AddActsOnItsSnapshot | src/ds_dynamic_link_unlink_element.c:32-66 | an add splices in the bin named when it was requested, whatever the globals hold now, and drops the item |
| LiveLinkTheorems.RemoveActsOnItsSnapshot | src/ds_dynamic_link_unlink_element.c:89-108 | a removal sends the end-of-stream into the bin named when it was requested |
| LiveLinkTheorems.RemovalCompletes | src/ds_dynamic_link_unlink_element.c:69-87 | that bin and no other is taken out, empty, and the end-of-stream is swallowed |
| LiveLinkTheorems.CopiesAreOwnedOnce | src/ds_dynamic_link_unlink_element.c:110-121 | every live request copy has exactly one holder; none is freed twice, used after being freed or leaked |
| LiveLinkTheorems.StreamProgress | src/ds_dynamic_link_unlink_element.c:89-108 | the streaming thread is never stuck and each step brings its item nearer to its end |
| LiveLinkTheorems.ItemCompletes | src/ds_dynamic_link_unlink_element.c:32-108 | the item in hand can always be finished, and then fewer callbacks wait |
| LiveLinkTheorems.EnoughItemsObeyTheFlag | src/ds_dynamic_link_unlink_element.c:32-153 | however items and main's output interleave: once as many further items as callbacks waited have been offered and none is inside the pad, nothing waits and the graph is the one the flag asks for |
| LiveLinkTheorems.FlagIsEventuallyObeyed | src/ds_dynamic_link_unlink_element.c:32-153 | such a continuation without commands exists from every reachable state in which the stream has not ended |
| LostItems.ItemLostIffItMeetsAnAdd | src/ds_dynamic_link_unlink_element.c:32-153 | in every run, commands at any moment included, an item that is through the pad was lost if and only if an add was among the waiting callbacks at some moment before it cleared the pad |
| LostItems.ItemLostIffAddWaits | src/ds_dynamic_link_unlink_element.c:32-108 | if no further request is accepted meanwhile, what waits when the item arrives decides |
| LostItems.LateAddTakesTheItem | src/ds_dynamic_link_unlink_element.c:32-153 | a run in which no add waits when the item arrives and one accepted while main drains takes it |
| LostItems.EndOfStreamCanBeLost | src/ds_dynamic_link_unlink_element.c:32-66 | a run in which the stream's end is dropped, and no continuation delivers anything |
| LostItems.DroppedEndNeverArrives | src/ds_dynamic_link_unlink_element.c:32-66 | in every reachable state whose last offered item is a dropped end-of-stream, no continuation offers anything more or delivers an end-of-stream |
| Arrival.MainCanDrain | src/ds_dynamic_link_unlink_element.c:32-108 | in every reachable state a bin in the chain that holds something can pass it on |
| Arrival.AllArrivedIffNothingHeld | src/ds_dynamic_link_unlink_element.c:65-107 | with nothing in hand, all items offered and not dropped have been delivered, in order, if and only if main holds nothing |
| Arrival.EverythingArrives | src/ds_dynamic_link_unlink_element.c:65-107 | from every reachable state, without commands and without further items, every item not dropped can be brought to delivery |
| LinkRuntime.Runtime.constructor | src/deepstream_fpfilter_app.c:1141-1203 | the set-up links the chain the configuration asks for |
| LinkRuntime.Runtime.MakeCopyLinkUnlinkInfo | src/ds_dynamic_link_unlink_element.c:110-121 | allocates a private copy of the request |
| LinkRuntime.Runtime.AddElementToPipeline | src/ds_dynamic_link_unlink_element.c:123-137 | copies the request and installs an add at the end of the probe list |
| LinkRuntime.Runtime.RemoveElementFromPipeline | src/ds_dynamic_link_unlink_element.c:139-153 | copies the request and installs a removal at the end of the probe list |
| LinkRuntime.Runtime.AddElemProbeCb | src/ds_dynamic_link_unlink_element.c:32-66 | is the add step of the protocol, failed unlink included, and returns DROP |
| LinkRuntime.Runtime.PadProbeCb | src/ds_dynamic_link_unlink_element.c:89-108 | is the removal step of the protocol and returns OK |
| LinkRuntime.Runtime.RemoveElemProbeCb | src/ds_dynamic_link_unlink_element.c:69-87 | passes anything but an end-of-stream; on one, takes the bin out and returns DROP |
| LinkRuntime.Runtime.FireOldestProbe | src/ds_dynamic_link_unlink_element.c:32-108 | the pad's call of its oldest callback is one step of the protocol |
| App.Application.constructor | src/deepstream_fpfilter_app.c:1141-1157 | globals and gate start as configured |
| App.Application.EnableFpfilter | src/deepstream_fpfilter_app.c:324-345 | no-op if enabled or if the bin cannot be built, else new bin, gate closed, add requested, flag raised |
| App.Application.DisableFpfilter | src/deepstream_fpfilter_app.c:347-362 | no-op if disabled, else flag lowered, gate closed, removal of the remembered bin requested, bin forgotten |
| App.Application.GetFpfilterImagesSaveStatus | src/deepstream_fpfilter_app.c:281-290 | reads the gate |
| App.Application.EnableFpfilterImagesSaveDuration | src/deepstream_fpfilter_app.c:316-322 | opens the gate and starts a timer |
| App.Application.RunTimer | src/deepstream_fpfilter_app.c:308-314 | a due timer closes the gate and does not run again |
| App.Application.HandleUsrPrompt | src/deepstream_fpfilter_app.c:901-986 | the command loop is the fold of its commands; a malformed message changes nothing |
| Prompts.MessagesCompose | src/deepstream_fpfilter_app.c:936-983 | one message holding two lists of commands does what two messages would |
| Prompts.IncompleteEntriesDoNothing | src/deepstream_fpfilter_app.c:940-954 | entries lacking target or action may as well not be there |
| Prompts.MessageSwitchesFlag | src/deepstream_fpfilter_app.c:324-362 | the last effective switch decides the flag; one request is scheduled per change of the flag |
| Prompts.MessageSetsGate | src/deepstream_fpfilter_app.c:938-983 | the gate a message leaves, and one timer per opening with a duration, cast to 32 bits, in order |
| Prompts.SwitchingTwiceIsOnce | src/deepstream_fpfilter_app.c:327-354 | repeating an effective enable or disable changes nothing |
| CommandThread.CommandsDecideAlone | src/deepstream_fpfilter_app.c:324-362 | in every run the flag, the remembered bin, the request record and the accepted requests are those of the run of the command thread's statements alone |
| CommandThread.MessageUnderEveryInterleaving | src/deepstream_fpfilter_app.c:936-983 | so a message has the outcome of the fold whatever items and main's output do between its statements |
| CommandThread.HandlersFinish | src/deepstream_fpfilter_app.c:324-362 | in every run a handler ends within at most five of its own statements, whatever else moves |
| Prompts.IdleEntriesDoNothing | src/deepstream_fpfilter_app.c:327-348 | entries for somebody else, unknown actions and an enable whose bin cannot be built change nothing at all |
| MessageRuns.HandleIsRun | src/deepstream_fpfilter_app.c:938-983 | handling one entry is a run of the whole system in which only the filter's state, the gate and the timers change, as the entry says |
| MessageRuns.MessageIsRun | src/deepstream_fpfilter_app.c:936-983 | so is handling a whole message |
| MessageRuns.MessageKeepsReachable | src/deepstream_fpfilter_app.c:901-986 | whole messages keep the whole system reachable |
| MessageRuns.StartsAlike | src/deepstream_fpfilter_app.c:1141-1157 | the application starts as the system does, gate shut and no timer outstanding |
| Prompts.MessageKeepsReachable | src/deepstream_fpfilter_app.c:901-986 | whole messages keep the reconfiguration protocol reachable |
| SaveGate.GateIsLastEffect | src/deepstream_fpfilter_app.c:292-322 | the gate is open exactly if the last thing that acted on it opened it |
| SaveGate.TimersFireOnce | src/deepstream_fpfilter_app.c:308-322 | each started timer is outstanding or has fired, never both, never twice |
| SaveGate.FiringFiresOne | src/deepstream_fpfilter_app.c:308-314 | a firing records that timer alone and leaves every other one outstanding, in its place, due when it was |
| SaveGate.TimerFiresInItsWindow | src/deepstream_fpfilter_app.c:308-322 | in every run each timer is outstanding until it is due, and has fired by itself once it is more than `lag` overdue |
| SaveGate.TimersAreCounted | src/deepstream_fpfilter_app.c:308-322 | a run fires as many timers as it has firings and starts as many as it has startings |
| SaveGate.TimeCanPass | src/deepstream_fpfilter_app.c:308-322 | any amount of time can pass without a command, due timers being run on the way |
| SaveGate.TimerMayBeLate | src/deepstream_fpfilter_app.c:308-322 | a timer may be exactly as late as `lag` allows, with the gate open until then |
| SaveGate.NothingOpensByItself | src/deepstream_fpfilter_app.c:91-92 | saving is off until asked for: in every run from the start an open gate was opened |
| SaveGate.OpeningEndsWithFirstTimer | src/deepstream_fpfilter_app.c:308-322 | an opening lasts no longer than the smallest remaining time of any timer outstanding during it |
| SaveGate.StaysOpenIff | src/deepstream_fpfilter_app.c:292-322 | in every run, once due timers have run, an open gate has stayed open if and only if nothing closed it explicitly and no timer, outstanding or started during the run, is due |
| SaveGate.DurationKeptIff | src/deepstream_fpfilter_app.c:316-322 | in every run, inside its duration an opening has lasted if and only if nothing closed it explicitly and no older or younger timer is due |
| SaveGate.DurationNotExceeded | src/deepstream_fpfilter_app.c:316-322 | in every run, an opening does not outlast its duration, once due timers have run |
| SaveGate.YoungerTimerCutsOpening | src/deepstream_fpfilter_app.c:316-322 | a run in which a younger timer ends an opening after a tenth of its duration |
| SaveGate.QuietOpenIff | src/deepstream_fpfilter_app.c:308-322 | without further commands the gate is open if and only if no outstanding timer was due |
| SaveGate.StaleTimerClosesLaterOpening | src/deepstream_fpfilter_app.c:308-322 | a run in which an old timer shuts an opening without a duration |
| SaveWorker.FramesAreConserved | src/ds_save_frame.c:46-54 | saved frames are a prefix of the pushed; the rest is in flight or queued; the counter is their sum, up to the push being counted |
| SaveWorker.PopNeverBlocks | src/ds_save_frame.c:46-48 | at the pop the queue is still non-empty, under every interleaving |
| SaveWorker.MutexClearedLast | src/ds_save_frame.c:57-60 | the mutex is destroyed free, after its last user |
| SaveWorker.WorkerSavesEverything | src/ds_save_frame.c:38-88 | with no push after the call of stop, all pushed frames are saved at exit |
| SaveWorker.LeftBehindExactly | src/ds_save_frame.c:38-62 | what is left behind is exactly what was pushed after the worker's last look |
| SaveWorker.StopReturnsExactly | src/ds_save_frame.c:76-88 | when stop has returned, what is queued was pushed after its last look, and everything is saved if and only if nothing is queued or in flight |
| SaveWorker.StopReturnsWithEmptyQueue | src/ds_save_frame.c:76-88 | with no further push, stop returns with an empty queue and at most one frame in flight |
| SaveWorker.StopLeadsToExit | src/ds_save_frame.c:38-62 | once stop has returned, the worker exits in every run that gives it enough turns, a bound that grows by three per late push |
| StopProgress.FramesAreSavedInTime | src/ds_save_frame.c:38-62 | until stop takes the mutex, every frame pushed is saved within three turns of the worker per frame ahead and four, whatever is pushed meanwhile |
| StopProgress.StopReturns | src/ds_save_frame.c:76-88 | with no further push, stop returns in every run that gives the worker the turns to save what there is and then the stopper five statements |
| StopProgress.StopCanReturn | src/ds_save_frame.c:76-88 | stop can be called in every reachable state, and such a run exists |
| StopProgress.MutualExclusion | src/ds_save_frame.c:41-87 | worker and stopper never hold the mutex together |
| SaveWorker.StopCanReturnEarly | src/ds_save_frame.c:79-87 | a run in which stop returns while a frame is being saved |
| SaveWorker.LateFrameCanBeLost | src/ds_save_frame.c:38-88 | a run in which a late frame stays in the queue |
| SaveFrameTask.Task.constructor | src/ds_save_frame.c:64-74 | the task starts with an empty queue, the flag down and the whole schedule ahead |
| SaveFrameTask.Task.SaveOne | src/ds_save_frame.c:46-54 | the body of the inner loop saves one frame in three statements and is never blocked |
| SaveFrameTask.Task.SaveQueued | src/ds_save_frame.c:46-54 | from the old state such a run leads to an empty queue, with exactly three statements of the worker per frame saved |
| SaveFrameTask.Task.SaveFrameTask | src/ds_save_frame.c:38-62 | the nested loops are a run of the protocol from the old state, with the schedule's turns in order and a statement of the worker between any two unless it is blocked; pushes and saved frames are only added; at exit all but late frames are saved; without exit, the schedule is used up and stop has not returned |
| CommandChannel.RoundTrip | src/ds_fpfilter_manager.c:58-66 | the prefix and payload read back are the ones sent, in either byte order |
| CommandChannel.PrefixBytes | src/ds_fpfilter_manager.c:58-62 | which of the two prefix bytes is the low one in either byte order |
| CommandChannel.ReadsAllItMay | src/ds_fpfilter_manager.c:100-102 | the client reads the whole file unless it is longer than 4095 bytes, and then 4095 |
| CommandChannel.FileFitsIff | src/ds_fpfilter_manager.c:100-102 | the packet fits the buffer exactly for files of up to 4094 bytes |
| CommandChannel.LongestFileDoesNotFit | src/ds_fpfilter_manager.c:100-102 | a file of 4095 bytes makes a packet one byte longer than the buffer |
| CommandChannel.PackMessage | src/ds_fpfilter_manager.c:58-66 | the buffer starts with prefix and payload |
| CommandChannel.SendBuf | src/ds_fpfilter_manager.c:58-72 | however writes are cut, the bytes sent are prefix and payload; too long a payload is told apart |
| CommandChannel.ReadBytes | src/ds_usr_prompt_handler.c:51-58 | however reads are cut, the buffer starts with the bytes asked for and is otherwise unchanged |
| CommandChannel.ReadMessage | src/ds_usr_prompt_handler.c:60-72 | the message holds the announced bytes and zeros behind them, inside the buffer |
| CommandChannel.TerminatedIff | src/ds_usr_prompt_handler.c:137-142 | the text is terminated exactly when the announced length leaves room |
| CommandChannel.ClientMessageArrives | src/ds_usr_prompt_handler.c:60-72 | everything the client can send arrives whole and terminated |
| CommandChannel.SendAndReceive | src/ds_usr_prompt_handler.c:51-72 | client and server together, writes and reads cut independently: a message that fits arrives whole and terminated, and one that does not is told apart |
| FrameSelection.RatioIsIntegerTest | src/deepstream_fpfilter_app.c:430-435 | without wrap-around the quotient test is fp >= tp with at least two objects |
| FrameSelection.RatioExactly | src/deepstream_fpfilter_app.c:430-435 | for all counts, exactly when the test means that |
| FrameSelection.WrappedSumPasses | src/deepstream_fpfilter_app.c:430-435 | counts whose sum wraps and that pass wrongly |
| FrameSelection.ScanUserMeta | src/deepstream_fpfilter_app.c:413-418 | the scan of a frame's metadata ends on the last entry |
| FrameSelection.ScanFindsFilterEntryIffLast | src/deepstream_fpfilter_app.c:413-424 | for all lists, the scan ends on the last filter entry, or on nothing when there is none, if and only if the list is empty or ends with a filter entry |
| FrameSelection.ForeignPayloadIsCounted | src/deepstream_fpfilter_app.c:413-436 | a frame without a filter entry whose foreign payload passes as counts |
| FrameSelection.PushedIsSelection | src/deepstream_fpfilter_app.c:408-443 | what is pushed is the ordered selection of exactly the frames looked at with the gate open that pass, before the first frame without metadata, each entry with its frame's number, pad and source; with no sum wrapping, those that pass are the mostly false ones |
| FrameSelection.FrameSaver.SaveFramesForProcessing | src/deepstream_fpfilter_app.c:404-445 | the batch loop appends exactly that selection, field by field, and counts it, modulo 32 bits |
| EndToEnd.StepKeeps | src/deepstream_fpfilter_app.c:404-459 | every step of the four threads together keeps scan, queue and protocol consistent |
| EndToEnd.UploadedFramesAreJustified | src/deepstream_fpfilter_app.c:405-445 | every uploaded frame crossed the linked filter, was checked with the gate open and passes the ratio test |
| EndToEnd.UploadedInStreamOrder | src/ds_save_frame.c:42-58 | frames are uploaded in stream order, each at most once |
| EndToEnd.WantedFramesAreUploaded | src/deepstream_fpfilter_app.c:427-442 | when the worker has exited, no frame selected by the scan is missed but those pushed after its last look |
| EndToEnd.NothingPassesDuringSwitch | src/deepstream_fpfilter_app.c:340-360 | from the closing of the gate to the end of a switch no frame passes |
| GateControl.GateAfterStep | src/deepstream_fpfilter_app.c:292-322 | a step of any thread leaves the gate as it was unless it is an opening, an explicit close, a timer or the closing statement of a switch |
| GateControl.SomebodyClosed | src/deepstream_fpfilter_app.c:292-322 | in every run an open gate that is shut later was closed by one of those |
| GateControl.SomebodyOpened | src/deepstream_fpfilter_app.c:292-322 | and a shut one that is open later was opened |
| GateControl.NothingIsPushedUnasked | src/deepstream_fpfilter_app.c:427-428 | without an opening of the gate no run from the start ever pushes a frame |
| GateControl.PassingFramesArePushed | src/deepstream_fpfilter_app.c:404-445 | while the gate is open and nothing closes it, every frame that crossed the filter in front of the first one without metadata and passes is pushed |
| ScanCoverage.ScanLooksAtExactly | src/deepstream_fpfilter_app.c:408-423 | of every delivered buffer the scan looks at exactly the frames before the first one without metadata, none if it did not cross the filter |
| ScanCoverage.LooksFollowTheStream | src/deepstream_fpfilter_app.c:408-444 | no frame is looked at twice and looks follow the stream |
| ScanCoverage.UploadedExactlyTheChosen | src/deepstream_fpfilter_app.c:405-445 | at the worker's exit the frames looked at with the gate open whose counts pass are exactly those uploaded and those pushed late, never both; with nothing late, exactly those uploaded |
| EndToEnd.ChecksReadTheGate | src/deepstream_fpfilter_app.c:427-428 | every recorded reading of the gate is its value in a state of the run in which the scan looked at that frame |
| EndToEnd.UploadedWhileOpen | src/deepstream_fpfilter_app.c:405-445 | in every run, each uploaded frame was looked at in an earlier state in which the gate was open |
| EndToEnd.UploadedForTheFiltersCounts | src/deepstream_fpfilter_app.c:413-436 | if the filter's entry always comes last, the counts a frame is uploaded for are the filter's |
| ScanRefinement.FinishedScanPushesTheSelection | src/deepstream_fpfilter_app.c:404-445 | for every delivered buffer, what the interleaved scan pushed is, in order, what the batch loop pushes for the gate values read |
| ScanRefinement.GatesReadExactly | src/deepstream_fpfilter_app.c:427-428 | the gate is read once per frame looked at, and the value used is the one recorded |
| Projections.RunProjects | src/deepstream_fpfilter_app.c:324-459 | every run of the whole system is, for the protocol, the gate and the worker, a run of its own |
| Projections.PartsAreReachable | src/deepstream_fpfilter_app.c:324-459 | so all that is proved of the parts' reachable states holds inside the system |
| Projections.PartsMoveFreely | src/deepstream_fpfilter_app.c:324-459 | the parts hold each other back only at the next element's pad during a scan, and in the gate's commands during a handler |
| SystemProgress.StreamingNeverStuck | src/deepstream_fpfilter_app.c:404-459 | while a scan goes on or an item is in hand the streaming thread can move, and its step shortens the scan or brings the item nearer to its end |
| SystemProgress.StreamingCompletes | src/deepstream_fpfilter_app.c:404-459 | scan and item can always be finished by the streaming thread alone |
| SystemProgress.DrainAll | src/deepstream_fpfilter_app.c:404-459 | with nothing in hand, main and the scan can be emptied together |

## Left out

- Element, ghost pad, caps, source and sink creation: plumbing without state; only whether a bin can be built is kept, and a bin that fails half-way is not tracked.
- Missing static pads, whose error returns are ignored by the callers: assumed not to happen.
- Reuse of addresses and aliasing through pointers: copies and bins are identified by the order of their allocation, and a copy is a value in a heap keyed by that identity.
- The `pipeline` and `loop` members of the request record: they never vary.
- A configuration whose filter bin cannot be built: `main` gives up before anything is linked.
- The server's accept loop, `stop_usr_prompt_monitor`, sockets and files: the same flag-under-mutex loop as the worker's, without a queue.
- Failing and zero-length transfers: positive progress is assumed.
- JSON and key-file parsing: commands come parsed.
- The filter's inference and its tracker, `write_kitti_output`, `save_image.sh` and the upload script: opaque.
- Process teardown after the stop calls: it depends on threads nobody joins.
- Rounding of the quotient: counts of 32 bits are exact in a double and the test compares with one half, so the quotient is taken over the reals.
- SaveFrameTask.Task.SaveFrameTask: gives up when its finite schedule is used up before stop has returned, since the source would then go on for ever.
