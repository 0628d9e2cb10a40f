# Verified models of jargo's coordination logic

jargo moves frames between processors that run concurrently. Most of what can go wrong in it is in small
protocols over queues, counters and flags guarded by a mutex. This project models the ones with the most
behaviour and proves what they promise, over every interleaving of their critical sections.

A protocol appears twice. A *machine* on values has one step for each critical section, channel operation
and atomic check, taken by any number of goroutines in any order; the lemmas about it quantify over all of
its runs. A *class* holds the Go fields, and its methods, with the Go loops, are proved against the same
section functions or against specification functions that the lemmas speak of.

| file | what it models |
|---|---|
| `Frames.dfy`, `Wrappers.dfy` | frame kinds, directions, `Option` and `Result` |
| `Parallel.dfy` | the lifecycle barrier and the deduplication of the parallel pipeline |
| `SyncParallel.dfy` | collecting each branch's output up to a sentinel, and the two release orders |
| `Suite.dfy` | the scheduler of an eval suite, and the plan made from the manifest |
| `Numbers.dfy` | rounding to float64, and the shortest digits encoding/json writes |
| `Rounding.dfy` | that this is the rounding of IEEE 754, and which decimals survive it |
| `Base64.dfy`, `JsonWire.dfy`, `JsonRoundTrip.dfy` | the wire form of bus messages, and what survives it |
| `JsonRefusal.dfy` | what the far end cannot read, and the messages it loses |
| `TypeRegistry.dfy` | the registry of wire names |
| `Bus.dfy` | the message queue, the router and the dispatcher of one subscriber, and the fan-out |
| `ReportQueue.dfy` | the observer proxy's report queues, their two shutdowns, and first pushes |
| `ReportFanOut.dfy` | pushes made at once, on their way to the observers' queues |
| `Contributions.dfy` | what a user-to-bot latency is made of |
| `Turns.dfy` | what whole cycles come to: the lines listed for each kind of turn |
| `Actions.dfy` | running a list of flow actions over a FIFO pipeline |
| `Session.dfy` | the eval session's translator, its interruption discard, and the call matcher |
| `Switcher.dfy` | failover, and the rings that drop copies handed to inactive services |
| `TurnTracking.dfy` | turns, with timers that fire late |

Integers are unbounded. Where the width matters it is written out: JSON numbers are rounded to float64 on
reading and written with the fewest digits that read back, and an integer field has the bounds of its type.

## What the proofs found

The code does not quite do what its documentation says in these places. Each has a lemma with a concrete run
and, where there is one, the exact condition under which the promise holds.

- `pipeline/parallel.go`: `emit` checks under the mutex and pushes after it. A frame already past the check
  when a lifecycle frame is armed can leave ahead of a StartFrame (`Parallel.EmitInFlightOvertakes`), or behind
  an EndFrame or CancelFrame, although it was accepted before that was armed. An armed StartFrame is the next
  frame to leave, however the run goes on, if and only if `emit` has no frame between check and push at that
  moment (`Parallel.StartFrameIsNextIff`); and an armed EndFrame or CancelFrame leaves after everything accepted
  by the last report under the same condition exactly (`Parallel.EndFrameIsLastIff`).
- `pipeline/parallel.go`: a lifecycle frame that a branch raises itself is released at once. With nothing being
  synchronized that is harmless; raised into a synchronization it ends the buffering early, and the order
  around a StartFrame is lost (`Parallel.RaisedFrameEndsBuffering`).
- `pipeline/syncparallel.go`: an EndFrame leaves the pipeline if and only if some branch puts it out ahead of
  everything else (`SyncParallel.EndFrameLeavesIffFirst`).
- `pipeline/observerproxy.go`: an orderly finish loses reports when one comes in between the worker finding
  its queue empty and `finishing` being closed, before the worker has checked it; and only then
  (`ReportQueue.FinishDeliversIff`, `ReportQueue.FinishCanLoseAReport`).
- `pipeline/observerproxy.go`: whether a push is a frame's first is settled under the mutex, and the reports
  are queued after it. No report is lost or made twice (`ReportFanOut.EachReportOnce`), but an observer of every
  push can be told of a repeat before the first (`ReportFanOut.RepeatCanJumpAhead`): if and only if the repeat
  is queued while the first push is on its way (`ReportFanOut.RepeatAheadIff`).
- `observers/turntracking.go`: the turn-number guard makes a late timer harmless once the next turn has begun,
  but a late timer of the same turn ends it at an earlier silence (`TurnTracking.EndsAtLatestSilenceIff`,
  `TurnTracking.StaleTimerEndsShort`).
- `observers/contributions.go`: a handler that was over before the interval began is still charged to it, in
  every cycle, when it ran for long enough to be listed (`Contributions.EarlyHandlerIsCharged`), and can exceed
  it (`Contributions.CallBeforeAnchorOverflows`). The stretches lie inside the interval if and only if none starts
  before it (`Contributions.ContributionsTileTheCycle`); only handlers and a sentence's synthesis can
  (`Contributions.EarlyStretchesAreDerived`), and handlers longer than the threshold do exactly when they were
  over by then (`Contributions.StartsInsideIff`).
- `bus/jsonserializer.go`: a struct that reads itself from JSON, as `time.Time` does, is written by its fields and
  cannot be read back, and nor can anything but a registered struct in an interface with methods, such as an
  `error`. One such value loses the whole message. A message whose fields otherwise travel is received if and
  only if it holds none (`JsonRefusal.MessageIsReceivedIff`): the frame reporting that the user started speaking
  crosses only with its time unset (`JsonRefusal.VadFrameIsReceivedIff`), and a metrics frame only without
  metrics (`JsonRefusal.MetricsFrameIsReceivedIff`).
- `bus/jsonserializer.go`: an integer field comes back if and only if its value is a float64
  (`JsonRoundTrip.IntegerFieldTrips`). Behind a pointer, in a list, a map or an unregistered struct, `assign`
  writes the float64 out again with its shortest digits and reads those: there an integer comes back if and
  only if they are its own (`JsonRoundTrip.IntegerPointerTrips`), which 2^60 fails
  (`JsonRoundTrip.SmallIntegersHaveTheirDigits`). Raw JSON comes back if and only if each of its numbers
  survives both (`JsonRoundTrip.RawJsonTripsIff`), which every decimal of up to fifteen digits does
  (`JsonRoundTrip.RawDecimals`) and 2^53 + 1 does not, or not as raw JSON if it is a bare string. Integers in interface fields come back as floats, and a map comes back as a map if and only if it
  holds no string under the type key (`JsonRoundTrip.DynamicMapTripsIff`).
- `bus/types.go`: a type registered twice is written under its later name only (`TypeRegistry.NameOfNew`,
  `JsonRoundTrip.TagIsTheNameIff`).
- `eval/session.go`: the discard takes the queued transcriptions out and puts them back, so the matcher can
  receive a later one first. Transcriptions keep their order if and only if it receives none while the reader,
  in the middle of a discard, holds an earlier one (`Session.TranscriptionsInOrderIff`).

## Assumptions

- Parallel pipeline, for the ordering results only: a lifecycle frame travels downstream and is armed only
  once the previous one has resumed the pipeline and no raised frame is being released, each branch forwards it
  exactly once, and no branch raises one of its own while one is being synchronized. That no id leaves twice
  needs none of this.
- Sync parallel pipeline: the last processor of each branch is synchronous, so its sentinel comes out last.
- Bus: `Start` is called once the previous `Stop` has returned.
- JSON: the values that travel are those of `JsonWire.RegTravels`: integers that are float64s, or have the
  digits of theirs where they are read from text, which all integers below 2^53 do; no untagged map with a
  string under the type key, field names distinct across embedded levels, raw JSON that is not a bare string and
  whose numbers are still themselves after being read as float64s and written again, dynamic values that are
  plain JSON, bytes or pointers to registered types, no struct that reads itself from JSON unless it is zero,
  nothing but pointers to registered types in an interface with methods, and no struct registered under two
  names. A registered struct held by such an interface implements it. Strings are valid Unicode.
- Latency: no kept stretch starts before the anchor, for the bounds on the total. The turns spelled out have half
  a millisecond or more between moments, and stages that are not core ones last as long as asked for; what is
  listed otherwise is `Turns.ListedIff`.
- Actions: the list starts idle, custom actions start nothing counted, and the built-in types keep their
  handlers.
- Switcher: copies have ids of their own, services are distinct, and usability is fixed during one call.

## Model

| member | source | states |
|---|---|---|
| Parallel.EscapesAtMostOnce | pipeline/parallel.go:132-227 | in every run of any number of goroutines no frame id leaves twice, and an id recorded as seen is exactly one of escaped, buffered or in the hands of the step pushing it |
| Parallel.NoFrameIsDropped | pipeline/parallel.go:132-227 | in every run each frame ever given to emit has escaped, is held back or is in the hands of a goroutine on its way out, exactly one of these and once; with nothing held back and every goroutine idle it has escaped |
| Parallel.EmitGoesStraightThrough | pipeline/parallel.go:132-146 | with nothing being synchronized, a frame not seen before is in the hands of the goroutine that emits it and leaves with its next step |
| Parallel.StartFrameOpensTheWay | pipeline/parallel.go:106-227 | in every run, raised frames outside a synchronization included, nothing escapes ahead of an armed StartFrame but frames emit already held; it escapes only once the last branch has reported; what was held back follows it directly, in emission order |
| Parallel.EndFrameClosesTheWay | pipeline/parallel.go:106-227 | an EndFrame or CancelFrame escapes only once the last branch has reported it, after everything held back, in emission order, and after everything accepted by the last report but what emit then had in its hands, which it already had at the arming |
| Parallel.StartFrameIsNextIff | pipeline/parallel.go:106-146 | after any run an armed StartFrame is the next frame to escape in every continuation if and only if emit has no frame between check and push |
| Parallel.EndFrameIsLastIff | pipeline/parallel.go:132-227 | after any run, with a goroutine free, an armed EndFrame or CancelFrame escapes in every continuation after everything accepted by the last report if and only if emit has no frame between check and push |
| Parallel.EmitInFlightOvertakes | pipeline/parallel.go:132-146 | in every state with a frame past emit's check, arming a lifecycle frame and finishing that emit lets the frame out first |
| Parallel.RaisedFrameEndsBuffering | pipeline/parallel.go:148-193 | in every state of a synchronization whose last branch has not reported, a raised frame's release hands out a frame while the armed one is inside, and the order around a StartFrame is lost |
| Parallel.ReleaseEnds | pipeline/parallel.go:174-227 | a release always has a step to take and takes at most as many as it had left and two more per emit meanwhile, until it has resumed the pipeline |
| Parallel.DrainAlone | pipeline/parallel.go:213-227 | the draining loop without interference hands out everything buffered, in order, and then ends the synchronization |
| Parallel.ReleaseAlone | pipeline/parallel.go:155-227 | a release without interference ends where the sinkPush method does, with the pipeline resumed |
| Parallel.StepKeepsPartition | pipeline/parallel.go:132-227 | each critical section keeps every id in one place |
| Parallel.StepKeepsBarrier | pipeline/parallel.go:106-227 | each disciplined step keeps the barrier invariant |
| Parallel.ParallelPipeline.ProcessFrame | pipeline/parallel.go:106-126 | a lifecycle frame sets its countdown to the number of branches and starts buffering |
| Parallel.ParallelPipeline.Emit | pipeline/parallel.go:132-146 | drops a frame seen before, holds a new one back while syncing, and else pushes it; a new one is recorded as seen |
| Parallel.ParallelPipeline.EmitSynchronized | pipeline/parallel.go:198-207 | pushes a lifecycle frame once, buffering or not |
| Parallel.ParallelPipeline.FlushBuffered | pipeline/parallel.go:213-227 | pushes the buffer in order and clears syncing when it is empty |
| Parallel.ParallelPipeline.SinkPush | pipeline/parallel.go:155-193 | counts a lifecycle frame down and releases it with the buffer on the side its kind asks for |
| SyncParallel.OutputIsReleased | pipeline/syncparallel.go:150-180 | every run is finite; one that can go no further left every queue empty, collected an interleaving of the branch outputs, and both orders release the same ids, each once, with no sentinel |
| SyncParallel.DedupReleasesOnce | pipeline/syncparallel.go:163-175 | the deduplication releases exactly the ids it is given, each once |
| SyncParallel.DedupKeepsOrder | pipeline/syncparallel.go:163-175 | and releases them in their order, each where its id first is |
| SyncParallel.CollectedArrivesLast | pipeline/syncparallel.go:226-234 | what is collected goes behind everything collected before |
| SyncParallel.RunsAreBounded | pipeline/syncparallel.go:213-272 | each arrival and each collected frame is one step towards the end |
| SyncParallel.NeverStuck | pipeline/syncparallel.go:259-271 | a branch whose sentinel has not been read always has a step to take |
| SyncParallel.WaitCollectsAll | pipeline/syncparallel.go:259-271 | behind a synchronous branch the wait returns all it put out and empties its queue |
| SyncParallel.EndWaitCollects | pipeline/syncparallel.go:237-257 | for an EndFrame the wait returns what the branch put out ahead of it, or the EndFrame if that is nothing, and leaves what is behind it |
| SyncParallel.EndFrameLeavesIffFirst | pipeline/syncparallel.go:237-257 | the EndFrame is released if and only if some branch puts it out first |
| SyncParallel.SyncParallelPipeline.WaitForSync | pipeline/syncparallel.go:217-272 | collects a branch up to its sentinel, into the shared queue or the returned list, and leaves what comes after |
| SyncParallel.SyncParallelPipeline.CollectUntilSync | pipeline/syncparallel.go:262-271 | the loop that stops at the SyncFrame |
| SyncParallel.SyncParallelPipeline.CollectUntilEnd | pipeline/syncparallel.go:248-256 | the loop that stops at the EndFrame and discards it |
| SyncParallel.SyncParallelPipeline.ReleaseByBranch | pipeline/syncparallel.go:163-175 | pushes the first occurrences of the branches' outputs, branch by branch |
| SyncParallel.SyncParallelPipeline.Drain | pipeline/syncparallel.go:276-289 | empties the shared queue, pushing the first occurrences in order |
| SyncParallel.SyncParallelPipeline.ProcessFrame | pipeline/syncparallel.go:150-180 | releases the deduplicated outputs of all branches and leaves every queue past its sentinel |
| Suite.HandedOutOnceInOrder | eval/suite.go:251-292 | no job is handed out twice, an entry's are in manifest order, its count is its jobs taken and not done and within its cap; while a worker waits, each entry with jobs left has a cap and as many workers running its jobs |
| Suite.WorkIsTaken | eval/suite.go:251-292 | a worker that asks gets the first job in manifest order whose entry has no cap or fewer workers than that; it waits if and only if jobs are left and each entry with some is at its cap, and returns if and only if none is left |
| Suite.NeverStuck | eval/suite.go:251-269 | while a worker has not returned, some worker has a step to take |
| Suite.StepDecreases | eval/suite.go:251-269 | every turn of take and every done lowers a measure |
| Suite.SuiteCompletes | eval/suite.go:191-219 | runs are finite, and one that cannot go on has all workers returned and every job finished once |
| Suite.EveryScenarioReported | eval/suite.go:191-219 | over the manifest's own queues every job's result is written exactly once |
| Suite.PlanningIsPlan | eval/suite.go:297-319 | the queues hold every job index once, apart from each other, ascending within an entry |
| Suite.CapOf | eval/suite.go:294-306 | the lowest positive concurrency under a label, none when none is set |
| Suite.LowestCaps | eval/suite.go:298-306 | the caps map holds exactly those |
| Suite.EntryQueues | eval/suite.go:297-319 | one queue per label by first appearance, with its cap and its jobs in order |
| Suite.RunQueue.AnyScenarioLeft | eval/suite.go:272-279 | whether any queue holds a job |
| Suite.RunQueue.Pick | eval/suite.go:282-292 | takes the head of the first queue that is not empty and not at its cap, counts it, and changes nothing otherwise; it says to wait if and only if each queue with jobs has a cap and as many in flight |
| Suite.RunQueue.TakeTurn | eval/suite.go:251-261 | one turn of take's loop is the machine's step |
| Base64.DecodeEncode | bus/jsonserializer.go:132-137 | decoding undoes encoding for every byte string |
| Base64.CharsAreTheAlphabet | bus/jsonserializer.go:132-137 | the characters are those of the standard alphabet, in order |
| Base64.EncodesFoobar | bus/jsonserializer.go:132-137 | the test vectors of the standard, with and without padding |
| JsonRoundTrip.MessageCrosses | bus/jsonserializer.go:74-97 | a registered message of the faithful class comes back as the same value with the same concrete types, without its functions and unexported fields |
| JsonRefusal.MessageIsReceivedIff | bus/jsonserializer.go:331-390 | a message each of whose fields travels or is refused is received, as itself, if and only if none is refused; a refused one loses the message |
| JsonRefusal.RegIsRefused | bus/jsonserializer.go:300-354 | a registered struct with a refused field, at any depth of registered, embedded and dynamic values, is not rebuilt |
| JsonRefusal.ValueIsRefused | bus/jsonserializer.go:358-390 | what is written for a refused value of any field type cannot be assigned on arrival |
| JsonRefusal.UnreadableSinks | bus/jsonserializer.go:377-390 | a struct that reads itself, or a value in an interface with methods, inside pointers, lists, maps and unregistered structs, is not read back by encoding/json |
| JsonRefusal.FrameIsReceivedIff | bus/messages.go:78-87 | a frame handed to another worker arrives if and only if it holds nothing refused |
| JsonRefusal.VadFrameIsReceivedIff | frames/turns.go:15-24 | this frame arrives if and only if its time was never set |
| JsonRefusal.MetricsFrameIsReceivedIff | frames/metrics.go:242-247 | this frame arrives if and only if it has no measurement |
| JsonRoundTrip.RegTrips | bus/jsonserializer.go:151-157 | a tagged pointer to a registered struct comes back under its name with its fields |
| JsonRoundTrip.FieldsTrip | bus/jsonserializer.go:331-354 | a struct's fields come back through flattening and omitted zeros |
| JsonRoundTrip.FlatteningKeepsField | bus/jsonserializer.go:227-260 | with distinct names, flattening never overwrites a field |
| JsonRoundTrip.FieldTrips | bus/jsonserializer.go:356-390 | one field comes back, embedded, omitted, dropped or written |
| JsonRoundTrip.ValueTrips | bus/jsonserializer.go:358-390 | a non-zero value of any field type that travels is written, read and assigned back |
| JsonRoundTrip.DynamicTrips | bus/jsonserializer.go:263-294 | interface fields, and slices and maps of them, keep their dynamic types |
| JsonRoundTrip.InnerTrips | bus/jsonserializer.go:377-390 | a value re-encoded through encoding/json into an unregistered type comes back |
| JsonRoundTrip.PlainTreeReads | bus/jsonserializer.go:263-294 | an untagged tree is read as a value that is written back as the same tree |
| JsonRoundTrip.UnknownMembersAreSkipped | bus/jsonserializer.go:326-354 | members no field is named after change nothing |
| Numbers.Float64Exact | bus/jsonserializer.go:212-215 | an integer survives float64 exactly when it is a multiple of the spacing there |
| Numbers.SmallIntegersAreExact | bus/jsonserializer.go:212-215 | every integer within 2^53 survives |
| JsonRoundTrip.IntegerFieldTrips | bus/jsonserializer.go:368-375 | an integer whose float64 is within the field's type comes back if and only if it is a float64 |
| JsonRoundTrip.IntegerPointerTrips | bus/jsonserializer.go:377-390 | an integer behind a pointer comes back if and only if the digits written for its float64 are its own |
| JsonRoundTrip.SmallIntegersHaveTheirDigits | bus/jsonserializer.go:377-390 | every integer below 2^53 has its own digits; those of 2^60 are another integer's |
| JsonRoundTrip.RawJsonTripsIff | bus/jsonserializer.go:120-130 | raw JSON without tagged objects, other than null or a bare string, comes back if and only if each number survives being read as a float64 and written again |
| JsonRoundTrip.RawIntegers | bus/jsonserializer.go:120-130 | raw integers below 2^53 survive, 2^53 + 1 does not |
| JsonRoundTrip.RawDecimals | bus/jsonserializer.go:120-130 | raw decimals of at most fifteen digits survive, down to the 321st place |
| JsonRoundTrip.RawFractions | bus/jsonserializer.go:120-130 | raw 0.5 and 3.7 do |
| Numbers.FirstLostInteger | bus/jsonserializer.go:212-215 | 2^53 + 1 does not survive |
| JsonRoundTrip.RawStringIsUnquoted | bus/jsonserializer.go:124-130 | raw JSON holding a bare string comes back without its quotes |
| JsonRoundTrip.DynamicIntegerBecomesFloat | bus/jsonserializer.go:263-266 | an integer in an interface field comes back as a float |
| JsonRoundTrip.TypeKeyIsTaken | bus/jsonserializer.go:277-290 | a map with a string under the type key, whatever else it holds, never comes back as a map |
| JsonRoundTrip.DynamicMapTripsIff | bus/jsonserializer.go:277-290 | a map of dynamic values that travel comes back if and only if it holds no string under the type key |
| JsonRoundTrip.TagIsTheNameIff | bus/types.go:38-71 | a struct registered under a name is tagged with it if and only if it was not registered again later |
| Numbers.RoundsInteger | bus/jsonserializer.go:83-86 | on integers, rounding a JSON number to float64 is the integer rounding the other rows speak of |
| Numbers.RoundsNear | bus/jsonserializer.go:83-86 | a number read as a float64 below 2^53 * 2^k lies within half of 2^k of it |
| Rounding.CorrectlyRounded | bus/jsonserializer.go:83-86 | what a number is read as is an integer of 53 bits times a power of two from 2^-1074 on, no such number is closer, and of two as close it is the one with the even significand |
| Rounding.Float64IsKept | bus/jsonserializer.go:83-86 | every such number is read as itself |
| Rounding.RelativeError | bus/jsonserializer.go:83-86 | from 2^-1022 on, a number is read with an error of at most its 2^53rd part |
| Rounding.FifteenDigitsAreKept | bus/jsonserializer.go:377-383 | a decimal of at most fifteen digits is written as itself after being read as a float64 |
| Numbers.SmallIntegersAreWritten | bus/jsonserializer.go:377-383 | every integer below 2^53 is written as itself |
| Numbers.TwoTo60IsRewritten | bus/jsonserializer.go:377-383 | 2^60 is a float64 and is written with the digits of another integer |
| TypeRegistry.TypeRegistry.Register | bus/types.go:38-59 | records a pointer sample under a new name for its pointer and its struct type; anything else panics and records nothing |
| TypeRegistry.Answers | bus/types.go:38-84 | a name is answered with the one type registered under it, a type with its latest name |
| TypeRegistry.OnlyTheRegisteredAnswer | bus/types.go:63-84 | a name is not answered if and only if nothing was registered under it, nor a type if and only if nobody registered it |
| TypeRegistry.NamesRebuildTheirType | bus/types.go:63-84 | no type is written under a name that rebuilds another |
| TypeRegistry.NameOfNew | bus/types.go:63-84 | a value built from a name travels back under it if and only if its type was not registered again later |
| Bus.NothingLost | bus/bus.go:261-290 | over every run with stops and starts: each band's puts are what was routed, in hand and queued, what was passed on likewise in the second stage, only refusals are dropped, and no wake-up is lost |
| Bus.DeliveredInPutOrder | bus/bus.go:258-290 | what the subscriber is handed of each band is in the order it was put |
| Bus.RestMeansDelivered | bus/queue.go:57-70 | a running bus with no step to take has handled everything put, and delivered all of it when nothing was refused |
| Bus.OvertakenAtMostOnce | bus/queue.go:41-55 | while a system message is queued the router passes on at most one data message, the one it held, and is a bounded number of its own steps away whatever the data handler does |
| Bus.StepKeepsConserved | bus/bus.go:261-290 | each step loses, duplicates and reorders nothing |
| Bus.StepKeepsWakeUps | bus/queue.go:25-70 | each step leaves a blocked consumer of a non-empty queue a token or a producer about to signal |
| Bus.MessageQueue.Put | bus/queue.go:25-38 | appends to the message's band, leaves the other alone, and leaves a token |
| Bus.MessageQueue.TryGet | bus/queue.go:41-54 | takes the head of the system band, else of the data band |
| Bus.MessageQueue.Get | bus/queue.go:59-70 | returns a waiting message whatever done says, else stops when done, else blocks; a stale token is used up |
| Bus.Subscription.Route | bus/bus.go:261-276 | alone, hands over every accepted system message and moves every accepted data message, each in order, and empties the queue; what it moved left a token for the dispatcher, and if each queue that held something had its token, so it is again |
| Bus.Subscription.RouteOne | bus/bus.go:267-274 | a refused message goes nowhere, a system message to the subscriber, a data message to the second queue, whose consumer is signalled; nothing else is |
| Bus.SettledSignals | bus/bus.go:267-274 | the machine's router, up to its next turn, does with the message in its hands what the method does, token included |
| Bus.Subscription.WokenWakesUp | bus/queue.go:25-70 | each queue that holds something having its token is, with both consumers blocked, the machine's condition that no wake-up is lost |
| Bus.Subscription.DispatchData | bus/bus.go:279-290 | alone, hands over every accepted data message in order, and leaves no queue with something in it and no token that had one |
| Bus.Bus.Subscribe | bus/bus.go:186-201 | a new name gets queues of its own, a known one changes nothing |
| Bus.Bus.Unsubscribe | bus/bus.go:204-213 | removes that name alone |
| Bus.Bus.OnMessageReceived | bus/bus.go:229-240 | every subscriber's queue gets the message once and is signalled |
| ReportQueue.HeardInOrder | pipeline/observerproxy.go:284-429 | what was delivered is always a prefix of what was pushed, and a worker at rest has delivered all of it |
| ReportQueue.FinishDeliversIff | pipeline/observerproxy.go:400-429 | an orderly finish with nothing reported after it delivers everything if and only if it did not close on a report the worker had looked past |
| ReportQueue.FinishCanLoseAReport | pipeline/observerproxy.go:406-429 | a run in which an orderly finish loses a report |
| ReportQueue.FinishingEnds | pipeline/observerproxy.go:299-306 | once finishing is closed the worker always has a step and takes boundedly many |
| ReportQueue.StepKeepsWakeUp | pipeline/observerproxy.go:371-429 | each step leaves a worker about to block on a report a token or a producer about to signal |
| ReportQueue.Queue.Push | pipeline/observerproxy.go:371-382 | appends and leaves a token |
| ReportQueue.Queue.Get | pipeline/observerproxy.go:406-429 | quit wins over a waiting report, a report over finishing |
| ReportQueue.Worker.Run | pipeline/observerproxy.go:284-294 | alone, delivers everything queued in order unless told to quit, which delivers nothing |
| ReportQueue.ToldOfEveryPush | pipeline/observerproxy.go:224-246 | an observer of every push hears each, marked first exactly when it is |
| ReportQueue.ToldOfEachFrameOnce | pipeline/observerproxy.go:224-246 | any other hears of exactly the frames pushed, each once, as a first push |
| ReportQueue.ObserverProxy.OnPushFrame | pipeline/observerproxy.go:224-246 | adds to each observer's queue exactly what the push adds to what it is told; nothing before the start |
| ReportFanOut.EachReportOnce | pipeline/observerproxy.go:224-246 | in every run of any number of pushes at once, each queue has been given, once, each report its observer is to be told that is not on its way; with every push done, what it would be told of them one after the other, in some order |
| ReportFanOut.InCheckOrderIff | pipeline/observerproxy.go:224-246 | that order is the order of the checks if and only if no report was queued while an earlier one was on its way to the queue; the observer is then told exactly what the sequential method tells it |
| ReportFanOut.RepeatAheadIff | pipeline/observerproxy.go:224-246 | a repeat comes before a frame's first push if and only if it was queued while the first was on its way |
| ReportFanOut.RepeatCanJumpAhead | pipeline/observerproxy.go:224-246 | a run of two pushes of one frame in which it does |
| ReportQueue.ObserverProxy.Forget | pipeline/observerproxy.go:249-253 | stops tracking a frame that is no longer in flight |
| Contributions.ContributionsTileTheCycle | observers/contributions.go:459-523 | the kept stretches are disjoint inside the interval if and only if none starts before it, as when no derived moment does; the total is then at most the interval and short of it by less than 500µs, and equal to it when there is a pipeline line |
| Contributions.KeptIsChained | observers/contributions.go:459-502 | in every cycle they are disjoint, in order, between the first and the last moment |
| Contributions.EarlyStretchesAreDerived | observers/contributions.go:459-502 | in every cycle a listed stretch that starts before the interval is a handler's or a derived sentence's |
| Contributions.EarlyHandlerIsCharged | observers/contributions.go:381-421 | in every cycle a handler over before the interval, unbroken and long enough to list, puts a stretch before it |
| Contributions.StartsInsideIff | observers/contributions.go:459-523 | where only handlers are derived, and none over before the interval is too short to list, no stretch starts before it if and only if there is no such handler |
| Contributions.CallBeforeAnchorOverflows | observers/contributions.go:381-421 | in a cycle with one call, over before it began and longer than it, the total exceeds the interval |
| Contributions.ContributionFor | observers/contributions.go:553-595 | a named stretch runs from its opener to its closer and is longer than nothing; what it is called is stated turn by turn |
| Turns.OtherPairsSayNothing | observers/contributions.go:117-239 | a pair of moments outside the table says nothing, so its time is the pipeline's |
| Turns.OrdinaryTurn | observers/contributions.go:117-239 | a cycle of silence, VAD stop, transcript, request, chunk, text, audio and speech, in whatever order they were recorded, lists endpointing wait, transcription, turn detection, LLM inference from request to text, speech synthesis and output transport, with their owners, starts and durations, and no pipeline line |
| Turns.TwoLlmsTurn | observers/contributions.go:117-239 | with the chunk from another processor than the request, a line of LLM inference for each |
| Turns.UnmarkedTurn | observers/contributions.go:222-239 | with markers in use and none in the response, the wait from chunk to text is its own line |
| Turns.MarkerTurn | observers/contributions.go:117-239 | with a completion marker, turn completion is one line from chunk to text |
| Turns.HeldTurn | observers/contributions.go:117-239 | a turn held by an incomplete marker lists turn completion, waiting for the user, and the second request's inference and completion |
| Turns.ToolCallTurn | observers/contributions.go:117-239 | a turn with a tool call lists the LLM's call, the tool by its name, the lines of the answer, and a pipeline line of exactly the way from the tool's end to the next request |
| Turns.SentenceTurn | observers/contributions.go:381-399 | a turn whose text is aggregated lists sentence aggregation from the first text for as long as it took |
| Turns.Greeting | observers/contributions.go:459-474 | a greeting is measured from the later of client and pipeline and lists first request, LLM inference, speech synthesis and output transport |
| Contributions.NamesAreChained | observers/contributions.go:478-489 | neighbouring moments name disjoint stretches in order |
| Contributions.MergeJoins | observers/contributions.go:603-617 | merging keeps them disjoint and leaves no two neighbours to merge |
| Contributions.MergeAbsorbs | observers/contributions.go:603-617 | every stretch lies in a merged one that names it the same |
| Turns.MergeInventsNothing | observers/contributions.go:597-617 | every instant of a merged stretch lies in a named one of the same stage and owner, or in a gap under 500µs between two neighbours of that name |
| Turns.NamesakesAreApart | observers/contributions.go:597-617 | neighbours of one name stay apart only across a gap of 500µs or more |
| Contributions.FilterKeepsChained | observers/contributions.go:493-502 | filtering keeps exactly the core stretches that print and the long ones |
| Turns.ListedIff | observers/contributions.go:493-502 | a merged stretch is listed if and only if it lasted as long as asked for, 5ms if nothing was, or 500µs and is one of the six core stages |
| Turns.PipelineLineIff | observers/contributions.go:504-521 | what the listed stretches leave over of the interval is listed last, as jargo's own, if and only if it is 500µs or more |
| Turns.NotReportedIff | observers/contributions.go:459-474 | a cycle without anything to be measured from, or in which the bot did not speak, lists nothing |
| Contributions.SortSorts | observers/contributions.go:528-548 | the timeline is sorted, derived moments where they belong, and is a permutation |
| Contributions.HandlerWindows | observers/contributions.go:425-449 | handler stretches are disjoint, and every call lies in one |
| Contributions.GroupsAreRuns | observers/contributions.go:425-449 | a group's calls overlap and groups are apart |
| Contributions.GroupExtremes | observers/contributions.go:401-420 | a group is owned by its first slowest call, and its stretch runs from the earliest start of its calls to the latest end |
| Contributions.DecimalReads | observers/contributions.go:411-414 | the number of the group's other calls reads as that number |
| Contributions.MergeAdjacent | observers/contributions.go:603-617 | the loop computes the merge that invents no time and absorbs every stretch |
| Contributions.NameStretches | observers/contributions.go:478-489 | the loop names neighbouring moments, as the turns spell out, and records the core stages |
| Contributions.KeepLong | observers/contributions.go:493-502 | the loop keeps what the filter keeps |
| Contributions.AddPipeline | observers/contributions.go:504-521 | the remainder becomes a pipeline line when it prints |
| Contributions.Slowness | observers/contributions.go:381-421 | the first slowest call of a group, its earliest start and its latest end |
| Contributions.UserBotLatency.HasSeen | observers/contributions.go:358-365 | whether a moment of a kind is recorded |
| Contributions.UserBotLatency.Mark | observers/contributions.go:339-354 | records a moment while measuring, once if asked |
| Contributions.UserBotLatency.Forget | observers/latency.go:322-330 | drops every moment of a kind and keeps the rest in order |
| Contributions.DroppingKeepsOrder | observers/latency.go:322-330 | what is left after dropping a kind is of other kinds and in its old order |
| Contributions.DroppingKeepsRest | observers/latency.go:322-330 | and is all of it, as often as it was there |
| Contributions.UserBotLatency.ConcurrentHandlers | observers/contributions.go:425-449 | the loop computes the groups the lemmas speak of |
| Contributions.UserBotLatency.DerivedMoments | observers/contributions.go:381-421 | the sentence moment and two moments per handler group |
| Contributions.UserBotLatency.TimelineFrom | observers/contributions.go:528-548 | the anchor, what was observed since, and the derived moments, sorted |
| Contributions.UserBotLatency.BuildContributions | observers/contributions.go:459-523 | computes the contributions the accounting lemma and the turns speak of |
| Actions.EffectsInListOrder | flows/actions.go:190-279 | in every interleaving with the pipeline the effects are a prefix of the list's, in order; a list that returns without ending the conversation has had all of them and leaves nothing outstanding |
| Actions.StopsAtTheFirstBadAction | flows/actions.go:195-221 | it fails at the first action that is untyped, unregistered or fails, and the actions before a failing one are done |
| Actions.ListCompletes | flows/actions.go:240-279 | no wait is for something that cannot happen: runs are bounded and end returned exactly when no action before the end of the conversation is bad |
| Actions.StepKeepsInv | flows/actions.go:190-376 | each step keeps effects and frames in flight adding up to the list's effects |
| Actions.FramesHaveEffects | flows/actions.go:332-376 | what a built-in handler queues brings about its effects and keeps its start counted |
| Actions.WaitsWhereOrderIsNotEnough | flows/actions.go:248-279 | on the way to an action the executor waits if and only if that is a custom one behind speech or anything behind a function, however much is outstanding |
| Actions.LastWaitIsFor | flows/actions.go:248-279 | the end of a list waits for speech or a function and for nothing else |
| Actions.ActionManager.RegisterFromConfig | flows/actions.go:171-183 | fails exactly for a missing type and for an unregistered one without a handler, and registers at most that type |
| Actions.ActionManager.HandleTTSSay | flows/actions.go:332-346 | queues speech and its mark, counted; nothing without text |
| Actions.ActionManager.HandleEndConversation | flows/actions.go:350-361 | queues the goodbye, if any, and the end, counted and never finished |
| Actions.ActionManager.HandleFunction | flows/actions.go:364-376 | queues the call, counted; nothing without a handler |
| Actions.ActionManager.Pump | flows/actions.go:122-145 | the frame nearest the end takes effect, and finishes its action if it marks one |
| Actions.ActionManager.WaitForOngoing | flows/actions.go:248-279 | afterwards nothing is outstanding if the types call for a wait; otherwise nothing has changed |
| Actions.ActionManager.ExecuteActions | flows/actions.go:190-238 | brings about the list's effects in order up to its end or its first bad action, and reports that |
| Session.Reader.DiscardInterruptedOutput | eval/session.go:371-390 | leaves exactly the user's transcriptions queued, in order, none dropped |
| Session.TranscriptionsStay | eval/session.go:371-390 | of a queue the transcriptions stay, each as often as it was there, and nothing else |
| Session.TranscriptionsKeepOrder | eval/session.go:371-390 | in their old order |
| Session.Reader.Translate | eval/session.go:1133-1182 | each message has its event; a response comes at a stop exactly when no interruption follows the latest start, with the chunks since the latest start or stop; the user starting and an interruption discard |
| Session.Reader.Read | eval/session.go:333-359 | queues that event behind what an interruption leaves |
| Session.CutOffSnoc | eval/session.go:1265-1296 | an interruption holds until the next start |
| Session.ChunksSnoc | eval/session.go:1265-1296 | the text in progress grows by chunks and starts anew at a start or stop |
| Session.ResponseIsItsChunks | eval/session.go:1265-1296 | whatever came before, the response at a stop is the chunks since its start, joined in order |
| Session.CutResponseIsNone | eval/session.go:1265-1296 | with the user or an interruption behind the latest start there is none |
| Session.NothingStaleQueued | eval/session.go:361-390 | with each receive and send a step of its own: outside a discard in progress nothing the bot put out before the latest interruption is queued, and putting a transcription back never finds the channel full |
| Session.TranscriptionsInOrderIff | eval/session.go:371-390 | the matcher receives transcriptions in order if and only if it receives none while the reader holds an earlier one in the middle of a discard |
| Session.ResponseIsFresh | eval/session.go:1265-1296 | a queued response's text is from after the latest interruption |
| Session.Matcher.NextFunctionCall | eval/session.go:891-913 | claims a matching call pending, reading nothing, or else the first one to arrive, leaving what is behind it queued, and fails only when there is none; the rest stays to be claimed |
| Session.Matcher.ReadOn | eval/session.go:900-912 | reads up to the first matching call or to the end, keeping the calls it passes in order |
| Session.Matcher.MatchFunctionCalls | eval/session.go:830-863 | with every call named it passes exactly when the expected names are a sub-multiset of the calls; claimed and open make up the calls there were |
| Switcher.ComesOutInTime | pipeline/switcher.go:445-468 | a copy that comes out before 64 later ones are remembered is still in the ring |
| Switcher.OnlyCopiesAreDropped | pipeline/switcher.go:445-468 | what is in the ring is a copy handed out that has not come out, once |
| Switcher.RingIsBounded | pipeline/switcher.go:447-454 | the ring never exceeds 64 |
| Switcher.RingIsTheLatest | pipeline/switcher.go:447-454 | with nothing coming out the ring is the last 64 ids |
| Switcher.WalkVisitsOthersOnce | pipeline/switcher.go:613-618 | the failover walk visits every other place once and its own not at all |
| Switcher.Strategy.constructor | pipeline/switcher.go:492-494 | the first service starts active |
| Switcher.Strategy.SetActiveIfAvailable | pipeline/switcher.go:539-566 | switches to a usable member and tells the callback; changes nothing otherwise |
| Switcher.Strategy.HandleError | pipeline/switcher.go:588-621 | switches exactly when the failed service is unusable and another is usable, to the cyclically first; the active service stays a member |
| Switcher.ServiceSwitcher.constructor | pipeline/switcher.go:106-158 | empty rings and the first reading of usability |
| Switcher.ServiceSwitcher.Usable | pipeline/switcher.go:169-176 | usable while some service is |
| Switcher.ServiceSwitcher.AnnounceUsable | pipeline/switcher.go:192-208 | announces exactly the changes of that reading |
| Switcher.ServiceSwitcher.Remember | pipeline/switcher.go:447-454 | appends, dropping the oldest of 64 |
| Switcher.ServiceSwitcher.Consume | pipeline/switcher.go:458-468 | removes the first occurrence and reports whether there was one |
| Switcher.ServiceSwitcher.InactiveUpdateTargets | pipeline/switcher.go:417-443 | the addressed inactive member alone, or all of them when the update opts in; never the active one, none twice |
| Switcher.ServiceSwitcher.UpdateInactiveServices | pipeline/switcher.go:405-413 | hands each target its own copy, once, and remembers it |
| Switcher.ServiceSwitcher.ShareMetadata | pipeline/switcher.go:279-289 | hands every inactive member its own copy, once, and remembers it |
| Switcher.ServiceSwitcher.HandleServiceError | pipeline/switcher.go:342-369 | what becomes of an error, and that the active service changes exactly when a switch absorbs it |
| Switcher.ErrorLeavesIff | pipeline/switcher.go:342-369 | an error leaves if and only if it is fatal, nobody's of the members, or the active service's while that works, and is the switcher's own if and only if the active service fails with no other to switch to |
| Switcher.ServiceSwitcher.PushFrame | pipeline/switcher.go:297-328 | what leaves: no remembered copy, no inactive member's metadata or error, and everything else |
| TurnTracking.TurnsAlternate | observers/turntracking.go:79-181 | in every run with timers firing late: started 1, ended 1, started 2 and so on, durations from start to end and never negative, and a timed-out turn measured to a silence in it |
| TurnTracking.EndsAtLatestSilenceIff | observers/turntracking.go:167-181 | a firing timer ends the turn at its latest silence if and only if it is the one armed last |
| TurnTracking.StaleTimerEndsShort | observers/turntracking.go:167-181 | a run in which a stopped timer of the same turn ends it at an earlier silence |
| TurnTracking.StepKeepsInv | observers/turntracking.go:79-181 | each frame, firing and cleanup keeps the history well formed |
| TurnTracking.StepIsHeard | observers/turntracking.go:79-181 | which frames and firings start and end a turn, with which number, duration and interruption; nothing else is heard |
| TurnTracking.StepMovesFlags | observers/turntracking.go:79-181 | from when to when the bot speaks and has spoken in a turn, and what arms and disarms the timer |
| TurnTracking.TurnTracker.OnPushFrame | observers/turntracking.go:79-108 | the machine's step for a frame |
| TurnTracking.TurnTracker.OnTimer | observers/turntracking.go:173-180 | the machine's step for a firing |
| TurnTracking.TurnTracker.DoUserStarted | observers/turntracking.go:126-140 | ends a turn the bot spoke in, interrupted if it was speaking, and starts the next |
| TurnTracking.TurnTracker.DoEndTurn | observers/turntracking.go:152-165 | reports an active turn's duration once |
| TurnTracking.TurnTracker.DoScheduleEnd | observers/turntracking.go:170-181 | arms a timer for the turn and the moment of silence |

## Left out

- Parallel.ParallelPipeline.ProcessFrame: the pause and the fan-out to the branches are the machine's, not the method's.
- Parallel.ParallelPipeline.SinkPush: the resume at its end is the machine's.
- SyncParallel.SyncParallelPipeline.WaitForSync: the branch has put everything out already; arrivals during the wait are the machine's.
- Bus.Subscription.Route: runs with no producer beside it; the machine has them.
- Bus.Subscription.DispatchData: runs with no router beside it; the machine has it.
- Bus.Bus.Subscribe: starting a new subscription's goroutines on a running bus.
- Bus.Bus.Unsubscribe: stopping the subscription's goroutines and waiting for them.
- ReportQueue.ObserverProxy.OnPushFrame: one push after another; pushes made at once are the fan-out's.
- Contributions.CallBeforeAnchorOverflows: cycles with other calls or moments; that a stretch starts before the interval is stated for every cycle.
- ReportQueue.Worker.Run: quit and finishing do not change while it runs; in the machine they do.
- Actions.ActionManager.Pump: the TTS service and the end of the pipeline are one stage; the machine has both.
- Actions.ActionManager.ExecuteActions: the pipeline moves only while it waits; the machine has every interleaving.
- Session.Reader.DiscardInterruptedOutput: the matcher receives nothing while it runs; the machine has every interleaving.
- Session.Reader.Translate: marker and bot-output messages.
- Session.Reader.Read: the channel has room, where the code blocks until it does, as the machine's send does.
- Session.Matcher.MatchFunctionCalls: argument and judge checks.
- Switcher.ServiceSwitcher.constructor: the branches, their gates and the usability callbacks.
- Switcher.ServiceSwitcher.HandleServiceError: the metadata request queued to the service switched to.
- Switcher.ServiceSwitcher.PushFrame: services are told apart by identity, so distinct services with one name are not modelled.
- JsonRoundTrip.IntegerFieldTrips: an integer whose float64 leaves its type, at the very top of a 64-bit type, is converted to no particular integer in Go.
- JsonRoundTrip.RawDecimals: decimals of sixteen digits or more, some of which survive; `JsonRoundTrip.RawJsonTripsIff` says which.
- Numbers past the float64 range, which encoding/json refuses.
- Concurrency inside the class methods: a method runs its sections without interference; interleavings are the machines' business. `Parallel.ReleaseAlone` connects the two where one method spans several sections.
- Upstream frames of the parallel pipeline in the ordering results, and setup and cleanup of branches.
- The StartFrame and system frames of the sync parallel pipeline: both pass straight through. A system frame's copy in a branch queue is among what a branch has waiting.
- SyncParallel.SyncParallelPipeline.ProcessFrame: waits on the branches one after the other, for one direction; the arrival orders of concurrent waits are the machine's.
- In-place filling of structs: the JSON reader returns new values where `fillStruct` and `assign` write into existing ones, so aliasing is not modelled.
- Adapters for conversations and toolsets, NaN and infinities, float32, struct tags and case-insensitive matching of encoding/json, and conversions between bytes and strings.
- Types that read themselves from an object or are scalars, strings sent for a type that reads itself, embedded pointers, embedded types that read themselves, fixed-size arrays, and map keys other than strings.
- A registered struct held by value, or inside a typed slice or map or an unregistered struct: the values that travel do not include one.
- The JSON text syntax and its depth limit: messages are trees, and json.Marshal and json.Unmarshal are inverse on them.
- Entry queues of the suite are sequences of values rather than shared pointers.
- Reading manifests and scenario files, running a scenario, and writing result slots: a finished job stands for its written result.
- Starting the bus while a stop is still waiting for its goroutines, and the transport of a networked bus.
- Panics in subscribers and observers, which the code contains.
- The drain timeout of an observer, which turns a finish into a quit, and adding or removing observers while the pipeline runs.
- Goroutine identity and weak pointers in the observer proxy: a frame is tracked until it is forgotten, and not pushed afterwards.
- Formatting latency lines, the per-processor metric accumulators and the first-speech bookkeeping: data feeding the model's inputs.
- Deferred post-actions of flow nodes, and handlers registered in place of the built-in ones.
- The completeness of nameless expectations, which the greedy claim does not provide.
- Expression and marker events of the eval session, and the waits and deadlines of its matcher: the events before a deadline are a finite list.
- Callbacks of the switcher, and the gates on its branches.
- Listeners of turn events beyond the events themselves, and broadcast siblings of a frame, which are skipped before anything else.
