# MediaMTX core, modelled and verified

This project models three parts of the media server in `backend/core` and proves what they promise. `dafny verify
dfyconfig.toml` checks all of it.

**Paths.** A path is one goroutine that serves describe, add-reader and add-publisher requests, holds those that
have to wait for a source, and drives two on-demand machines with timers and hooks.

- `PathState` is the state of a path and what each arm of its select loop does to it; `PathActor` is the same path as
  a class whose methods change its fields; `PathSafety` proves what every run keeps, and `PathAnswers` which answer each
  request gets and who feeds and reads the path.
- `StaticSourceHandler` is the handler of a static source: its loop, the runs of the source, and the path that starts
  and stops it, as a transition system and as a class.
- `PendingRequests` is the path manager with any number of paths and clients, one step for each rendezvous.
- `PathConf` and `PathReload` are the choice of a configuration and the hot reload.

**Recording and playback.** The recorder cuts the samples of its tracks into segments and parts with a lookahead of one
sample. The playback server reads the files back and muxes them again from any start.

- `RecorderState` is the recorder on values; `FormatFMP4` is the same recorder as the objects it is made of;
  `RecorderSafety`, `RecorderRuns`, `RecorderTimes`, `RecorderStarts`, `RecorderCuts` and `RecorderParts` prove what
  whole recordings keep, and where their segments and parts begin and end.
- `Playback` says what a player should get of a track. `MuxerFMP4State`, `MuxerFMP4Safety`, `MuxerFMP4Runs`,
  `MuxerFMP4Parts`, `MuxerMP4State`, `MuxerMP4Safety` and `MuxersAgree` are the two output formats; `Muxers` has them
  as classes.
- `SegmentFile` and `SeekAndMux` read files, `ReadOutcomes` is when that ends or fails and `LegacyFiles` where files
  without decode times of their own go; `Replay`, `ReplayParts` and `ReplayRuns` put recorder and reader together,
  and `ReplayShown` adds the muxer: what the output of a replay shows of a recording.
- `SegmentList` is the list of recordings, `PartScan` the search for the last part of a file.

**Live streams.** `StreamTimeState`, `StreamTime` and `LiveStream` are the time stamps of an always-available stream
whose publishers change; `NtpEstimator` is its wall clock; `AccessUnits` and `UnitRemuxer` are the H264 and H265 access
units and their parameters.

`Arith` holds the conversion between clock ticks and durations that all of them use, `Wrappers` and `Bytes` common
types.

## How to read it

Where the source changes objects in place there are two forms of it: a class whose methods have the loops and the
assignments, and a specification on values. Each method ensures that the value of the object afterwards is the
specification's, and the properties are proved of the specification. What a run sent to channels, hooks, files and
clients is kept in observation fields (`replies`, `hooks`, `out`, `closed`, `fed`, `dropped`), which nothing branches on; only
the panic of a nil hook is told from `hooks`.

Conventions and assumptions:

- Integers are unbounded. The int64 conversions are covered by `Arith.MultiplyAndDivideFits`, which gives the range in
  which they do not wrap around. The uint32 durations and sequence numbers, the int32 time offset and the comparison of
  uint64 segment numbers are truncated as in the source.
- Time is a number of nanoseconds that the caller passes in. Timers are armed or not and may fire whenever they are armed.
- A sample is its decode time, its presentation offset, its sync flag, its size, its date and a name for its payload.
- `setAvailable` cannot fail on a path that is not always available. Initializing a sub-stream can, and that case is
  modelled.
- The theorems about whole runs of a path say which runs they hold for: `PathSafety.IsOrderly`, every event of which
  fits. A path that is always available needs nothing for that. Any other path needs the sub-stream of every new source
  to initialize, and its static source not to announce itself while the path still holds its stream.
  `PathSafety.RunInvExactly` shows that this is exactly what is needed. `StaticSourceHandler` shows when the second part
  holds: unless a run of the source returns while it is ready, which the secondary stream of a camera does
  (`staticsources/rpicamera/source.go:269-329`), or the context of the path is done.
- A static source asks for not ready only after it was accepted as ready, and it makes one request at a time.
- A reload that comes while the handler of a static source is stopped is not taken (`staticsources/handler.go:293-298`):
  the configuration of the next run is that of the last reload taken while it was running.
- A hot reload may deliver configurations to a path in any order, so a path can end with an older value of a hot field,
  the regular expression included (`PathReload.TwoReloadsReachThePathExactly`); the cold fields never change.
- In `PendingRequests` a reload may close any path of the map, which covers all that the reload itself decides.
- Access units have no empty NALUs: the source reads the first byte of each.
- Time scales and clock rates are positive: the source divides by them.
- In the MP4 format the final flush only looks at the current track; with no call of setTrack there is none, and the
  source would read it through nil. `MuxerMP4.Flush` requires one.

Where the code does not do what one would expect, it is modelled as it is, with the exact condition under which it
behaves and an input that shows what happens otherwise:

- `PathSafety.StepInvExactly` and `RunInvExactly`: `FailedSubStreamLeavesDeadStream`, `FailedPublisherLeavesDeadStream`,
  `ReadyTwiceDropsAReader`.
- `PathSafety.HeldHasDeadlineExactly`: `HeldWithoutDeadline`.
- `StaticSourceHandler.DeliveredMessagesAreFresh` and `ForsakenExactly`: `OrderIsLostAfterAReadyRunReturns`,
  `OrderIsLostAfterPathContextDone`.
- `PathConf.ChoiceIsUniqueExactly`: the condition itself names the two configurations.
- `RecorderStarts.StartIsAPendingSampleExactly`: `StartWithoutDate`.
- `MuxersAgree.OutputIsTheKeptSamples`: `VisibleTrackIsLost`, `FarSampleIsMoved`.
- `StreamTime.NewSubStreamIsNearlyAfter`: `OneTickIsLost`.
- `AccessUnits.LastDifferentIsNewestExactly`: `OlderParameterIsKept`.

## Model

| member | source | states |
|---|---|---|
| `Arith.MultiplyAndDivideIsTruncatedProduct` | backend/core/internal/ntpestimator/estimator.go:14-18 | The split form secs*m + dec*m/d is the exact product v*m divided by d with one truncation towards zero, for negative v too |
| `Arith.MultiplyAndDivideBounds` | backend/core/internal/recorder/format_mpegts.go:30-44 | How far the conversion is from the exact quotient: less than one unit, on the side of zero |
| `Arith.MultiplyAndDivideMonotone` | backend/core/internal/ntpestimator/estimator.go:14-18 | A later time stamp is never converted to an earlier duration |
| `Arith.MultiplyAndDivideFits` | backend/core/internal/recorder/format_mpegts.go:30-40 | When abs(v/d)*m + m and d*m fit int64, no operation of the int64 computation wraps around and its result is the unbounded one |
| `Arith.TicksRoundTrip` | backend/core/internal/playback/segment_fmp4.go:29-41 | Ticks to nanoseconds and back loses at most one tick, for rates up to 10^9 |
| `NtpEstimator.Estimator.Estimate` | backend/core/internal/ntpestimator/estimator.go:31-53 | One call returns the estimate and leaves the reference of the specification, resets included |
| `NtpEstimator.NextKeepsOrder` | backend/core/internal/ntpestimator/estimator.go:31-53 | From any state, an estimate is not before the previous one when PTS and clock do not go back, across a reset of the reference |
| `NtpEstimator.EstimatesAreOrderedAndRecent` | backend/core/internal/ntpestimator/estimator.go:31-53 | Over any run with non-decreasing PTS and clock, the estimates never decrease and each lies in [now - 5 s, now] |
| `NtpEstimator.EstimatesFollowThePTS` | backend/core/internal/ntpestimator/estimator.go:31-53 | Over any run, a reading is answered by the reading that the reference was taken from plus the distance of their PTS if that lies in [now - 5 s, now], and keeps that reference; otherwise it is answered by its own instant and becomes the reference |
| `NtpEstimator.ExtrapolationIsExact` | backend/core/internal/ntpestimator/estimator.go:44-48 | That distance is the exact one to less than 1 ns, on the side of the reading it starts from |
| `PathActor.Path.DrainHolds` | backend/core/internal/core/path.go:351-360 | Every held request is answered and both lists are empty |
| `PathActor.Path.OnDemandStaticSourceStart` | backend/core/internal/core/path.go:755-762 | The source is started, its ready timer armed, the state is waitingReady; a handler that runs already is a panic |
| `PathActor.Path.OnDemandStaticSourceScheduleClose` | backend/core/internal/core/path.go:764-769 | The close timer is armed and the state is closing |
| `PathActor.Path.OnDemandStaticSourceStop` | backend/core/internal/core/path.go:771-780 | Back to initial; a handler that does not run is a panic |
| `PathActor.Path.OnDemandPublisherStart` | backend/core/internal/core/path.go:782-795 | The demand hook is called, the un-demand hook remembered, the ready timer armed |
| `PathActor.Path.OnDemandPublisherScheduleClose` | backend/core/internal/core/path.go:797-802 | The close timer is armed and the state is closing |
| `PathActor.Path.OnDemandPublisherStop` | backend/core/internal/core/path.go:804-814 | The un-demand hook is called once and forgotten; a nil hook is a panic |
| `PathActor.Path.SetAvailable` | backend/core/internal/core/path.go:816-870 | A stream exists and the ready hook is called |
| `PathActor.Path.SetNotAvailable` | backend/core/internal/core/path.go:886-905 | Every reader is closed, the not-ready hook is called, there is no stream |
| `PathActor.Path.ConsumeOnHoldRequests` | backend/core/internal/core/path.go:872-884 | Held describes get the stream, held readers are added in order, both lists are empty |
| `PathActor.Path.AddReaderPost` | backend/core/internal/core/path.go:968-996 | A reader that is there already, a full path, or a new reader that may cancel a scheduled close |
| `PathActor.Path.ExecuteRemovePublisher` | backend/core/internal/core/path.go:956-966 | The publisher leaves without any change of the on-demand state |
| `PathActor.Path.DoOnDemandStaticSourceReadyTimer` | backend/core/internal/core/path.go:350-362 | Held requests time out and the source is stopped |
| `PathActor.Path.DoOnDemandStaticSourceCloseTimer` | backend/core/internal/core/path.go:364-370 | The stream is withdrawn and the source stopped |
| `PathActor.Path.DoOnDemandPublisherReadyTimer` | backend/core/internal/core/path.go:372-384 | Held requests time out and the demand ends |
| `PathActor.Path.DoOnDemandPublisherCloseTimer` | backend/core/internal/core/path.go:386-388 | The demand ends; the hold lists are not touched |
| `PathActor.Path.DoReloadConf` | backend/core/internal/core/path.go:390-415 | The configuration is replaced and nothing else changes |
| `PathActor.Path.DoSourceStaticSetReady` | backend/core/internal/core/path.go:417-452 | The stream of a static source starts and held requests are served; a failed sub-stream leaves the stream set |
| `PathActor.Path.DoSourceStaticSetNotReady` | backend/core/internal/core/path.go:454-471 | The stream ends; an on-demand source that was not stopped yet is stopped |
| `PathActor.Path.DoDescribe` | backend/core/internal/core/path.go:473-510 | Redirect, stream, held, fallback or no stream, in this order |
| `PathActor.Path.DoAddPublisher` | backend/core/internal/core/path.go:519-577 | Refused, failed after making room, or admitted with the held requests served |
| `PathActor.Path.DoRemovePublisher` | backend/core/internal/core/path.go:512-517 | Only the current publisher is removed |
| `PathActor.Path.DoAddReader` | backend/core/internal/core/path.go:579-602 | Added, held or refused |
| `PathActor.Path.DoRemoveReader` | backend/core/internal/core/path.go:604-621 | The last reader of an on-demand path schedules its close |
| `PathActor.Path.ShouldClose` | backend/core/internal/core/path.go:747-753 | A regular-expression path without source, readers and held requests |
| `PathActor.Path.Arm` | backend/core/internal/core/path.go:264-348 | One arm of the select loop does what its handler does, and asks to be closed exactly when the code does |
| `PathActor.Path.Run` | backend/core/internal/core/path.go:180-262 | A whole run of events, then the teardown |
| `PathActor.Path.Terminate` | backend/core/internal/core/path.go:223-262 | What follows the loop: timers, held requests, stream, source, demand hook |
| `PathSafety.StepConserves` | backend/core/internal/core/path.go:264-348 | No arm, not even one that panics, loses or repeats an answer: answered plus held is received |
| `PathSafety.EveryRequestAnsweredOnce` | backend/core/internal/core/path.go:223-241 | When run has ended, the requests answered are exactly those received, each once, and nothing is held |
| `PathSafety.StepInv` | backend/core/internal/core/path.go:264-348 | Every arm keeps the invariant of the two on-demand machines, of the hooks and of the stream, for every event that fits: no new sub-stream fails, and no static source announces itself while the path holds its stream; always-available paths need neither |
| `PathSafety.OnDemandStaticSourceRun` | backend/core/internal/core/path.go:350-370 | Over every orderly run (all of its events fit) of an on-demand static source: handler running iff not initial, timers armed iff waitingReady or closing, stream iff ready or closing, readers iff ready, held requests only while waiting with a deadline; no panic is reached, teardown included |
| `PathSafety.OnDemandPublisherRun` | backend/core/internal/core/path.go:782-814 | Over every orderly run of an on-demand publisher: hook set iff not initial, timers armed iff waitingReady or closing, readers and a stream iff ready, no readers while closing; each start meets exactly one stop once the path is gone |
| `PathSafety.TeardownClosesEverything` | backend/core/internal/core/path.go:223-262 | Whatever the kind of path, after an orderly run there is no stream, reader, running source or armed timer, and every hook call has its counterpart; on an always-available path every run is orderly |
| `PathSafety.ConfKeepsKind` | backend/core/internal/core/path.go:390-415 | Over any run, reloads change nothing that the machines branch on but the regular expression |
| `PathSafety.StepInvExactly` | backend/core/internal/core/path.go:417-452 | In any state with the invariant, a step keeps it if and only if its event fits: a sub-stream that fails breaks it, and so does a source that announces itself while the path holds its stream |
| `PathSafety.RunInvExactly` | backend/core/internal/core/path.go:264-348 | Over whole runs: the invariant holds after every prefix if and only if the run is orderly |
| `PathSafety.ReadyTwiceDropsAReader` | backend/core/internal/core/path.go:417-452 | A run with two ready messages in a row: the close timer is armed although there is a reader, drops it, and one ready hook is never matched |
| `PathSafety.FailedSubStreamLeavesDeadStream` | backend/core/internal/core/path.go:433-437 | A run in which the failure of a static source leaves a stream that nobody feeds and that readers are sent to |
| `PathSafety.FailedPublisherLeavesDeadStream` | backend/core/internal/core/path.go:553-557 | The same for a publisher: there is a stream without source, and the next publisher opens a second one without closing it |
| `PathSafety.HeldWithoutDeadline` | backend/core/internal/core/path.go:386-388 | A run that leaves a request held by a publisher path with no timer armed |
| `PathSafety.HeldHasDeadlineExactly` | backend/core/internal/core/path.go:473-510 | A request that gets held has a deadline afterwards if and only if, before it came, the path had an on-demand static source or its publisher was not asked for or still awaited: not after one came and left a scheduled close behind |
| `PathSafety.DeadlineStays` | backend/core/internal/core/path.go:264-348 | No arm takes the deadline away from a held request without answering it |
| `PathSafety.DeadlineLastsUntilAnswered` | backend/core/internal/core/path.go:264-348 | Over every orderly run a request held with a deadline has one for as long as it is held |
| `PathSafety.IdlePathsAreReported` | backend/core/internal/core/path.go:264-348 | A path that becomes idle (a regular-expression path without source, readers and held requests) asks to be closed in the same arm, unless a reload made it idle, and only an idle path asks, after the arms that check it |
| `PathAnswers.StepAnswers` | backend/core/internal/core/path.go:264-348 | Which answer each request gets, in any state and for every arm. A held describe gets the stream when it arrives; held readers are answered in order, each with the stream, or with too many readers exactly when it is not among those who read at that moment and they are at the limit; a ready timer answers all held requests with a timeout. A new request is redirected, refused, served, held or told that there is no stream, the last only without stream, on-demand source and (for a describe) fallback. No other arm answers anyone |
| `PathAnswers.StepChangesWho` | backend/core/internal/core/path.go:264-348 | Who feeds and who reads a path after each arm: nobody joins or leaves unasked, except that all readers leave when the stream ends |
| `PathAnswers.EveryAnswerHasItsReason` | backend/core/internal/core/path.go:264-348 | Over every run, each answer was given by an event, in a state, that is a reason for it |
| `PathAnswers.TeardownAnswers` | backend/core/internal/core/path.go:223-241 | Whoever still waits when run ends is told that the path is terminating, and no one else is told anything |
| `PathAnswers.LastReaderSchedulesClose` | backend/core/internal/core/path.go:604-621 | When nobody is left that reads an on-demand path in use its close is scheduled, even if the one who says it leaves was gone already |
| `PathAnswers.StepPanicsExactly` | backend/core/internal/core/path.go:264-348 | In any state, an arm panics if and only if it meets one of these: a handler that is not as it should be, a nil hook or stream, a source of another kind |
| `StaticSourceHandler.Handler.Start` | backend/core/internal/staticsources/handler.go:182-201 | The context and the goroutine are new and one run of the source is live |
| `StaticSourceHandler.Handler.Stop` | backend/core/internal/staticsources/handler.go:204-218 | The context is cancelled; the path then waits |
| `StaticSourceHandler.Handler.Recreate` | backend/core/internal/staticsources/handler.go:224-252 | One more run of the source is live |
| `StaticSourceHandler.Handler.Respond` | backend/core/internal/staticsources/handler.go:259-263 | The run whose request is being forwarded gets its answer and the loop selects again |
| `StaticSourceHandler.Handler.ForwardReady` | backend/core/internal/staticsources/handler.go:259-260 | A ready message reaches the path, which answers it, or is dropped because a context is done |
| `StaticSourceHandler.Handler.ForwardNotReady` | backend/core/internal/staticsources/handler.go:262-263 | The same for a not-ready message, after which the path may stop the handler |
| `StaticSourceHandler.Handler.Arm` | backend/core/internal/staticsources/handler.go:253-290 | The arms of the loop: a failed run, a request that is taken, a reload, the recreate timer, a done context |
| `StaticSourceHandler.Handler.Drain` | backend/core/internal/staticsources/handler.go:283-288 | The wait for the last run |
| `StaticSourceHandler.StepInv` | backend/core/internal/staticsources/handler.go:224-290 | Every step of the handler, of its runs (those that return while they are ready included) and of the path keeps the invariant below |
| `StaticSourceHandler.AtMostOneRunIsLive` | backend/core/internal/staticsources/handler.go:224-290 | In every reachable state at most one run is live, recreating iff none is, and none is when Stop returns |
| `StaticSourceHandler.DeliveredMessagesAreFresh` | backend/core/internal/staticsources/handler.go:314-334 | In every reachable state a message reaches the path only from the live run of the current start; it is the other one of ready and not ready if and only if the run that the path accepted was not forsaken |
| `StaticSourceHandler.ForsakenExactly` | backend/core/internal/staticsources/handler.go:253-263 | A run is forsaken by exactly two steps: it returns while the path holds its stream, or its not-ready message is dropped, and then the context of the path is done |
| `StaticSourceHandler.ForsakenHasACause` | backend/core/internal/staticsources/handler.go:253-263 | Over whole histories no run is forsaken before the context of the path is done, unless one returned while ready |
| `StaticSourceHandler.DeliveredMessagesAreEnabled` | backend/core/internal/core/path.go:1007-1040 | So the path machine receives only events of its runs, and they fit it if and only if the sub-stream initializes and no run was forsaken, or the path is always available |
| `StaticSourceHandler.StopProgresses` | backend/core/internal/staticsources/handler.go:204-218 | While Stop waits every step brings its return nearer, except a request of the source, an arm that the select prefers to the done context, and the context of the path |
| `StaticSourceHandler.StopIsNeverStuck` | backend/core/internal/staticsources/handler.go:204-218 | While Stop waits it can return exactly when the distance is 0, and otherwise a step that brings it nearer is possible |
| `StaticSourceHandler.StopReturnsInTime` | backend/core/internal/staticsources/handler.go:204-218 | However the goroutines are scheduled, the steps before Stop returns are at most the distance and three for each such delay |
| `StaticSourceHandler.OrderIsLostAfterAReadyRunReturns` | backend/core/internal/staticsources/rpicamera/source.go:269-329 | A history in which a run returns while it is ready, as runSecondary does, and the next one announces itself to a path that holds the old stream |
| `StaticSourceHandler.OrderIsLostAfterPathContextDone` | backend/core/internal/core/path.go:1025-1040 | A history in which the same follows from a not-ready message that is dropped once the context of the path is done |
| `StaticSourceHandler.RunsGetTheLastReload` | backend/core/internal/staticsources/handler.go:232-266 | In every reachable state, the run that a start or the recreate timer creates is the only live one and has the configuration of the last reload that the loop took |
| `PendingRequests.CountsKept` | backend/core/internal/core/path_manager.go:304-398 | Every step keeps: pendingRequests is the number of assigned requests that the path has not processed |
| `PendingRequests.MappedKept` | backend/core/internal/core/path_manager.go:146-195 | Every step keeps: a path whose loop runs and that is not being awaited is the one that its name leads to, and a path that was closed is awaited until it is gone |
| `PendingRequests.RemoveKeepsMap` | backend/core/internal/core/path_manager.go:155-158 | A path that removes itself when its loop is over deletes its own entry only, never that of a newer path of the same name |
| `PendingRequests.StepInv` | backend/core/internal/core/path_manager.go:146-195 | Every step of the manager, of any number of paths and of any number of clients keeps the invariant of the system |
| `PendingRequests.PendingRequestsAreTheInFlightOnes` | backend/core/internal/core/path_manager.go:160-163 | In every reachable interleaving the counter is the number of requests under way |
| `PendingRequests.IdleCloseIsSafe` | backend/core/internal/core/path_manager.go:160-163 | An idle close happens only when the path is one of a regular expression and has no source, reader, held request or request under way, and the entry that it deletes by name is that of this path |
| `PendingRequests.IdleCloseExactly` | backend/core/internal/core/path_manager.go:160-163 | In every reachable state in which a path asks, it is closed, awaited and its name freed if and only if no request is under way to it; otherwise it just goes on, and nothing else changes either way |
| `PendingRequests.AsksExactly` | backend/core/internal/core/path.go:264-348 | A path asks after a request if and only if it is idle then, and after any other arm if and only if the arm says so |
| `PendingRequests.EachPathRuns` | backend/core/internal/core/path_manager.go:146-195 | In every reachable system, each path is in the state that its own events lead to, so what is proved of the runs of one path holds of all of them |
| `PendingRequests.OnlyReloadOrShutdownTerminates` | backend/core/internal/core/path_manager.go:197-265 | A request already assigned to a path ends as terminated only if a reload or a shutdown closed that path |
| `PendingRequests.ManagerGoesOn` | backend/core/internal/core/path_manager.go:450-486 | In every reachable state in which the manager waits for a path, at most five steps of that path alone let it go on: no send of the path to the manager blocks it |
| `PathConf.Sort` | backend/core/internal/conf/path.go:155-166 | The same configurations, ordered with the catch-all ones last |
| `PathConf.FindPathConf` | backend/core/internal/conf/path.go:137-177 | By name, else the first match in that order, else the error; the order of map iteration is free |
| `PathConf.LessTransitive` | backend/core/internal/conf/path.go:155-166 | The comparison given to the sort is transitive |
| `PathConf.BeforeIsLexicographic` | backend/core/internal/conf/path.go:155-166 | The order of names is that of the first character that differs, or of the length |
| `PathConf.LookupMeans` | backend/core/internal/conf/path.go:137-177 | A name with an entry of its own gets it without being checked; any other valid name gets the matching entry that is first in alphabetical order, a catch-all one only if nothing else matches, or the error if and only if none matches |
| `PathConf.ChoiceIsUniqueExactly` | backend/core/internal/conf/path.go:137-177 | The choice does not depend on map iteration if and only if all and all_others do not both match alone |
| `PathReload.CanBeUpdatedIsAnEquivalence` | backend/core/internal/core/path_manager.go:18-52 | Can be updated is reflexive, symmetric and transitive, and means equal cold fields |
| `PathReload.UpdateIsEnabled` | backend/core/internal/core/path_manager.go:18-52 | Such an update is a reload that the path machine allows |
| `PathReload.PathSurvivesExactly` | backend/core/internal/core/path_manager.go:222-248 | A path outlives a reload if and only if its name resolves to a configuration with the cold fields of the one it had, whatever the name of that configuration |
| `PathReload.ReloadReachesThePath` | backend/core/internal/core/path_manager.go:222-248 | A path that had the configuration it was filed under has the new one after one delivery, or at once if it is the same |
| `PathReload.TwoReloadsReachThePathExactly` | backend/core/internal/core/path_manager.go:222-248 | After two reloads in a row the path has the configuration it is filed under if and only if that of the second one is delivered last |
| `PathReload.PathManager.Compare` | backend/core/internal/core/path_manager.go:197-220 | Which configurations are to be recreated and which to be reloaded |
| `PathReload.PathManager.UpdatePath` | backend/core/internal/core/path_manager.go:222-248 | A path is closed, renamed, reloaded or left alone as its new configuration says |
| `PathReload.PathManager.UpdatePaths` | backend/core/internal/core/path_manager.go:222-248 | The same for all paths of the map |
| `PathReload.PathManager.CreateStaticPaths` | backend/core/internal/core/path_manager.go:250-258 | Every configuration without a regular expression gets a path, and no other path changes |
| `PathReload.PathManager.ProcessPaths` | backend/core/internal/core/path_manager.go:197-248 | The first two loops together: each path was kept, updated or closed as specified, and those left resolve to the configuration they are filed under |
| `PathReload.PathManager.DoReloadConf` | backend/core/internal/core/path_manager.go:197-259 | Afterwards every path resolves to the configuration it is filed under, every plain configuration has a path, and each old path was kept, updated or closed as specified |
| `PathReload.PathManager.DeliverReload` | backend/core/internal/core/path.go:999-1004 | The asynchronous reloads may arrive in any order: the cold fields of a surviving path never change |
| `PathReload.PathManager.CreatePath` | backend/core/internal/core/path_manager.go:417-442 | A new path, filed under the configuration it resolves to |
| `PathReload.PathManager.RemovePath` | backend/core/internal/core/path_manager.go:155-158 | The entry of this path is deleted and no other, not even that of a newer path of the same name |
| `FormatFMP4.Part.Write` | backend/core/internal/recorder/format_fmp4_part.go:59-84 | Too big, or stored in the fragment of the track, which gets its base time with its first sample |
| `FormatFMP4.Part.Duration` | backend/core/internal/recorder/format_fmp4_part.go:86-88 | From the first start to the last end |
| `FormatFMP4.Segment.CloseCurPart` | backend/core/internal/recorder/format_fmp4_segment.go:168-201 | The part is appended to the file |
| `FormatFMP4.Segment.Close` | backend/core/internal/recorder/format_fmp4_segment.go:138-166 | An open part is closed too |
| `FormatFMP4.Segment.Write` | backend/core/internal/recorder/format_fmp4_segment.go:203-237 | The end of the segment, the part that the sample belongs to, and the sample in it |
| `FormatFMP4.Track.Swap` | backend/core/internal/recorder/format_fmp4_track.go:73-84 | The pending sample comes out with its duration, the incoming one takes its place and never goes back in time |
| `FormatFMP4.Track.CheckDrift` | backend/core/internal/recorder/format_fmp4_track.go:88-97 | The first sample fixes the origin; more than 5 s of drift is an error |
| `FormatFMP4.NextSegmentStartingPos` | backend/core/internal/recorder/format_fmp4_track.go:19-44 | The two loops compute the newest pending sample and the oldest one near it |
| `FormatFMP4.Format.Cut` | backend/core/internal/recorder/format_fmp4_track.go:118-138 | A sync sample that is late enough closes the segment and opens the next one |
| `FormatFMP4.Format.Offer` | backend/core/internal/recorder/format_fmp4_track.go:99-140 | Opened, discarded, too big or written |
| `FormatFMP4.Format.Write` | backend/core/internal/recorder/format_fmp4_track.go:67-141 | One call of write, on all the objects it changes, against the specification on values |
| `RecorderSafety.SegmentWriteAppends` | backend/core/internal/recorder/format_fmp4_segment.go:203-237 | A write stores exactly one sample, at the end of its track, across a change of part |
| `RecorderSafety.SegmentWriteOk` | backend/core/internal/recorder/format_fmp4_segment.go:203-237 | It keeps every fragment of the segment at a base time that is not negative and that is the distance of its first sample from the start |
| `RecorderRuns.WriteKeepsInv` | backend/core/internal/recorder/format_fmp4_track.go:67-141 | A write that does not fail keeps: stored plus pending is fed minus discarded, durations bridge the stored samples, closed segments are numbered and not empty |
| `RecorderRuns.RecordingConserves` | backend/core/internal/recorder/format_fmp4_track.go:67-141 | Over any error-free run, per track: the samples of all parts of all segments in order are the clamped inputs less the discarded ones and the pending one, and the counts add up |
| `RecorderRuns.ClampedIsRunningMaximum` | backend/core/internal/recorder/format_fmp4_track.go:78-82 | Clamping raises a decode time to the largest one so far and changes nothing else |
| `RecorderRuns.FilesAreSound` | backend/core/internal/recorder/format_fmp4_segment.go:138-237 | Over any such run the i-th closed segment has number i, at least one part, sound base times and linked durations |
| `RecorderRuns.DiscardsPrecedeTheFirstSample` | backend/core/internal/recorder/format_fmp4_track.go:108-111 | A sample is discarded only when its segment holds none of its track and starts after it |
| `RecorderRuns.DurationsTelescope` | backend/core/internal/recorder/format_fmp4_track.go:78-84 | Adding up durations from the first sample of a segment gives every decode time, when the gaps fit 32 bits |
| `RecorderCuts.SegmentsAreClosedExactly` | backend/core/internal/recorder/format_fmp4_track.go:67-141 | After any error-free run, the next write closes a segment if and only if it stores its sample and the sample that is then pending is sync, at least segmentDuration after the start of the segment, and of a video track unless no video sample was fed so far; once video was fed only a video track closes one |
| `RecorderCuts.SegmentOpensWithItsSample` | backend/core/internal/recorder/format_fmp4_track.go:99-106 | A segment that a write opens starts with the decode time and date of the sample that it stores |
| `RecorderCuts.DriftsExactly` | backend/core/internal/recorder/format_fmp4_track.go:88-97 | After any error-free run, a write fails for drift if and only if decode times and dates have moved apart by more than 5 s since the first sample of the track |
| `RecorderParts.PartsOfARecording` | backend/core/internal/recorder/format_fmp4_segment.go:138-237 | Over any error-free run, a closed segment lasts until its last sample is over; its parts are numbered from 0; each starts with one of its samples and ends with one, has the size of its samples, within the limit, and got no sample after it was long enough; and all but the last are at least as long as a part is meant to be |
| `RecorderParts.TooBigExactly` | backend/core/internal/recorder/format_fmp4_part.go:59-64 | A write fails for its size if and only if the sample and what the part it goes to holds exceed the limit |
| `RecorderTimes.RecordedTimesFit` | backend/core/internal/recorder/format_fmp4_track.go:67-141 | Recorded samples keep the range and the gaps of the inputs, whatever was discarded |
| `RecorderStarts.OldestIsMinimum` | backend/core/internal/recorder/format_fmp4_track.go:30-43 | The second loop finds the last of the oldest pending samples within 1 s of the newest |
| `RecorderStarts.StartIsAPendingSampleExactly` | backend/core/internal/recorder/format_fmp4_track.go:19-44 | The next start is decode time and date of a pending sample if and only if one is not before -1 s; otherwise it is 0 with no date |
| `RecorderStarts.StartWithoutDate` | backend/core/internal/recorder/format_fmp4_track.go:67-141 | Runs of two samples before -1 s that end in such a segment: it has no date and starts after the sample that opened it, which is then lost |
| `RecorderStarts.WindowFitsTheSegment` | backend/core/internal/recorder/format_fmp4_track.go:19-44 | A pending sample of the window is at most 1 s, and one time scale in ticks, after the start |
| `RecorderStarts.WindowIsNeverDiscarded` | backend/core/internal/recorder/format_fmp4_track.go:106-138 | Whatever the other tracks do while the segment lasts, a pending sample of the window is not discarded |
| `RecorderStarts.SegmentStartsNeverGoBack` | backend/core/internal/recorder/format_fmp4_track.go:118-138 | Over any run with a segment duration of at least 1 s, segments start in order |
| `RecorderStarts.SwitchIsFromSyncExactly` | backend/core/internal/recorder/format_fmp4_track.go:120-138 | A segment is marked as started by its own video sample if and only if that sample is in the window |
| `RecorderStarts.VideoSegmentsStartWithSync` | backend/core/internal/recorder/format_fmp4_track.go:67-141 | Over any run with one video track, such segments have a sync sample as their first video sample |
| `Muxers.MuxerFMP4Track.Put` | backend/core/internal/playback/muxer_fmp4.go:73-121 | The buffer of a track after one sample |
| `Muxers.MuxerFMP4Track.Finish` | backend/core/internal/playback/muxer_fmp4.go:126-131 | The duration of the last sample |
| `Muxers.MuxerFMP4Track.Flush` | backend/core/internal/playback/muxer_fmp4.go:136-158 | What a flush takes of a track and what it leaves |
| `Muxers.MuxerFMP4.SetTrack` | backend/core/internal/playback/muxer_fmp4.go:24-59 | The first track with the id, or none |
| `Muxers.MuxerFMP4.InnerFlush` | backend/core/internal/playback/muxer_fmp4.go:133-200 | One part for all tracks, numbered, with the header before the first one; or the error |
| `Muxers.MuxerFMP4.WriteSample` | backend/core/internal/playback/muxer_fmp4.go:61-124 | The sample is buffered, and a part of at least 1 s is flushed |
| `Muxers.MuxerFMP4.WriteFinalDTS` | backend/core/internal/playback/muxer_fmp4.go:126-131 | Only the current track changes |
| `Muxers.MuxerFMP4.Flush` | backend/core/internal/playback/muxer_fmp4.go:202-204 | The final flush holds nothing back |
| `Playback.Append` | backend/core/internal/playback/muxer_fmp4.go:73-121 | When the kept samples start over and when they grow |
| `MuxerFMP4Safety.PutVisible` | backend/core/internal/playback/muxer_fmp4.go:82-92 | A visible sample extends the timeline at its own decode time |
| `MuxerFMP4Safety.FlushKeeps` | backend/core/internal/playback/muxer_fmp4.go:136-158 | A flush in the middle moves the timeline from the buffer to the parts unchanged, and the next part starts where this one ends |
| `MuxerFMP4Safety.FinalFlush` | backend/core/internal/playback/muxer_fmp4.go:136-158 | The final flush emits a track exactly if it has a visible sample, and all of its timeline then |
| `MuxerFMP4Runs.DueIsFlushable` | backend/core/internal/playback/muxer_fmp4.go:94-101 | A flush that a sample triggers finds a fragment to write, so it does not fail |
| `MuxerFMP4Runs.RunKeepsInv` | backend/core/internal/playback/muxer_fmp4.go:61-131 | Over any interleaving of tracks with non-decreasing decode times, no write fails or indexes an empty buffer |
| `MuxerFMP4Runs.OutputIsWhatAPlayerShouldSee` | backend/core/internal/playback/muxer_fmp4.go:61-200 | All parts together show each track from its last sync sample at or before the first visible one (all of it if there is none), each sample at its decode time or at the first visible one; parts chain; the flush fails if and only if no track has a visible sample |
| `MuxerFMP4Parts.PartsLastASecond` | backend/core/internal/playback/muxer_fmp4.go:94-101 | Over any interleaving of tracks with non-decreasing decode times, no fragment spans a second or more up to its last sample, every part but the final one lasts at least a second in some track, and the final flush adds at most one part |
| `Muxers.MuxerMP4Track.WriteSample` | backend/core/internal/playback/muxer_mp4.go:50-83 | The samples, offset and last decode time of a track after one sample |
| `Muxers.MuxerMP4Track.WriteFinalDTS` | backend/core/internal/playback/muxer_mp4.go:85-90 | The duration of the last sample |
| `Muxers.MuxerMP4.SetTrack` | backend/core/internal/playback/muxer_mp4.go:16-48 | The first track with the id, or none |
| `Muxers.MuxerMP4.WriteSample` | backend/core/internal/playback/muxer_mp4.go:50-83 | Only the current track changes |
| `Muxers.MuxerMP4.WriteFinalDTS` | backend/core/internal/playback/muxer_mp4.go:85-90 | Only the current track changes |
| `Muxers.MuxerMP4.Flush` | backend/core/internal/playback/muxer_mp4.go:92-109 | The tracks with samples, or the error |
| `MuxerMP4Safety.RestartsExactly` | backend/core/internal/playback/muxer_mp4.go:57-60 | The track is emptied exactly when the kept samples start over |
| `MuxersAgree.OutputIsTheKeptSamples` | backend/core/internal/playback/muxer_mp4.go:50-109 | Every track shows its kept samples in order at their own decode times, exactly if the first one fits 32 bits, the non-sync ones with their presentation offset and the sync ones with none; the flush fails if and only if the track written last has no visible sample |
| `MuxersAgree.MuxersKeepTheSameSamples` | backend/core/internal/playback/muxer_mp4.go:50-83 | Given the same calls, both formats show the same samples of every visible track, at the same times once visible and with the same presentation offset if not sync |
| `MuxersAgree.TracksEndAtTheFinalTime` | backend/core/internal/playback/muxer_mp4.go:85-90 | When the reader gives the final decode time of a track, the last sample lasts until then in both formats |
| `MuxersAgree.VisibleTrackIsLost` | backend/core/internal/playback/muxer_mp4.go:92-95 | Runs in which a track is visible and the MP4 output is refused, because the track written last has nothing to show; the fragmented one is not |
| `MuxersAgree.FarSampleIsMoved` | backend/core/internal/playback/muxer_mp4.go:62-68 | A run in which a sample at 2^31 ticks is shown 2^32 ticks early |
| `SegmentFile.MuxParts` | backend/core/internal/playback/segment_fmp4.go:418-532 | The walk over the boxes hands over what the specification says, and its error cases |
| `SegmentFile.MuxTrun` | backend/core/internal/playback/segment_fmp4.go:477-512 | One run of samples up to the end of the request, then the final decode time |
| `SegmentFile.FindTrack` | backend/core/internal/playback/segment_fmp4.go:43-50 | The first track with the id, or none |
| `SegmentFile.Cut` | backend/core/internal/playback/segment_fmp4.go:477-481 | The first sample at or after the end of the request |
| `SeekAndMux.Run` | backend/core/internal/playback/on_get.go:43-120 | The loop over the files, with its break, its errors and the start of each file |
| `SeekAndMux.Seek` | backend/core/internal/playback/on_get.go:78-109 | While files are being muxed, the previous one carries mtxi exactly if the first one does, so mtxi is never read through nil |
| `SeekAndMux.ChainIsUniform` | backend/core/internal/playback/on_get.go:78-109 | All files read carry mtxi of one stream with consecutive numbers, or none does and their tracks are equal |
| `LegacyFiles.ConcatenatedExactly` | backend/core/internal/playback/segment_fmp4.go:85-106 | Two files join if and only if neither has mtxi, their tracks are equal and the date of the second is within 1 s of the end of the first; or both have it, of one stream and with consecutive numbers |
| `LegacyFiles.LegacyFileIsPlacedByItsDate` | backend/core/internal/playback/on_get.go:78-109 | If the first file has no mtxi, every further file that is read joins the one before and is placed at its date minus the start of the request; the first that does not join ends the reading |
| `LegacyFiles.FileIsPlacedByItsDecodeTime` | backend/core/internal/playback/on_get.go:78-109 | If it has, every further file is placed as far from the first one as their decode times are |
| `LegacyFiles.SegmentDurationIsTheLatestEnd` | backend/core/internal/playback/segment_fmp4.go:514-518 | Reading a file gives as its duration the latest end of its runs of samples |
| `ReadOutcomes.ReadEndsExactly` | backend/core/internal/playback/segment_fmp4.go:418-532 | Reading a file fails, stops or reaches its end if and only if the first box that does not let it go on is of the one kind, of the other, or there is none |
| `Replay.RecorderError` | backend/core/internal/recorder/format_fmp4_part.go:66-76 | Base time plus durations is never after the true time and less than 2 ticks before it |
| `Replay.ReplayError` | backend/core/internal/playback/segment_fmp4.go:464-510 | With the start of the file added, less than 3 ticks before and less than 1 after |
| `ReplayParts.WholeReplay` | backend/core/internal/playback/segment_fmp4.go:418-532 | A replay with as many samples as the recording has the k-th recorded sample in the k-th place |
| `ReplayParts.FilePlays` | backend/core/internal/playback/segment_fmp4.go:418-532 | Reading a recorded file never fails, whatever the order of the tracks in its parts and wherever the request ends: what is handed over for a track is a subsequence of its recorded samples, each within 3 ticks, and all of them if all are due before the end |
| `ReplayRuns.ReplayOfARecording` | backend/core/internal/playback/on_get.go:66-109 | For any run of the recorder with decode times from 0, gaps that fit 32 bits and rates up to 10^9, any consecutive files of it and any request: all files are read, and there are increasing positions such that the k-th sample handed over is the recorded one at the k-th position, at its time shifted by the start offset within 3 ticks |
| `ReplayRuns.ReplayReturnsTheRecording` | backend/core/internal/playback/on_get.go:43-120 | A request that ends after the last sample gives back, per track, as many samples as were recorded, the k-th one being the k-th recorded, with its flags and within 3 ticks |
| `ReplayShown.ReplayIsSteady` | backend/core/internal/playback/on_get.go:43-120 | Recorded gaps of a few ticks keep the order of decode times through the rounding of recorder and reader |
| `ReplayShown.ReplayShowsTheRecording` | backend/core/internal/playback/on_get.go:43-120 | For any request: if the recorded samples of each track are a few ticks apart and span less than 32 bits, the muxer accepts every call of the replay, and its output shows recorded samples in order within 3 ticks, those needed for decoding only at the first visible one |
| `ReplayShown.WholeReplayShowsTheRecording` | backend/core/internal/playback/on_get.go:43-120 | For a request that ends after the last sample the gaps alone need to fit, and the output of each track is the whole tail of its recording, from the sample it begins with |
| `SegmentList.Concatenate` | backend/core/internal/playback/on_list.go:108-132 | One entry for each maximal run of files, that starts with its first file and ends with its last one |
| `SegmentList.RunsAreMaximal` | backend/core/internal/playback/on_list.go:108-132 | Neighbours share a run if and only if the second can be concatenated to the first, and the runs together are the files in order |
| `SegmentList.MaximalRunsAreUnique` | backend/core/internal/playback/on_list.go:108-132 | There is only one way to split the files into maximal runs |
| `PartScan.PartMovesForward` | backend/core/internal/playback/segment_fmp4.go:229-271 | One offset cannot hold both a moof and an mdat, so the walk moves forward whatever the sizes are |
| `PartScan.SkipPart` | backend/core/internal/playback/segment_fmp4.go:238-268 | A moof followed by an mdat is passed |
| `PartScan.FindLastPart` | backend/core/internal/playback/segment_fmp4.go:181-275 | On every content the walk ends, with the last moof it passed that an mdat follows, or with the error |
| `PartScan.LastPartIsUnique` | backend/core/internal/playback/segment_fmp4.go:227-275 | There is at most one such moof |
| `PartScan.LastPartOfAFile` | backend/core/internal/playback/segment_fmp4.go:181-275 | In a file built of ftyp, moov and parts, with a tail that is not another part, the last part is the one that the search is for |
| `LiveStream.Stream.UpdateLastTime` | backend/core/internal/stream/stream.go:577-588 | The largest PTS so far and the time of the last unit |
| `LiveStream.Stream.WriteFormat` | backend/core/internal/stream/sub_stream_format.go:102-109 | The unit goes out at its PTS plus the offset |
| `LiveStream.Stream.WriteUnit` | backend/core/internal/stream/sub_stream.go:166-178 | Nothing happens unless the writer is the current sub-stream |
| `LiveStream.Stream.Begin` | backend/core/internal/stream/sub_stream_format.go:48-92 | The new offset, and the parameters at PTS 0 if there are any |
| `LiveStream.Stream.Initialize` | backend/core/internal/stream/sub_stream.go:138-163 | The sub-stream takes over and each format begins, in any order |
| `StreamTime.LastPTSNeverDecreases` | backend/core/internal/stream/stream.go:577-588 | In every event, whatever the inputs |
| `StreamTime.StepKeeps` | backend/core/internal/stream/sub_stream.go:97-178 | A switch or a write keeps the order between units of different sub-streams |
| `StreamTime.NewSubStreamIsNearlyAfter` | backend/core/internal/stream/sub_stream_format.go:59-64 | Over any run with PTS from 0 and a clock that does not go back, a unit of a newer sub-stream is less than a tick and a fraction before any unit of an older one: at most one tick when the clock rate is at most 10^9 |
| `StreamTime.SwitchFollowsTheClock` | backend/core/internal/stream/sub_stream_format.go:48-92 | At a switch on a stream that has received a time, PTS 0 of each format is put at the last PTS plus the time since it was received, or less than one tick before; the first sub-stream of all begins at PTS 0 |
| `StreamTime.UnitsFollowTheClock` | backend/core/internal/stream/sub_stream_format.go:102-109 | Over runs, a unit that the new sub-stream gives at any later time goes out as long after the last PTS as the clock said at the switch plus its own PTS, to within a tick |
| `StreamTime.LastPTSIsTheLargest` | backend/core/internal/stream/stream.go:577-588 | Over runs, the last PTS is the largest that went out, in every format |
| `StreamTime.SwitchGivesParameters` | backend/core/internal/stream/sub_stream_format.go:66-92 | A switch gives each format its parameters, if it has any, once and at PTS 0 of the new sub-stream |
| `StreamTime.OneTickIsLost` | backend/core/internal/stream/sub_stream_format.go:59-64 | A run of a 90 kHz format in which that tick is lost: the first publisher gives PTS 1, the second takes over at once and its PTS 0 goes out as 0 |
| `StreamTime.CurrentIsTheLastToTakeOver` | backend/core/internal/stream/sub_stream.go:152-154 | The current sub-stream is the one of the last switch |
| `StreamTime.ReplacedWritersAreIgnored` | backend/core/internal/stream/sub_stream.go:166-172 | After any run, a write of a replaced sub-stream has no effect |
| `UnitRemuxer.FormatH264.Update` | backend/core/internal/stream/format_updater.go:51-79 | The stored parameters become the newest of the unit |
| `UnitRemuxer.FormatH264.Count` | backend/core/internal/stream/unit_remuxer.go:77-105 | The first pass counts what the second one keeps |
| `UnitRemuxer.FormatH264.Fill` | backend/core/internal/stream/unit_remuxer.go:120-133 | The second pass fills every slot once, in order |
| `UnitRemuxer.FormatH264.Remux` | backend/core/internal/stream/unit_remuxer.go:77-136 | The parameters, if a key frame needs them and all are set, then the unit without parameter sets and delimiters |
| `UnitRemuxer.FormatH265.Update` | backend/core/internal/stream/format_updater.go:15-49 | Each stored parameter becomes the last one of the unit that differs from it |
| `UnitRemuxer.FormatH265.Count` | backend/core/internal/stream/unit_remuxer.go:15-43 | The first pass counts what the second one keeps |
| `UnitRemuxer.FormatH265.Fill` | backend/core/internal/stream/unit_remuxer.go:59-72 | The second pass fills every slot once, in order |
| `UnitRemuxer.FormatH265.Remux` | backend/core/internal/stream/unit_remuxer.go:15-75 | As for H264, with the three parameters of H265 |
| `AccessUnits.LastDifferentIsNewestExactly` | backend/core/internal/stream/format_updater.go:22-44 | H265 stores the newest parameter of a unit if and only if that differs from the stored one or none does |
| `AccessUnits.KindOfH264ByFirstByte` | backend/core/internal/stream/unit_remuxer.go:77-136 | The kind of an H264 NALU by the type in its first byte: 7, 8, 9 and 5 are SPS, PPS, delimiter and key slice, whatever the other bits |
| `AccessUnits.KindOfH265ByFirstByte` | backend/core/internal/stream/unit_remuxer.go:15-75 | The same for H265: 32, 33, 34 and 35 are VPS, SPS, PPS and delimiter, and 19, 20 and 21 key slices |
| `AccessUnits.CommonNALUs` | backend/core/internal/stream/unit_remuxer.go:15-136 | The kinds of the first bytes that encoders write, such as 0x67, 0x68, 0x09 and 0x65 |
| `AccessUnits.RemuxedUnit` | backend/core/internal/stream/unit_remuxer.go:15-136 | What goes out: the stored parameters in order, if the unit has a key slice and none is missing, then every NALU whose type is not that of a parameter set or delimiter, each at its place |
| `AccessUnits.UpdateMeans` | backend/core/internal/stream/format_updater.go:15-79 | What is stored afterwards: the last parameter set of a position in the unit, for H265 the last one that differs from what was stored before the unit, or else what was stored |
| `AccessUnits.OlderParameterIsKept` | backend/core/internal/stream/format_updater.go:26-30 | A unit after which the stored VPS is an older one than the newest of that unit |
| `AccessUnits.OneAtMostIsEnough` | backend/core/internal/stream/format_updater.go:22-44 | With one parameter set of a kind in a unit the newest is stored |
| `AccessUnits.UpdateKeepsTypes` | backend/core/internal/stream/format_updater.go:15-79 | Only parameter sets are stored, each at its position |
| `AccessUnits.ProcessingTwiceIsProcessingOnce` | backend/core/internal/stream/unit_remuxer.go:15-136 | Updater then remuxer, applied to their own output, change neither it nor the parameters |
| `AccessUnits.StoredAreTheNewest` | backend/core/internal/stream/format_updater.go:15-79 | Over a whole stream the stored parameters are the newest ever seen (for H265 when no unit has two of a kind) |
| `AccessUnits.KeyFramesCarryTheNewest` | backend/core/internal/stream/unit_remuxer.go:77-136 | So a key frame goes out with the newest parameters up to its own unit, then its kept NALUs |

## Left out

- Authentication, the recorder that a path starts, its API getters and its logging: they do not change what the modelled state does.
- The ready flag of a path in the manager and the rendezvous that set it: no modelled decision depends on them.
- Static sources that call AddReader on the manager themselves, and deadlock freedom beyond `PendingRequests.ManagerGoesOn` and `StaticSourceHandler.StopIsNeverStuck`.
- Handing a reloaded configuration to the run of a source that is live: the run that follows has it, which is what the model says.
- Configuration validation, environment, JSON and YAML: only the rules that the path machine relies on are stated (`PathState.Conf.Valid`).
- The regular expressions and the validity of path names: parameters of `PathConf.FindPathConf`.
- File, network and process I/O and their errors, the marshalling of boxes, and the byte offsets of payloads inside a file.
- Errors of a recording other than drift and part size, and what follows them: the recording is closed and a new one starts.
- Codec-dependent code of the recorder that makes samples out of units, and the closing of its last segment.
- The parsing of the last moof once it has been found, and the duration computed from it.
- The header of a file, beyond the ftyp and moov boxes that the search for the last part passes.
- MPEG-4 video configurations in units, RTP packets, the reader queues and the counters of a stream.
- The comparison of media descriptions before a sub-stream takes over: a sub-stream that is refused changes nothing.
- MuxerFMP4Runs.OutputIsWhatAPlayerShouldSee: needs decode times that do not decrease and gaps that fit 32 bits; a decode time that goes back shifts what follows, as durations cannot be negative.
- ReplayShown.ReplayShowsTheRecording: needs recorded samples of a track to be at least 3 ticks apart; nearer ones can be swapped by the rounding where a part begins, and then durations that cannot be negative shift what follows.
- ReplayRuns.ReplayOfARecording: is about files that carry mtxi; files of older versions are placed by the date in their name, which says nothing about their decode times.
- HLS, the other servers, and everything outside of `backend/core`.
