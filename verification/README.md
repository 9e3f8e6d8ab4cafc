# Galatea in Dafny

Galatea stops every new process until an agent has judged its image file. A kernel sensor freezes the
process with an APC and hands an event to the agent; the agent scans the file and sends a verdict back;
the client shows what was detected. This project models the two protocols behind that, and four smaller
stateful parts, and proves what they keep in every run.

## The parts

**The event channel** (`EventChannel`, `ChannelSafety`, `ChannelTheorems`, `ChannelBacklog`, `ChannelSteps`). Any
number of threads run the process callback, GET_EVENT, handle cleanup, the cancel routine and IRP cancellation. A step is one
lock-protected section or one atomic swap of a cancel routine, and threads carry what they hold from one
step to the next. Cancelling swaps the routine out first and runs it later.

**The freeze protocol** (`Freeze`, `FreezeSafety`, `FreezeTheorems`, `FreezeSteps`, `FreezeFailures`,
`VerdictCache`). Process and thread callbacks, injection and its failures, running and run-down APCs, waits that are signalled or time out,
verdicts and unloading, interleaved at their critical sections and counter updates. `SensorRuns` runs the
channel and the freeze protocol together, with one request counter and the order of steps of the process
callback.

**The agent's scans** (`Heuristics`, `StaticAnalysis`, `ScoreTheorems`, `ScanCache`, `ScanRuns`, `ScanSafety`,
`ScanTheorems`, `ScanSteps`). The scorer's four stages, the cache in which concurrent callers of one file share a scan,
and any number of threads in `analyze_event`, interleaved at the cache's critical sections, while entries
of the finished results may be evicted at any time.

**From end to end** (`GalateaRuns`, `GalateaExample`). The sensor and the agent together: every delivered
event starts one job, and every verdict sent enters the sensor once.

**Smaller parts.** `Framing` (commands between client and agent), `Broadcast` (the list of clients),
`DetectionBuffers` (the client's two bounded lists) and `PackerText` / `PackerLoader` (packer signatures).

Code that updates state in place is a class whose methods are proved against functions of the state; the
transition systems are built from the same functions. Conservation laws count: `Tallies.Tally` is how much
of something all threads and lists hold together, each step is shown to move it, and the sum is then the
same in every reachable state. The modules of steps say what each operation does to the lists and records
themselves, element by element and in numbers, without those functions.

## Assumptions

- A pid is not given to a new process while `TARGET_PIDS`, `PENDING_SCANS` or a callback still has it. As a
  run-down APC leaves its entry listed until unload, this is much to ask; without it a new process can be
  terminated although it was allowed (`FreezeFailures.NewProcessDiesOfOldEntry`).
- Removing a callback waits for the callbacks in flight.
- Fewer than 2^64 requests are issued; kernel time is a 64-bit number and its subtraction wraps.
- IRPs, contexts, barriers and clients have ids of their own instead of addresses or handles that could be
  reused.
- Canonicalising a path gives the same key each time in one call of `analyze_event`.

## Where the code differs from what it says

- The text printed after a timed-out wait says that the process is terminated (apc.rs:209-216); it resumes.
  `FreezeTheorems.WaitingProcessGetsItsVerdict` states when a process is terminated.
- `MAX_VERDICT_CACHE_SIZE` is documented as the size at which the oldest entry is evicted (lib.rs:102).
  The first entry of the list is, and updating an entry refreshes its time but not its place:
  `VerdictCache.NewestCanBeEvicted`, and `VerdictCache.EvictedIsOldestIff` for exactly when it holds.
- An APC that is run down leaves its list entry behind, and the next verdict sets the event of the freed
  context (`FreezeFailures.VerdictSetsFreedEvent`; `FreezeTheorems.DeadEntryIff` for which entries are dead).
- Unload's wait ends when the last APC has decremented the count, which is before that APC has left the
  driver's code (`FreezeFailures.UnloadOvertakes`).
- An allowed process is denied if the driver unloads before the process has collected its verdict
  (`FreezeFailures.AllowedProcessCanDieAtUnload`).
- A pended and armed IRP does not mean an empty queue (`ChannelTheorems.ArmedDoesNotMeanEmpty`).
  `ChannelBacklog.BacklogIff` says exactly when it can come to that, `ChannelTheorems.ArmedQueueIff` and
  `ChannelTheorems.ArmedBacklogIsOld` what is queued then.
- A waiter could re-validate the metadata of the scan it is given (static_analyzer_cache.rs:25-26); no
  caller does (`ScanTheorems.WaiterCanGetAnotherVersion`; `ScanTheorems.WaiterGetsItsVersionIff` for when it
  makes no difference).
- A scan looks at its file five times: for size and time, for its bytes, its hash and its certificate, and
  for its index. What is cached under one version can come from others
  (`ScanTheorems.RewrittenFileCanBeAllowed`, `ScanTheorems.ReplacedFileCanBeAllowed`).
  `ScanTheorems.HitEqualsRescan` says when a hit is the caller's own rescan, and
  `ScanTheorems.AnyOtherVersionCanBeAllowed` that no less is enough.
- Two scans of one version of a file can follow each other although the first result is cached
  (`ScanTheorems.RedundantScan`; `ScanTheorems.ClaimIsRedundantIff` for exactly when).
- A file that scores exactly 80 is allowed but summarised as malicious
  (`StaticAnalysis.SummaryAgreesExceptAtThreshold`).
- The early lookup of an APC passes its pid to a cache that is keyed by request id (apc.rs:154, 294), so a
  process can be given the verdict of another one (`FreezeFailures.AnotherProcessesVerdictIsUsed`).
  `FreezeTheorems.ApcExitsEarlyIff` and `FreezeTheorems.EarlyExitUsesVerdictOfPid` say exactly when a verdict
  is found and whose it is.
- A better certificate can block a file, but only one whose signature scores almost -2^31, where forgiving it
  wraps around (`ScoreTheorems.BetterCertificateHelpsIff`). Naming the packer of a file can lower its score
  (`ScoreTheorems.PackerExcusesIff`).
- A token of a packer pattern that is no byte counts as a wildcard (packers.rs:121-132), and a signature
  with `ep_only` off is compared with the start of the file only (packers.rs:97-112).
- After a file index mismatch the entry is invalidated twice (static_analyzer_cache.rs:214-223).

## Model

| member | source | states |
|---|---|---|
| EventChannel.PathField | endpoint/galatea-kernel-sensor/src/callback.rs:138-149 | the image path in an event: 260 units, of which the first 259 are the name's and the rest zero, so always terminated |
| EventChannel.Channel.SetCancelRoutine | endpoint/galatea-kernel-sensor/src/ioctl.rs:270-289 | swaps the routine of one IRP and tells whether one was set; nothing else changes |
| EventChannel.Channel.ClaimPending | endpoint/galatea-kernel-sensor/src/ioctl.rs:193-200 | takes the pended IRP only if its cancel routine was still set |
| EventChannel.Channel.NotifyAgent | endpoint/galatea-kernel-sensor/src/callback.rs:134-195 | completes the claimed IRP with the event, or too-short; otherwise the event is queued at the end exactly if fewer than 1000 are, and nothing else changes |
| EventChannel.Channel.GetEvent | endpoint/galatea-kernel-sensor/src/ioctl.rs:60-105 | fails if an IRP is pended, serves the oldest queued event, or pends and arms |
| EventChannel.Channel.Cleanup | endpoint/galatea-kernel-sensor/src/ioctl.rs:185-216 | cancels the pended IRP if it can claim it |
| EventChannel.Channel.CancelRoutine | endpoint/galatea-kernel-sensor/src/ioctl.rs:222-244 | withdraws and cancels its IRP if it is the pended one |
| ChannelSafety.RunKeeps | endpoint/galatea-kernel-sensor/src/ioctl.rs:60-289 | the invariant behind the channel's promises holds after every run of every number of threads |
| ChannelTheorems.IrpInExactlyOnePlace | endpoint/galatea-kernel-sensor/src/ioctl.rs:60-244 | in every run an IRP is completed, pended or in one thread's hand, and only one of these: never completed twice, never lost |
| ChannelTheorems.EventInExactlyOnePlace | endpoint/galatea-kernel-sensor/src/callback.rs:134-195 | in every run each raised event is held by one thread, queued, dropped, or used by one completion; no request is delivered twice and nothing else is ever found |
| ChannelTheorems.EventAtIsRaised | endpoint/galatea-kernel-sensor/src/callback.rs:134-149 | whatever is found at one of these places is the event exactly as it was raised |
| ChannelTheorems.QueueIsFifo | endpoint/galatea-kernel-sensor/src/ioctl.rs:75-81 | events leave the queue in the order they entered it, and at most 1000 are in it |
| ChannelTheorems.DropsFindAFullQueue | endpoint/galatea-kernel-sensor/src/callback.rs:187-191 | in every run each dropped event found exactly 1000 events queued |
| ChannelTheorems.SlotArmedOrInCharge | endpoint/galatea-kernel-sensor/src/ioctl.rs:99-103 | a pended IRP is armed or exactly one thread has it in charge, its cancel routine once GET_EVENT let go of the lock |
| ChannelTheorems.CancelRoutineFindsItsIrp | endpoint/galatea-kernel-sensor/src/ioctl.rs:222-244 | the cancel routine always finds its own IRP pended and completes it |
| ChannelTheorems.ArmedBacklogIsOld | endpoint/galatea-kernel-sensor/src/callback.rs:151-194 | while an IRP is armed, every queued event is of a notifier that looked before the IRP was pended; one that looks now claims it |
| ChannelTheorems.ArmedDoesNotMeanEmpty | endpoint/galatea-kernel-sensor/src/callback.rs:151-194 | a run to a state with an armed IRP and a queued event |
| ChannelTheorems.ArmedQueueIff | endpoint/galatea-kernel-sensor/src/ioctl.rs:75-103 | while an IRP is armed, exactly those events are queued that entered the queue after it was found empty for that IRP |
| ChannelBacklog.BacklogIff | endpoint/galatea-kernel-sensor/src/ioctl.rs:75-103 | when GET_EVENT finds the queue empty, its IRP can come to be armed with an event queued exactly if a notifier has looked by then and is yet to queue its event |
| ChannelTheorems.OnlyAgentReceives | endpoint/galatea-kernel-sensor/src/ioctl.rs:46-57 | only IRPs of the registered agent are completed with an event, and with it if their buffer is long enough |
| ChannelTheorems.RunsOnlyAdd | endpoint/galatea-kernel-sensor/src/ioctl.rs:141-150 | however a run goes on, the first registration stands and no completion, drop or delivery is undone |
| ChannelSteps.CallbackRaises | endpoint/galatea-kernel-sensor/src/callback.rs:134-149 | the process callback raises an event of its own process under the next request id, with as much of the image name as fits before a terminator |
| ChannelSteps.NotifierDelivers | endpoint/galatea-kernel-sensor/src/callback.rs:151-185 | from any state, a notifier that finds an armed IRP completes it with its event, or refuses its short buffer, and leaves the queue alone |
| ChannelSteps.NotifierQueues | endpoint/galatea-kernel-sensor/src/callback.rs:186-194 | without one it appends its event exactly if fewer than 1000 are queued, and drops it otherwise |
| ChannelSteps.GetEventIsRefused | endpoint/galatea-kernel-sensor/src/ioctl.rs:46-73 | GET_EVENT is denied to all but the agent, and fails while an IRP is pended; nothing shared changes |
| ChannelSteps.GetEventIsServed | endpoint/galatea-kernel-sensor/src/ioctl.rs:75-92 | the agent is given the event at the front, and exactly that one leaves the queue |
| ChannelSteps.GetEventIsPended | endpoint/galatea-kernel-sensor/src/ioctl.rs:93-105 | with an empty queue the IRP ends up pended and armed and the lock free |
| ChannelSteps.Cancellation | endpoint/galatea-kernel-sensor/src/ioctl.rs:185-244 | closing the handle, and cancelling in its two steps, completes the armed IRP as cancelled and empties the slot |
| ChannelSteps.NothingToCancel | endpoint/galatea-kernel-sensor/src/ioctl.rs:185-244 | an IRP that is not armed, or not the one pended, is left alone |
| ChannelSteps.FirstRegistrationWins | endpoint/galatea-kernel-sensor/src/ioctl.rs:141-150 | the first caller to register is the agent, and later ones change nothing |
| VerdictCache.Cache.Retain | endpoint/galatea-kernel-sensor/src/apc.rs:273 | keeps the unexpired entries, in order |
| VerdictCache.Cache.Record | endpoint/galatea-kernel-sensor/src/apc.rs:268-289 | expiry, eviction from the front, then update in place or append |
| VerdictCache.Cache.CheckEarly | endpoint/galatea-kernel-sensor/src/apc.rs:294-314 | returns and removes the entry of an id |
| VerdictCache.RecordKeepsShape | endpoint/galatea-kernel-sensor/src/apc.rs:273-287 | ids stay distinct and there are at most 1024 |
| VerdictCache.RecordMeans | endpoint/galatea-kernel-sensor/src/apc.rs:268-289 | the id maps to the new verdict; every other unexpired entry survives unless the cache was full and it was the first |
| VerdictCache.RecordKeepsOrder | endpoint/galatea-kernel-sensor/src/apc.rs:273-287 | the other survivors are the unexpired entries in their order, less the first if the cache was full |
| VerdictCache.FreshInNumbers | endpoint/galatea-kernel-sensor/src/apc.rs:273 | a verdict counts exactly while it is younger than 100,000,000 ticks; one from the future only if the difference wraps to less |
| VerdictCache.WriteInNumbers | endpoint/galatea-kernel-sensor/src/apc.rs:268-289 | another request's verdict survives a write exactly if it is younger than 100,000,000 ticks and not the first of 1024 such ones |
| VerdictCache.TakeMeans | endpoint/galatea-kernel-sensor/src/apc.rs:294-314 | a read takes its entry and nothing else, so a second one finds nothing |
| VerdictCache.RunRefinesMap | endpoint/galatea-kernel-sensor/src/apc.rs:268-314 | after any writes and reads the cache answers with a request's latest unread verdict or with none, and with that verdict exactly if no later write found the entry expired, or first in a full cache |
| VerdictCache.WriteKeepsOldestFirst | endpoint/galatea-kernel-sensor/src/lib.rs:102-103 | whatever a write expires and evicts, the list stays oldest-first exactly if the write moves no surviving entry's time past that of one behind it |
| VerdictCache.RunIsByInsertion | endpoint/galatea-kernel-sensor/src/apc.rs:273-287 | after any run the entries stand in the order in which they were put into the list |
| VerdictCache.EvictedIsOldestIff | endpoint/galatea-kernel-sensor/src/apc.rs:274-280 | after any run under a clock that does not run backwards, a full cache evicts its oldest entry exactly if the update branch did not move that entry's time past another's |
| VerdictCache.AlwaysOldestFirstIff | endpoint/galatea-kernel-sensor/src/lib.rs:102-103 | the list is oldest-first throughout such a run exactly if every write of it was in order |
| VerdictCache.NewestCanBeEvicted | endpoint/galatea-kernel-sensor/src/lib.rs:102-103 | a run in which a fresh entry is evicted and an older one stays |
| Freeze.Sensor.MatchThread | endpoint/galatea-kernel-sensor/src/callback.rs:107-121 | takes the request of the first listed target with the thread's pid, wherever it stands, and leaves the others in order; nothing is taken exactly if no target has that pid |
| Freeze.Sensor.RemoveScan | endpoint/galatea-kernel-sensor/src/apc.rs:196-207 | takes the first pending scan of a pid, wherever it stands, and leaves the others in order; nothing exactly if there is none |
| Freeze.Sensor.DeliverVerdict | endpoint/galatea-kernel-sensor/src/apc.rs:249-266 | writes the verdict of the request's entry and sets its event; nothing else changes |
| Freeze.Sensor.ApplyVerdict | endpoint/galatea-kernel-sensor/src/apc.rs:243-292 | delivers and sets the entry's event, or records in the cache if no scan is pending |
| Freeze.Sensor.WakeAll | endpoint/galatea-kernel-sensor/src/lib.rs:232-243 | sets every listed event and empties the list |
| FreezeSafety.TakesOwnEntry | endpoint/galatea-kernel-sensor/src/apc.rs:196-207 | what a thread takes off the list by its pid is its own context's entry, and it is there until unload |
| FreezeSafety.RunKeeps | endpoint/galatea-kernel-sensor/src/apc.rs:37-292 | the invariant behind the freeze protocol's promises holds after every run of every number of threads |
| FreezeTheorems.RequestInExactlyOnePlace | endpoint/galatea-kernel-sensor/src/callback.rs:69-129 | each issued request is in one callback's hand, in TARGET_PIDS, made into one context, waved through or given up, and only one of these |
| FreezeTheorems.PidAndRequestNameTheSameEntry | endpoint/galatea-kernel-sensor/src/apc.rs:196-261 | looking an entry up by its pid and by its request id finds the same entry |
| FreezeTheorems.WaitingProcessGetsItsVerdict | endpoint/galatea-kernel-sensor/src/apc.rs:176-234 | a process that waited is terminated exactly if its event was signalled and the last verdict written for its own request before it looked was deny, or unload had emptied the list |
| FreezeTheorems.ApcExitsEarlyIff | endpoint/galatea-kernel-sensor/src/apc.rs:154-174 | an APC finds a verdict in the cache exactly if the request numbered by its pid has an unread one that no later write has expired or evicted |
| FreezeTheorems.EarlyExitUsesVerdictOfPid | endpoint/galatea-kernel-sensor/src/apc.rs:154-174 | such an APC terminates its process exactly if that verdict denies, and it is of the process's own request exactly if pid and request id are equal |
| FreezeFailures.AnotherProcessesVerdictIsUsed | endpoint/galatea-kernel-sensor/src/apc.rs:154-174 | a run in which a process is given the verdict of another one |
| FreezeFailures.NewProcessDiesOfOldEntry | endpoint/galatea-kernel-sensor/src/apc.rs:119-207 | a run, with a pid used again, in which a new process that was allowed collects the deny of a run-down APC |
| FreezeTheorems.ContextFreedOnce | endpoint/galatea-kernel-sensor/src/apc.rs:95-128 | a context is freed at most once, and is freed exactly if no thread owns it; never do two |
| FreezeSteps.ProcessIsListed | endpoint/galatea-kernel-sensor/src/callback.rs:69-88 | a new process takes the next request id and is listed under it at the end, unless it is waved through |
| FreezeSteps.ThreadIsMatched | endpoint/galatea-kernel-sensor/src/callback.rs:95-129 | in every reachable state a thread of any listed process goes on to be frozen for exactly that process's request, which alone leaves the list; exactly the other threads are left alone |
| FreezeSteps.ThreadIsFrozen | endpoint/galatea-kernel-sensor/src/apc.rs:37-73 | a thread that exists is counted, and gets a new context and a listed entry that denies; one that is gone changes nothing |
| FreezeSteps.InsertionDecides | endpoint/galatea-kernel-sensor/src/apc.rs:88-117 | an inserted APC waits to run; otherwise its context is freed before its entry is unlisted |
| FreezeSteps.ApcStarts | endpoint/galatea-kernel-sensor/src/apc.rs:140-174 | an APC that runs takes the first cached verdict under its process's id out of the cache, and waits exactly if there is none |
| FreezeSteps.VerdictReachesItsEntry | endpoint/galatea-kernel-sensor/src/apc.rs:243-266 | in every reachable state a verdict is written to its request's entry, wherever it stands, and sets that event and no other; it goes to the cache exactly if there is no such entry |
| FreezeSteps.WaitEnds | endpoint/galatea-kernel-sensor/src/apc.rs:176-195 | a wait ends signalled exactly if its event is set and the wait is satisfied, and changes nothing |
| FreezeSteps.OwnEntryIsTaken | endpoint/galatea-kernel-sensor/src/apc.rs:154-234 | in every reachable state an APC takes its own entry off the list and no other; a process that waited is terminated exactly if its event woke it and that entry does not allow it |
| FreezeSteps.UnloadWakesAll | endpoint/galatea-kernel-sensor/src/lib.rs:232-243 | unload sets exactly the listed events besides those set, and empties the list |
| FreezeSteps.ApcEnds | endpoint/galatea-kernel-sensor/src/apc.rs:119-234 | an APC frees its context, then is no longer counted, then ends as it was to; one that is run down frees its context and is no longer counted |
| FreezeTheorems.UnloadLeavesNothing | endpoint/galatea-kernel-sensor/src/lib.rs:226-257 | once unload's wait is over nothing is listed, the count is zero, every context is freed and no callback runs; what may still run is a verdict being delivered or an APC past its decrement |
| FreezeFailures.UnloadOvertakes | endpoint/galatea-kernel-sensor/src/apc.rs:225-234 | a run in which unload's wait is over while an APC is yet to terminate its process |
| FreezeTheorems.DeadEntryIff | endpoint/galatea-kernel-sensor/src/apc.rs:95-128 | a listed entry's context is freed exactly if its APC was run down, or was not inserted |
| FreezeTheorems.RunDownLeavesDeadEntry | endpoint/galatea-kernel-sensor/src/apc.rs:119-128 | until unload, the next verdict of a request whose APC was run down signals the event of the freed context |
| FreezeFailures.VerdictSetsFreedEvent | endpoint/galatea-kernel-sensor/src/apc.rs:119-128 | a run in which a verdict does so |
| FreezeFailures.AllowedProcessCanDieAtUnload | endpoint/galatea-kernel-sensor/src/lib.rs:236-241 | a run in which a process last allowed is terminated because of unload |
| SensorRuns.EventsFollowRegistration | endpoint/galatea-kernel-sensor/src/callback.rs:69-92 | before an event can reach the agent its process is known to the freeze protocol under the same pid and request, or was waved through, as the event says |
| SensorRuns.RunKeeps | endpoint/galatea-kernel-sensor/src/callback.rs:21-93 | channel and freeze protocol together keep both invariants, and pids and requests stay paired |
| GalateaRuns.OneVerdictPerRequest | endpoint/galatea-agent/src/main.rs:238-289 | with sensor and agent running together, no request is ever given two verdicts |
| GalateaRuns.SignalledByItsVerdict | endpoint/galatea-kernel-sensor/src/apc.rs:176-266 | a process signalled before unload was signalled by the only verdict of its own request, sent for its own pid, and is terminated exactly if that verdict denies |
| GalateaRuns.TerminatedIffDenied | endpoint/galatea-kernel-sensor/src/apc.rs:176-234 | before unload a process that waited is terminated exactly if it was signalled and a job of its own request sent deny |
| GalateaRuns.ResumedOnAScan | endpoint/galatea-agent/src/static_analyzer/mod.rs:89-283 | a signalled process is terminated or resumed by the score of a completed scan of its job's file, or terminated without one; then its job was told of no file or an empty one, or could not read it, or had two waits fail |
| GalateaRuns.EarlyExitByVerdictOfPid | endpoint/galatea-kernel-sensor/src/apc.rs:154-174 | a process that did not wait is terminated exactly if the only verdict of the request numbered by its pid denied |
| GalateaExample.ProcessIsTerminated | endpoint/galatea-agent/src/main.rs:238-289 | one whole run, in which a process is created, frozen, denied and terminated |
| Heuristics.AnalyzePe | endpoint/galatea-agent/src/static_analyzer/heuristics.rs:32-126 | the loop over sections yields each finding as a statement about the sections, and the score in points of the findings |
| Heuristics.ScoreRange | endpoint/galatea-agent/src/static_analyzer/heuristics.rs:37-125 | the score lies in 0..105, and when it reaches either end |
| Heuristics.SectionsAreASet | endpoint/galatea-agent/src/static_analyzer/heuristics.rs:47-77 | permuting or repeating sections changes nothing in the report |
| ScoreTheorems.FindingsInPoints | endpoint/galatea-agent/src/static_analyzer/heuristics.rs:37-125 | 40 points for a section with all three rights, 25 for one of entropy above 7.2 or 55 if packed, 20 for fewer than 3 imports or 10 if packed, whatever their number and order |
| ScoreTheorems.PackerExcusesIff | endpoint/galatea-agent/src/static_analyzer/heuristics.rs:42-125 | naming a packer lowers a file's score exactly if its imports are hidden and no section has a high entropy |
| StaticAnalysis.Analysis.CheckSignature | endpoint/galatea-agent/src/static_analyzer/mod.rs:358-399 | the signature stage on the result record |
| StaticAnalysis.Analysis.CheckAuthenticode | endpoint/galatea-agent/src/static_analyzer/mod.rs:401-441 | the certificate stage on the result record: -40 for a trusted certificate, 100 for a revoked one, 5 for any other, and it blocks exactly above 80 |
| StaticAnalysis.Analysis.CheckMl | endpoint/galatea-agent/src/static_analyzer/mod.rs:491-516 | the ML stage on the result record: 40 exactly for a PE that the engine gives more than 0.9 |
| StaticAnalysis.Analysis.CheckHeuristics | endpoint/galatea-agent/src/static_analyzer/mod.rs:443-489 | the heuristic stage on the result record |
| StaticAnalysis.Analysis.RunStages | endpoint/galatea-agent/src/static_analyzer/mod.rs:231-250 | the early-exit loop yields details and verdict of the staged function |
| StaticAnalysis.CachedVerdictIsFresh | endpoint/galatea-agent/src/static_analyzer/mod.rs:112-250 | for every file, allow holds exactly if the score is at most 80, so a verdict recomputed from a cached score is the fresh one |
| StaticAnalysis.ScoreIsSum | endpoint/galatea-agent/src/static_analyzer/mod.rs:384-513 | wherever the stages stop, the score is the 32-bit sum of the recorded modifiers |
| StaticAnalysis.ScoreAccounting | endpoint/galatea-agent/src/static_analyzer/mod.rs:384-513 | with signature scores in 0..100 the sum is exact and lies in -40..225 |
| ScoreTheorems.ScoreInPoints | endpoint/galatea-agent/src/static_analyzer/mod.rs:231-516 | the whole score in points: a known file over 80, or one its certificate takes over 80, is asked no more, any other is asked all; it is allowed exactly up to 80 |
| ScoreTheorems.CertificateInPoints | endpoint/galatea-agent/src/static_analyzer/mod.rs:401-441 | two inputs that differ in the certificate alone and run through all stages differ by -40 for a trusted one, 100 for a revoked one and 5 for any other, from unsigned |
| ScoreTheorems.BetterCertificateHelpsIff | endpoint/galatea-agent/src/static_analyzer/mod.rs:401-441 | in the order trusted, unsigned, untrusted, revoked a better certificate never blocks an allowed file, exactly unless forgiving the file wraps 32 bits around |
| ScoreTheorems.ModelInPoints | endpoint/galatea-agent/src/static_analyzer/mod.rs:491-516 | the model adds 40 exactly if there is an engine, a PE, a probability above 0.9 and no earlier block, and changes nothing otherwise |
| ScoreTheorems.DetailsInPoints | endpoint/galatea-agent/src/static_analyzer/mod.rs:358-441 | signature and certificate are recorded as they were found, exactly by the stages that looked |
| ScoreTheorems.LateDetailsInPoints | endpoint/galatea-agent/src/static_analyzer/mod.rs:443-516 | prediction and findings are recorded exactly if no earlier stage blocked |
| StaticAnalysis.SummaryAgreesExceptAtThreshold | endpoint/galatea-agent/src/cache/static_analyzer_cache.rs:310-328 | the summary calls a file malicious exactly when it is blocked, unless it scored exactly 80, and suspicious exactly from 50 to 79 |
| ScanCache.ScanBarrier.Wait | endpoint/galatea-agent/src/cache/static_analyzer_cache.rs:61-83 | waits through every wake-up on a pending barrier; returns what first settled it, and times out exactly if nothing did |
| ScanCache.StaticResultCache.TryAcquireScan | endpoint/galatea-agent/src/cache/static_analyzer_cache.rs:197-252 | a hit only on equal size and time and on the recorded file index; otherwise the entry is dropped and the slot claimed or its barrier returned |
| ScanCache.StaticResultCache.Settle | endpoint/galatea-agent/src/cache/static_analyzer_cache.rs:276-282 | removes the key and settles its barrier, and no other |
| ScanCache.StaticResultCache.CompleteScan | endpoint/galatea-agent/src/cache/static_analyzer_cache.rs:255-273 | stores the scan and settles the key's barrier with it |
| ScanCache.ScanGuard.Complete | endpoint/galatea-agent/src/cache/static_analyzer_cache.rs:138-150 | completes the guard's key once; afterwards the guard resolves nothing |
| ScanCache.ScanGuard.Drop | endpoint/galatea-agent/src/cache/static_analyzer_cache.rs:152-159 | aborts the guard's key unless it was completed |
| ScanSafety.RunKeeps | endpoint/galatea-agent/src/static_analyzer/mod.rs:89-283 | the invariant behind the promises below holds after every run of every number of jobs, under eviction |
| ScanTheorems.SingleFlight | endpoint/galatea-agent/src/cache/static_analyzer_cache.rs:228-252 | a key is in progress exactly if some thread holds its guard, and never do two |
| ScanTheorems.PendingIffInMap | endpoint/galatea-agent/src/cache/static_analyzer_cache.rs:228-282 | a barrier is pending exactly while it is in the map, under the key it was made for, and is settled once |
| ScanTheorems.SettledForGood | endpoint/galatea-agent/src/cache/static_analyzer_cache.rs:85-97 | however a run goes on, a settled barrier keeps its result |
| ScanTheorems.NoStrandedWaiter | endpoint/galatea-agent/src/cache/static_analyzer_cache.rs:236-252 | whoever waits on a pending barrier waits for a scan of its own key whose guard a thread holds |
| ScanTheorems.GuardIsResolved | endpoint/galatea-agent/src/static_analyzer/mod.rs:214-265 | whatever the world answers, at most four steps of a guard's holder settle its barrier |
| ScanTheorems.WaiterGetsAScanOfItsKey | endpoint/galatea-agent/src/cache/static_analyzer_cache.rs:61-83 | a wait returns a scan completed for the waiter's key |
| ScanTheorems.WaiterGetsItsVersionIff | endpoint/galatea-agent/src/static_analyzer/mod.rs:119-134 | that scan is of the size and time the waiter saw exactly if the job that claimed it saw the same |
| ScanTheorems.WaiterReportsItsRescan | endpoint/galatea-agent/src/static_analyzer/mod.rs:119-134 | a waiter reports what the scan saw, and that is the waiter's own rescan if both jobs saw the same size and time and every look of the scan showed the version it recorded |
| ScanTheorems.ScansComeFromGuards | endpoint/galatea-agent/src/cache/static_analyzer_cache.rs:138-150 | a scan becomes known only through the holder of the guard for its key |
| ScanTheorems.HitIsACompletedScan | endpoint/galatea-agent/src/cache/static_analyzer_cache.rs:197-226 | in every run a hit is a scan completed for the same key, with the size and time the caller saw and the current file index if one was recorded |
| ScanTheorems.HitEqualsRescan | endpoint/galatea-agent/src/static_analyzer/mod.rs:89-265 | a hit is what a scan finds in the versions its looks at the file were shown; where an index was recorded, they are all the caller's version exactly if they are all the recorded one, and then the hit is the caller's own rescan |
| ScanTheorems.VerdictsAreFresh | endpoint/galatea-agent/src/static_analyzer/mod.rs:103-202 | every verdict with a scan to go by is the fresh verdict on the versions that scan was shown, so on the recorded version if they are all that one |
| ScanTheorems.EveryFrozenJobSendsOneVerdict | endpoint/galatea-agent/src/static_analyzer/mod.rs:89-334 | a finished job sent one verdict if its event was frozen and none otherwise, after at most two acquires and two waits, and resolved what it claimed once |
| ScanTheorems.VerdictsNameTheirRequest | endpoint/galatea-agent/src/engine/correlation.rs:73-78 | each verdict carries the pid and request of the job that sent it |
| ScanTheorems.AllowIsBacked | endpoint/galatea-agent/src/static_analyzer/mod.rs:110-282 | an allow verdict reports a completed scan of its path; a verdict that reports one allows exactly if it scored at most 80 |
| ScanTheorems.DenyWithoutScanHasACause | endpoint/galatea-agent/src/static_analyzer/mod.rs:95-229 | a verdict rests on no scan exactly if the job was told of no file or an empty one when it arrived, or was told that it could not read it, or had two waits fail; then it denies |
| ScanTheorems.ScannableJobsAcquire | endpoint/galatea-agent/src/static_analyzer/mod.rs:89-110 | in every run a frozen job asks for a scan exactly if it was told of a file that is not empty |
| ScanSteps.ArrivalDecides | endpoint/galatea-agent/src/static_analyzer/mod.rs:89-110 | whatever else is going on, a frozen job of a file that is there and not empty goes on to ask for a scan, any other frozen job denies |
| ScanSteps.CachedResultIsUsed | endpoint/galatea-agent/src/cache/static_analyzer_cache.rs:197-226 | a cached result of the same size and time is used exactly if it has no index or the file's index now is the same |
| ScanSteps.StaleResultIsForgotten | endpoint/galatea-agent/src/cache/static_analyzer_cache.rs:205-226 | a result of another version is removed, and no other, and the job goes on to claim |
| ScanSteps.MissingResultIsClaimed | endpoint/galatea-agent/src/cache/static_analyzer_cache.rs:197-228 | without a cached result the job goes on to claim and changes nothing |
| ScanSteps.ClaimJoinsOrStarts | endpoint/galatea-agent/src/cache/static_analyzer_cache.rs:228-252 | a claim joins the scan in progress of its key, and otherwise starts one with a new pending barrier |
| ScanSteps.WaitEnds | endpoint/galatea-agent/src/static_analyzer/mod.rs:119-202 | a wait that got a scan reports it; any other is tried once more and then denies |
| ScanSteps.ScanIsStored | endpoint/galatea-agent/src/static_analyzer/mod.rs:214-265 | a job that scans stores exactly its result, settles exactly its barrier with it and reports it |
| ScanSteps.UnreadableFileAborts | endpoint/galatea-agent/src/static_analyzer/mod.rs:214-229 | a job that cannot read its file stores nothing, fails exactly its barrier and denies |
| ScanSteps.ReportIsSent | endpoint/galatea-agent/src/static_analyzer/mod.rs:266-334 | a report is sent once and as it is, for the job's own request |
| ScanTheorems.WaiterCanGetAnotherVersion | endpoint/galatea-agent/src/static_analyzer/mod.rs:119-134 | a run in which a waiter allows a file that its own scan would block |
| ScanTheorems.AnyOtherVersionCanBeAllowed | endpoint/galatea-agent/src/static_analyzer/mod.rs:89-265 | whichever other version a scan was shown at any of its looks, there are contents and a run in which a hit allows a file that the caller's own scan would block |
| ScanTheorems.RewrittenFileCanBeAllowed | endpoint/galatea-agent/src/static_analyzer/mod.rs:89-218 | such a run for a file rewritten in place after its metadata was looked at, and set back with its time |
| ScanTheorems.ReplacedFileCanBeAllowed | endpoint/galatea-agent/src/static_analyzer/mod.rs:218-264 | such a run for a file replaced after it was scanned and before it is asked for its index |
| ScanTheorems.RedundantScan | endpoint/galatea-agent/src/cache/static_analyzer_cache.rs:205-252 | a run in which a file is scanned again although its result is cached |
| ScanTheorems.ClaimIsRedundantIff | endpoint/galatea-agent/src/cache/static_analyzer_cache.rs:205-252 | a job about to claim finds a usable result cached exactly if one was stored for its key after the job found the key missing, and neither evicted nor replaced since |
| Framing.UnframeFrame | endpoint/galatea-client/src/ipc_client.rs:175-184 | a frame is found again whatever follows it, and what follows is left intact |
| Framing.FrameUnframe | endpoint/galatea-agent/src/communication/ipc/ipc_server.rs:317-320 | whatever a stream yields was framed there |
| Framing.UnframeAllFrameAll | endpoint/galatea-agent/src/communication/ipc/ipc_server.rs:317-320 | a stream of frames falls apart into exactly the messages it was made of |
| Framing.CutFrameYieldsNothing | endpoint/galatea-client/src/ipc_client.rs:201-203 | a frame that was cut short yields no message |
| Framing.FrameInBytes | endpoint/galatea-agent/src/communication/ipc/ipc_server.rs:317-320 | byte by byte: the eight bytes of the length, the lowest first, and then the data |
| Framing.WritePipeBytes | endpoint/galatea-agent/src/communication/ipc/ipc_server.rs:322-334 | success means that every byte is in the pipe, and in any case a prefix is; every write but the last is of 65536 bytes |
| Framing.WriteCommandResponse | endpoint/galatea-agent/src/communication/ipc/ipc_server.rs:317-320 | success means that the whole frame is in the pipe; in any case a prefix of it is |
| Framing.ReadCommandBytes | endpoint/galatea-client/src/ipc_client.rs:186-209 | fills the buffer with the next bytes however they arrive; on a sound pipe it fails exactly if there are too few |
| Framing.ReadCommandResponse | endpoint/galatea-client/src/ipc_client.rs:175-184 | returns the first frame and consumes exactly it; on a sound pipe it fails exactly if there is no whole frame |
| Framing.Exchange | endpoint/galatea-client/src/ipc_client.rs:164-170 | over a sound pipe the client rebuilds what the agent framed, and the next frame is intact |
| Framing.ExchangeOverAnyPipe | endpoint/galatea-client/src/ipc_client.rs:164-170 | over a pipe that fails anywhere, a response that is read is the one that was written |
| DetectionBuffers.GalateaGui.UpdateIpc | endpoint/galatea-client/src/app.rs:75-103 | a detection goes to the front of the pending or the visible list, whichever pause selects, of which the first 1000 stay; the other list and everything else stand |
| DetectionBuffers.GalateaGui.Resume | endpoint/galatea-client/src/app.rs:128-134 | the two loops leave the newest 1000 of pending and visible |
| DetectionBuffers.GalateaGui.Update | endpoint/galatea-client/src/app.rs:73-163 | pausing flips, and resuming shows the first 1000 of pending and visible; expanding flips one event and pauses exactly if it opens one in the detection view; every other message leaves what it should |
| DetectionBuffers.BuffersHoldTheNewest | endpoint/galatea-client/src/app.rs:83-136 | after any messages the newest 1000 of pending and visible are the newest 1000 received, newest first, and nothing is pending unless paused |
| DetectionBuffers.VisibleIsTheNewest | endpoint/galatea-client/src/app.rs:90-136 | unpaused, the visible list is exactly the newest 1000 received |
| DetectionBuffers.PausedListStandsStill | endpoint/galatea-client/src/app.rs:85-96 | while paused the visible list does not move and the newest arrivals are pending |
| PackerText.ParseRender | endpoint/galatea-agent/src/static_analyzer/packers.rs:121-132 | every pattern of bytes and wildcards, written down, parses as itself |
| PackerText.PatternIsRead | endpoint/galatea-agent/src/static_analyzer/packers.rs:121-132 | a pattern is read back with any blanks before, between and behind its words and its digits in either case |
| PackerText.SignatureIff | endpoint/galatea-agent/src/static_analyzer/packers.rs:37-64 | a line gives a pattern exactly if it is written `signature = ..`, the key in any case and any blanks around either side |
| PackerText.EpOnlyIff | endpoint/galatea-agent/src/static_analyzer/packers.rs:57-67 | the same of `ep_only`, which is on exactly for `true` in any case |
| PackerText.HeaderIff | endpoint/galatea-agent/src/static_analyzer/packers.rs:43-54 | a line begins a block exactly if it is a name in brackets between blanks |
| PackerText.BlankIff | endpoint/galatea-agent/src/static_analyzer/packers.rs:37-41 | a line is passed over as empty exactly if it has only blanks, or is a comment behind blanks |
| PackerText.LineIsRead | endpoint/galatea-agent/src/static_analyzer/packers.rs:37-70 | whatever a line may be written for is what it is read as, and as nothing else |
| PackerLoader.PackerSignatureEngine.Load | endpoint/galatea-agent/src/static_analyzer/packers.rs:27-84 | appends the blocks between headers in file order; after a bad line only those already closed |
| PackerLoader.LoadedIffBlock | endpoint/galatea-agent/src/static_analyzer/packers.rs:43-79 | a signature is loaded exactly if some header begins a block that makes it |
| PackerLoader.LastPatternWins | endpoint/galatea-agent/src/static_analyzer/packers.rs:62-64 | of several patterns in a block the last counts |
| PackerLoader.LastEpOnlyWins | endpoint/galatea-agent/src/static_analyzer/packers.rs:65-67 | of several `ep_only` lines in a block the last counts |
| PackerLoader.Defaults | endpoint/galatea-agent/src/static_analyzer/packers.rs:31-54 | without such lines the pattern is empty and `ep_only` is on |
| PackerLoader.BlockMeans | endpoint/galatea-agent/src/static_analyzer/packers.rs:43-79 | a block is worth its name with its last pattern and its last word on `ep_only`, and nothing without a name or a pattern |
| PackerLoader.WrittenIsRead | endpoint/galatea-agent/src/static_analyzer/packers.rs:27-84 | any text that spells a list of signatures, with whatever blanks, letter case, comments, empty and unknown lines, falls into exactly this list's blocks |
| PackerLoader.LoadRendered | endpoint/galatea-agent/src/static_analyzer/packers.rs:27-84 | the lines of a written list of signatures fall into exactly this list's blocks |
| PackerLoader.LoadText | endpoint/galatea-agent/src/static_analyzer/packers.rs:27-84 | loading any such text of a list of signatures with names and patterns appends exactly this list |
| PackerLoader.MatchPattern | endpoint/galatea-agent/src/static_analyzer/packers.rs:134-150 | true exactly if the pattern fits and every byte that is no wildcard agrees |
| PackerLoader.FindEntryPointOffset | endpoint/galatea-agent/src/static_analyzer/packers.rs:152-166 | the offset in the first section that contains the entry point, or none if no section does |
| PackerLoader.PackerSignatureEngine.Scan | endpoint/galatea-agent/src/static_analyzer/packers.rs:86-118 | the loop returns the first signature that hits |
| PackerLoader.HitsWhereItStands | endpoint/galatea-agent/src/static_analyzer/packers.rs:97-112 | a signature hits by the bytes at the entry point if it is for entry points only, and by those at the start of the file otherwise |
| PackerLoader.ScanMeans | endpoint/galatea-agent/src/static_analyzer/packers.rs:86-118 | a scan answers with the first signature that the file's bytes agree with where it stands, and with none exactly if there is none, no section has the entry point or it lies behind the file |
| PackerLoader.FirstHitIsFirst | endpoint/galatea-agent/src/static_analyzer/packers.rs:97-117 | the answer is the first hit in loading order |
| PackerLoader.NoHitMeansNone | endpoint/galatea-agent/src/static_analyzer/packers.rs:97-117 | there is no answer exactly if nothing hits |
| Broadcast.IpcServer.Accept | endpoint/galatea-agent/src/communication/ipc/ipc_server.rs:59-62 | new clients join at the end |
| Broadcast.IpcServer.BroadcastMessage | endpoint/galatea-agent/src/communication/ipc/ipc_server.rs:336-377 | writes to every client in order; exactly those stay, in order, whose write did not find them gone, and exactly the others are closed, last first; nothing happens if the message cannot be serialised |
| Broadcast.IpcServer.Shutdown | endpoint/galatea-agent/src/communication/ipc/ipc_server.rs:79-85 | closes every client |
| Broadcast.ReverseRemovalIsFiltering | endpoint/galatea-agent/src/communication/ipc/ipc_server.rs:369-376 | removing by increasing places in reverse order is filtering, and removes the last first |
| Broadcast.KeptInOrder | endpoint/galatea-agent/src/communication/ipc/ipc_server.rs:349-376 | the clients that stay are exactly those whose write did not find them gone, in their order |
| Broadcast.ClosedOnceOrServed | endpoint/galatea-agent/src/communication/ipc/ipc_server.rs:48-86 | in every run each client that joined is served or was closed, once for each time it joined |
| Broadcast.ClientsStayInOrder | endpoint/galatea-agent/src/communication/ipc/ipc_server.rs:336-377 | the clients served are always in the order in which they joined |
| Broadcast.NoClientMissesAMessage | endpoint/galatea-agent/src/communication/ipc/ipc_server.rs:336-367 | a client still served was offered every message sent since it joined, in order, whatever handles are used again |

## Left out

- FreezeTheorems.WaitingProcessGetsItsVerdict: speaks of processes that waited; those that found a cached verdict are in FreezeTheorems.EarlyExitUsesVerdictOfPid.
- FreezeTheorems.RequestInExactlyOnePlace: assumes that pids are not reused while a request is listed; the code does not check it.
- ScanTheorems.HitEqualsRescan: a hit on an entry without an index equals the scan of a file without one; the code does not look at the caller's index then.
- GalateaRuns.TerminatedIffDenied: says nothing of how long a process waits, so a verdict that comes too late is one that did not signal it.
- Framing.ReadCommandResponse: allocating a buffer of the announced length cannot fail here.
- Heuristics.AnalyzePe: the import hash is left out, and entropy is any function of the section's bytes.
- Poisoned locks of the scan cache: a panic aborts the agent.
- Wait statuses other than signalled and timed out, real elapsed time, scheduling fairness, memory exhaustion.
- What unload does to the event channel, the device and the agent's process object.
- Processes without an image name, which the process callback ignores, and process exits.
- Which images are waved through: the answer of the allowlist is an input.
- MD5, certificates, PE parsing, ML inference and the signature database: inputs of the stages.
- Injection of the hook library after an allow verdict, and what is shown of system processes.
- JSON: messages are bytes or fail to serialise.
- Lower-casing beyond ASCII in the packer file: no other letter lower-cases to one of the keywords' letters.
- Cutting the packer file into lines: it is given as lines, each readable or not.
- File context cache, file signatures, file system filter, userland hooks, the babel server and the user interface: none of them takes part in the protocols above.
