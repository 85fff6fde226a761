# A verified model of llbuild

llbuild is a build system around an incremental build engine. This project models the engine and the
smaller algorithms it depends on, and proves what they guarantee. `dafny verify dfyconfig.toml` checks
all of it.

## The build engine

`EngineState.dfy` and `EngineSteps.dfy` describe the engine as a state and the steps it takes: looking at
one recorded dependency of a rule being scanned, handling one input request, providing one value,
starting one ready task, a report from a running task, retiring one finished task, the two ways of
breaking a cycle, cancelling, starting a build, and opening a new engine on the same database. A run is
any sequence of enabled steps, so that the theorems do not depend on the order in which the engine
empties its queues, nor on when tasks report. Every callback of the client is a function of the epoch, the
rule and the values its task has received so far, which covers inputs asked for because of the values of
other inputs.

- `EngineInvariant.dfy` states the invariant of eleven parts, the files from `EngineFrames.dfy` to
  `EngineRuns.dfy` prove that every step keeps it, and `EngineTheorems.dfy` and `EngineProgress.dfy` draw
  the conclusions about wait counts, readiness, recording order, ownership, cancellation and lost
  wake-ups. `CycleSearch.dfy` is the search of `findCycle`.
- `EngineWork.dfy` bounds the number of steps of a build by the number of rules and dependencies.
- `EngineSince.dfy` says what a build does to the results it started with, and `EngineDecisions.dfy` that
  it runs the rules that are out of date and leaves the others alone. `EngineReports.dfy` says what the report
  of a task does and how a forced change spreads, and `EngineChecks.dfy` which dependencies are looked at for
  a rule that is known to run.
- `CleanBuild.dfy` defines what a build from scratch gives, without timestamps, database or order of work,
  and `EngineValues.dfy`, `EngineValueSteps.dfy`, `EngineValueTasks.dfy` and `IncrementalBuild.dfy` prove that
  the engine's timestamps give the same. `EngineVerdicts.dfy` compares builds with each other.
- `BuildEngine.dfy` is the engine as an object whose methods change it in place. Each method is proved to
  do what the step of the same name does, so that all the theorems hold of it. It keeps what is parked on
  a scanning rule in records it gets from the allocator of `ScanRecords.dfy`.
- `CycleBreaking.dfy` says where a cycle can be broken; `SingleBuild.dfy`, `StuckBuilds.dfy` and
  `LostDiscovery.dfy` are concrete runs.

Some things the proofs brought out:

- The assertion in `resolveCycle` that a cycle was found fails when the key asked for is already complete
  and only the tasks of discovered dependencies are stuck (`StuckBuilds.NoCycleToFind`), and at the first
  cycle of a build only then (`EngineProgress.CycleFoundIff`).
- A build counts as a success when no task is left and its key is complete. Rules may still be scanning each
  other then (`StuckBuilds.SuccessLeavesScans`), and their scan records are deleted
  (`BuildEngineObject.BuildEngine.EndBuild`). The source guards against this only where the key is not
  complete.
- Cancelling a build while a discovered dependency has not been built can make a later build, by another
  engine on the same database, take a stale value for an up-to-date one
  (`LostDiscovery.CancellingCanLoseADiscovery`). `IncrementalBuild.IncrementalEqualsClean` therefore asks
  that a build is not cancelled while a stored result has an input with another value than the one that
  was used, unless a later build would find that input newer.
- `breakCycle` goes through its list backwards and looks for the rule before a waiting one that has an
  earlier result. At the first rule of the list there is none, and it reads past the end. That happens
  (`StuckBuilds.ListReadPastItsEnd`), and `BuildEngineObject.BuildEngine.BreakCycle` states exactly when.
- A lane stops at an empty job, as at shutdown. Jobs can be lost that way, exactly if there are at least
  as many empty jobs as lanes (`LaneQueue.NoJobIsLostIff`), and if a lane's own job adds them after shutdown
  exactly if there is one (`LaneQueue.NoJobIsLostLateIff`).
- The parser of dependency files reads beyond the end of its text exactly if that ends inside a backslash
  escape that belongs to a word (`MakefileDeps.OverrunIff`).
- A line continued with a carriage return before the newline is continued only after a blank: directly after a
  word the backslash and the carriage return belong to the word (`MakefileGrammar.ReturnBelongsToWord`).
- The memoised critical path is optimal for all weights exactly if dependencies come before their users
  (`CriticalPathSearch.OptimalIffInOrder`). The comment on it in the source asks only that the collection
  is larger than all identifiers.
- Quoting for Windows loses empty arguments and nothing else (`WindowsQuoting.RoundTripIff`); quoting for
  a shell loses the empty word and words that are written as they are and begin with a number sign
  (`ShellQuoting.OneWordIff`).

## The smaller parts

`BuildDatabase.dfy`: the encoding of results and the two caches of key identifiers. `LaneQueue.dfy`: the
execution queue as a concurrent protocol. `PathNormalization.dfy`: the in-place rewriting of paths.
`OwnershipAnalysis.dfy`: which command owns which directory. `WindowsQuoting.dfy` and `ShellQuoting.dfy`:
quoting, against the rules by which the text is read again. `ControlChannel.dfy`: the framing of control
messages. `MakefileDeps.dfy`: the parser of dependency files, and `MakefileGrammar.dfy`: what such files mean.
`CriticalPathSearch.dfy`: the critical path.

## Model

| member | source | states |
|---|---|---|
| `IncrementalBuild.IncrementalEqualsClean` | lib/Core/BuildEngine.cpp:448-739 | Over every run of any number of builds and engines on one database, in any order of work: each rule complete in the current epoch holds the value a recursive evaluation from scratch gives it in that epoch, provided every change shows in a signature or a validity check |
| `IncrementalBuild.HistoryDoesNotMatter` | lib/Core/BuildEngine.cpp:448-739 | Two such runs, by clients that may differ in their options for checking before running, agree on the value of every rule complete in both in the same epoch |
| `CleanBuild.CleanUnique` | lib/Core/BuildEngine.cpp:448-739 | The reference is well defined: two evaluations from scratch of one rule, whatever order they take their inputs in and however deep they go, give one value; nothing is assumed about cycles |
| `IncrementalBuild.RunRight` | lib/Core/BuildEngine.cpp:783-1139 | Every faithful run keeps the value invariant: what each stored, scanned, running and complete result may be relied on for |
| `IncrementalBuild.MayCancelWhenComplete` | lib/Core/BuildEngine.cpp:1388-1451 | When every input used by a rule that this build has completed, discovered ones included, is complete, the condition for cancelling holds: an input of a stored result that a later build will not find newer has the value that was used |
| `IncrementalBuild.ReloadDecidesAlike` | lib/Core/BuildEngine.cpp:561-568 | Not writing the database for rules that did not run is sound: after any faithful run, an engine that reloads the database finds the same dependencies newer and at that moment takes the same decision for every rule as the engine still running |
| `LostDiscovery.CancellingCanLoseADiscovery` | lib/Core/BuildEngine.cpp:1019-1038 | A concrete run of three builds, faithful except that one is cancelled before a discovered dependency has been built, after which a rule is complete with a value that a build from scratch does not give |
| `EngineProgress.NoLostWakeUps` | lib/Core/BuildEngine.cpp:783-1139 | In every reachable state with no work and no computing task, whether or not cycles have been broken, the waits of each key that was asked for or discovered and is not complete reach a cycle |
| `EngineProgress.StopsQuietIffAcyclic` | lib/Core/BuildEngine.cpp:783-1139 | When an engine has no work and no computing task, nothing at all is in flight if and only if no rule's waits reach a cycle |
| `EngineWork.BuildIsBounded` | lib/Core/BuildEngine.cpp:783-1139 | In every build, whatever the order of the work and however cycles are broken, the number of steps is at most four, plus four for each rule known, three for each dependency it had before, and four for each input its task asked for or discovered: only a task that asks for more and more keeps the engine busy |
| `EngineWork.LimitedBuildEnds` | lib/Core/BuildEngine.cpp:783-1139 | A build among a given number of rules, with limits on the dependencies each had and the inputs each task asks for, takes no more than a number of steps given by these |
| `EngineWork.StepWork` | lib/Core/BuildEngine.cpp:783-1139 | Every step within a build, in any reachable state, leaves less to do: the measure over rules, parked requests and queues goes down by one at least |
| `EngineProgress.CycleFoundIff` | lib/Core/BuildEngine.cpp:1148-1161 | Where the source calls `resolveCycle`, with tasks left: a cycle is found if the key asked for is not complete and, until a cycle has been broken, only then |
| `StuckBuilds.NoCycleToFind` | lib/Core/BuildEngine.cpp:1148-1161 | A concrete run to such a state in which the key asked for is complete and no cycle is to be found from it, so that the assertion fails: only the tasks of a discovered dependency are stuck |
| `StuckBuilds.ListReadPastItsEnd` | lib/Core/BuildEngine.cpp:1328-1334 | A concrete run to a state in which every list `findCycle` could return makes `breakCycle` look for a rule before the first |
| `StuckBuilds.SuccessLeavesScans` | lib/Core/BuildEngine.cpp:1110-1137 | A concrete run to a state the source takes for a success, with no task and the key complete, in which two rules still scan each other and so keep their scan records |
| `EngineProgress.WaitersAreBlocked` | lib/Core/BuildEngine.cpp:1163-1287 | Until a cycle has been broken, both ends of a recorded wait are waiting or scanning, so that a cycle of waits is real |
| `EngineProgress.WaitGraph` | lib/Core/BuildEngine.cpp:1166-1235 | The graph gathered from the four kinds of parked requests has exactly the waits of the state as its edges |
| `EngineProgress.FindWaitCycle` | lib/Core/BuildEngine.cpp:1163-1287 | On any state: an empty list if and only if no waits from the key come back to where they have been, otherwise a walk along real waits that begins with the key and whose last rule repeats an earlier one |
| `CycleSearch.FindCycle` | lib/Core/BuildEngine.cpp:1245-1287 | The path-stack search ends on every graph, finite or cyclic, and returns the empty list if and only if every path from the root is free of repetitions; otherwise a path whose last node repeats an earlier one and no other does |
| `EngineTheorems.WaitCountConservation` | lib/Core/BuildEngine.cpp:767-776 | In every state of every run, cycle breaking included, a task's wait count is the number of its open requests over all queues and parked lists, and each request it ever made is open in exactly one place or answered exactly once |
| `EngineTheorems.ExactlyOnce` | lib/Core/BuildEngine.cpp:547-623 | In any build a rule gets at most one task and a task becomes ready at most once |
| `EngineTheorems.OnlyWhenReady` | lib/Core/BuildEngine.cpp:948-980 | A task is ready or computing only when every input it asked for, must-follow ones included, has been answered and, unless a cycle was broken, is complete in this epoch |
| `EngineTheorems.CausalRecording` | lib/Core/BuildEngine.cpp:823-912 | The dependencies recorded for a ready or computing task are its requests, each once, and whatever it had received when it made a request is recorded before that request, whatever was paused and re-queued |
| `EngineDecisions.RunIffOutOfDate` | lib/Core/BuildEngine.cpp:638-733 | In every run, however far its last build has got: a rule that this build has decided to run, or has run, was out of date, and one it has decided to leave alone, or has completed without running it, was up to date, by the result the rule had before the build; out of date means never built, changed, no longer valid, or built before an input now complete was computed. By then every dependency it wanted checked first is complete. Excepted are rules forced to break a cycle |
| `EngineSince.BuildSince` | lib/Core/BuildEngine.cpp:1869-1896 | In a build, compared with the state before it: a rule that has not run has the result it had, and if no change is forced every result has its old value and its old time or a new value and the current time |
| `EngineReports.ReportSetsOutcome` | lib/Core/BuildEngine.cpp:1869-1896 | In every run: once the task of a rule has reported in a build, and whatever happens after that, the rule has the value reported and the current signature, and the current time if the value is another one or the change was forced, otherwise the time it had |
| `EngineReports.NoReportNoChange` | lib/Core/BuildEngine.cpp:1869-1896 | And if it has not reported, the rule has the value, signature and time it had before the build |
| `EngineReports.ForcedChangeSpreads` | lib/Core/include/llbuild/Core/BuildEngine.h:184-187 | In every run: after a forced change of a rule no rule that has recorded a dependency on its value is left alone in that build, although the value may be the same; whatever the build decides about it is to run it |
| `EngineReports.AnswersHaveValues` | lib/Core/BuildEngine.cpp:1325-1357 | In every reachable state, however cycles have been broken, what a task is going to be handed is the value of a rule that has been built in this build or an earlier one |
| `EngineChecks.OnlyChosenAreChecked` | lib/Core/BuildEngine.cpp:638-655 | In every reachable state, a scan that is known to end with its rule running, in whatever queue it is or on whatever it waits, is at a dependency only if the rule wants that checked first |
| `EngineChecks.OnlyChosenAreTouched` | lib/Core/BuildEngine.cpp:638-655 | After any run, one more look of such a scan changes no other rule than its own, unless that is a dependency the rule wants checked first; so it scans and demands no other |
| `EngineVerdicts.AlikeBuildsDecideAlike` | lib/Core/BuildEngine.cpp:448-739 | Two builds that start alike, for any keys, in any order of work and however far they have got: no rule that one has run or decided to run is left alone by the other |
| `EngineVerdicts.ChecksOnlyChangeTiming` | lib/Core/BuildEngine.cpp:478-541 | Of two builds from the same state, by clients that differ only in which rules check dependencies before running and which they check, neither runs, or decides to run, a rule that the other leaves alone; and where one does run a rule, every dependency that rule wanted checked is complete |
| `EngineVerdicts.ReloadChangesNoDecision` | lib/Core/BuildEngine.cpp:561-568 | Reopening the database between two builds changes no decision of the next build to run a rule or to leave it alone, in whatever order either does its work, although the database was not written for rules that did not run |
| `EngineTheorems.Ownership` | lib/Core/BuildEngine.cpp:250-270 | In every state, tasks correspond to rules in progress and scan records to scanning rules, the scan of each scanning rule is in exactly one place, and the outstanding counter is the number of computing tasks |
| `EngineTheorems.CleanCancellation` | lib/Core/BuildEngine.cpp:1388-1451 | Cancelling, from any reachable state in which the running tasks have reported, leaves no work, no task and no record; exactly the rules that were being scanned or built become incomplete, with the results they had, and no other rule and nothing in the database changes |
| `EngineRuns.RunInvariant` | lib/Core/BuildEngine.cpp:783-1139 | Every state of every legal run of the engine satisfies the invariant of eleven parts from which these follow |
| `EngineRuns.StepKeeps` | lib/Core/BuildEngine.cpp:783-1139 | Each kind of step within a build keeps that invariant |
| `EngineRuns.ForceBuildKeeps` | lib/Core/BuildEngine.cpp:1299-1323 | Forcing a scanning rule keeps it |
| `EngineRuns.SupplyPriorValueKeeps` | lib/Core/BuildEngine.cpp:1328-1357 | Supplying a prior value keeps it |
| `EngineRuns.StartBuildKeeps` | lib/Core/BuildEngine.cpp:1574-1698 | Starting a build on a quiet engine keeps it |
| `EngineRuns.CancelKeeps` | lib/Core/BuildEngine.cpp:1388-1451 | Cancelling keeps it, and leaves the engine quiet |
| `EngineScanning.ScanOneKeeps` | lib/Core/BuildEngine.cpp:629-739 | Looking at one recorded dependency keeps it, in each of the outcomes |
| `EngineInputs.InputOneKeeps` | lib/Core/BuildEngine.cpp:823-912 | Handling one input request keeps it, whether the request is paused, recorded or a dummy |
| `EngineDelivery.DeliverOneKeeps` | lib/Core/BuildEngine.cpp:914-946 | Providing one value keeps it, whatever the task asks for in return |
| `EngineCompletion.ReadyOneKeeps` | lib/Core/BuildEngine.cpp:948-980 | Starting one ready task keeps it |
| `EngineCompletion.TaskIsCompleteKeeps` | lib/Core/BuildEngine.cpp:1869-1906 | A report from a computing task keeps it |
| `EngineCompletion.FinishOneKeeps` | lib/Core/BuildEngine.cpp:982-1085 | Retiring one finished task keeps it: the result is stored, discovered dependencies are asked for, waiting requests and scans are woken |
| `BuildEngineObject.BuildEngine.constructor` | lib/Core/BuildEngine.cpp:1454-1456 | A new engine is in the initial state, which is reachable |
| `BuildEngineObject.BuildEngine.EachScanOwnsItsRecord` | lib/Core/BuildEngine.cpp:413-436 | Whatever the object has done, the scanning rules are exactly the rules that own a scan record; records of different rules differ, and none is on the free list or in the unused part of a block; each holds exactly what is parked on its rule |
| `BuildEngineObject.BuildEngine.ScanRule` | lib/Core/BuildEngine.cpp:448-520 | Leaves the rule as the scan function says, and returns whether it is now scanned |
| `BuildEngineObject.BuildEngine.DemandRule` | lib/Core/BuildEngine.cpp:547-623 | Leaves the rule complete, or with the one task created for it, and returns whether it is complete |
| `BuildEngineObject.BuildEngine.Launch` | lib/Core/BuildEngine.cpp:571-623 | The new task's dependencies start empty, its requests are queued in the order made, and it is ready at once if it made none |
| `BuildEngineObject.BuildEngine.AddTaskInputRequest` | lib/Core/BuildEngine.cpp:1804-1819 | One request more in the queue and one more to wait for, and nothing else changed |
| `BuildEngineObject.BuildEngine.AskFor` | lib/Core/BuildEngine.cpp:1804-1819 | A list of requests, in order, with their numbers |
| `BuildEngineObject.BuildEngine.FinishScanRequest` | lib/Core/BuildEngine.cpp:741-763 | All that was parked on the record is back in the queues, in order, and the record is gone |
| `BuildEngineObject.BuildEngine.AdvanceScan` | lib/Core/BuildEngine.cpp:721-738 | The scan goes on to the next dependency or ends with the verdict it has reached |
| `BuildEngineObject.BuildEngine.CompareInput` | lib/Core/BuildEngine.cpp:696-719 | Decides by the timestamps whether a dependency that is available makes the rule run |
| `BuildEngineObject.BuildEngine.ScanInput` | lib/Core/BuildEngine.cpp:659-719 | One turn of the loop over dependencies, parking the scan on the record or the task of the dependency where it must wait |
| `BuildEngineObject.BuildEngine.ScanNextInput` | lib/Core/BuildEngine.cpp:638-726 | The same, with the dependency looked up |
| `BuildEngineObject.BuildEngine.ProcessRuleScanRequest` | lib/Core/BuildEngine.cpp:629-739 | The loop of the source is a positive number of single scan steps on the top request, so every state it leaves is one a run reaches |
| `BuildEngineObject.BuildEngine.RecordRequest` | lib/Core/BuildEngine.cpp:886-912 | The dependency is recorded, and the request is finished or waits for the task of its input |
| `BuildEngineObject.BuildEngine.ProcessInputRequest` | lib/Core/BuildEngine.cpp:823-912 | Handles the request at the front of the queue; the object refines the step function for it, and stays reachable |
| `BuildEngineObject.BuildEngine.DecrementTaskWaitCount` | lib/Core/BuildEngine.cpp:767-776 | The task becomes ready exactly when its last request is answered |
| `BuildEngineObject.BuildEngine.ProcessFinishedInputRequest` | lib/Core/BuildEngine.cpp:914-946 | Handles one finished request; the object refines the step function for it, and stays reachable |
| `BuildEngineObject.BuildEngine.ProcessReadyTask` | lib/Core/BuildEngine.cpp:948-980 | Starts one ready task; the object refines the step function for it, and stays reachable |
| `BuildEngineObject.BuildEngine.TaskIsComplete` | lib/Core/BuildEngine.cpp:1869-1906 | The first report of a task is accepted if and only if the task is computing; then the object refines the step function for it, and stays reachable; a report that is refused changes nothing but that the build is to be cancelled |
| `BuildEngineObject.BuildEngine.ProcessFinishedTask` | lib/Core/BuildEngine.cpp:982-1085 | Handles one finished task; the object refines the step function for it, and stays reachable |
| `BuildEngineObject.BuildEngine.ForceRule` | lib/Core/BuildEngine.cpp:1299-1323 | Forces a scanning rule; the object refines the step function for it, and stays reachable |
| `BuildEngineObject.BuildEngine.SupplyValue` | lib/Core/BuildEngine.cpp:1328-1357 | Supplies a prior value; the object refines the step function for it, and stays reachable |
| `BuildEngineObject.BuildEngine.FindRequest` | lib/Core/BuildEngine.cpp:1376-1386 | The first request of the given task, or none if there is none |
| `BuildEngineObject.BuildEngine.BreakCycle` | lib/Core/BuildEngine.cpp:1289-1361 | A cycle is broken if and only if the last rule of the list at which it can be is one the delegate agrees to, and then exactly there, by one enabled step; the end of the list is overrun if and only if no rule after the first can be resolved and the first is waiting with an earlier result; otherwise nothing changes |
| `BuildEngineObject.BuildEngine.FindCycleFrom` | lib/Core/BuildEngine.cpp:1163-1287 | An empty list if and only if the engine's waits from the key reach no cycle, otherwise a walk along them that comes back |
| `BuildEngineObject.BuildEngine.ResolveCycle` | lib/Core/BuildEngine.cpp:1148-1161 | In a stuck state with tasks left, at the first cycle of a build or a later one, a cycle is found if the key is not complete, and until one has been broken only then; a cycle that is not broken leaves the engine as it was |
| `BuildEngineObject.BuildEngine.Drain` | lib/Core/BuildEngine.cpp:1398-1407 | Waiting for the running tasks: whatever reports come in at each turn, the counter never gets below the number of reports in the queue, each report is consumed once, and the counter reaches zero when the last outstanding task has reported |
| `BuildEngineObject.BuildEngine.CancelRemainingTasks` | lib/Core/BuildEngine.cpp:1388-1451 | Cancels from any reachable state, with the outstanding tasks reporting once each, in any batches, while it waits; the object refines the step function for it, and stays reachable |
| `BuildEngineObject.BuildEngine.FreeScanRecords` | lib/Core/BuildEngine.cpp:1435-1442 | Going through all rules releases every record that is in use, and each of them once |
| `BuildEngineObject.BuildEngine.CancelledRuleInfos` | lib/Core/BuildEngine.cpp:1409-1442 | Exactly the rules that were scanning or in progress lose their state |
| `BuildEngineObject.BuildEngine.Begin` | lib/Core/BuildEngine.cpp:1574-1698 | A build of a key starts on a quiet engine with the next epoch and one request; the object refines the step function for it, and stays reachable |
| `BuildEngineObject.BuildEngine.EndBuild` | lib/Core/BuildEngine.cpp:1658-1667 | Deleting the blocks leaves the engine in order if and only if no rule is scanning, and then changes nothing that can be seen |
| `BuildEngineObject.CleanSingleUseDependencies` | lib/Core/include/llbuild/Core/DependencyKeyIDs.h:57-71 | Erasing from the back gives the list without its single-use entries, in order |
| `EngineValues.CleanedInOrder` | lib/Core/include/llbuild/Core/DependencyKeyIDs.h:57-71 | That list is what it is for the parts of any list, one after the other: single-use entries are taken out and nothing else is done |
| `ScanRecords.Allocator.constructor` | lib/Core/BuildEngine.cpp:390-411 | No rule has a record |
| `ScanRecords.Allocator.Acquire` | lib/Core/BuildEngine.cpp:413-428 | The rule gets a clear record that no other rule has, and the records of other rules are untouched; a record given back is used before a new one, and a block is added exactly if there is neither |
| `ScanRecords.Allocator.Release` | lib/Core/BuildEngine.cpp:430-436 | The rule's record is given up and, up to the limit of the free list, can be used again; other records are untouched, and the free list holds distinct clear records only |
| `ScanRecords.Allocator.Park` | lib/Core/BuildEngine.cpp:855-858 | What is parked on one rule's record shows on no other |
| `ScanRecords.Allocator.Clear` | lib/Core/BuildEngine.cpp:1658-1667 | The blocks are deleted in any case, and the allocator stays in order if and only if no rule has a record |
| `BuildDatabase.RawRoundTrip` | lib/Core/SQLiteBuildDB.cpp:564-634 | Packing a dependency into 64 bits keeps both flags always, in the two lowest bits, and keeps the identifier, above them, if and only if it is below 2^62 |
| `BuildDatabase.DecodeEncoded` | lib/Basic/include/llbuild/Basic/BinaryCoding.h:62-183 | Decoding the bytes of any list of 64-bit words gives back the list |
| `BuildDatabase.ByteIsDigit` | lib/Basic/include/llbuild/Basic/BinaryCoding.h:62-183 | The byte at each place is that digit of the word to base 256, the lowest first |
| `BuildDatabase.EngineRoundTrip` | lib/Core/SQLiteBuildDB.cpp:448-676 | Turning a result into key names and back through one engine's key table is the identity |
| `BuildDatabase.StoreAndReload` | lib/Core/SQLiteBuildDB.cpp:448-676 | What one engine stores, another engine with its own key identifiers looks up as the same value, signature, timestamps and flagged dependencies in order |
| `BuildDatabase.BuildDB.constructor` | lib/Core/SQLiteBuildDB.cpp:430-446 | Opening a database, by whomever it was written, gives empty caches that agree with it |
| `BuildDatabase.BuildDB.GetKeyIDFromDB` | lib/Core/SQLiteBuildDB.cpp:898-943 | The identifier in the table of keys, which gains the key if it was missing and is not disturbed otherwise |
| `BuildDatabase.BuildDB.GetKeyID` | lib/Core/SQLiteBuildDB.cpp:877-892 | The same through the cache, and the two caches stay mutually inverse and agree with the table |
| `BuildDatabase.BuildDB.GetKeyIDForID` | lib/Core/SQLiteBuildDB.cpp:949-990 | The key with that identifier, and failure exactly when the table has none; the caches stay inverse |
| `BuildDatabase.BuildDB.EncodeDependencies` | lib/Core/SQLiteBuildDB.cpp:618-634 | The bytes stand for the dependencies in order, as identifiers in the table |
| `BuildDatabase.BuildDB.SetRuleResult` | lib/Core/SQLiteBuildDB.cpp:601-676 | The key then holds exactly the result, and what every other key holds is unchanged, new keys or not |
| `BuildDatabase.BuildDB.LookupRuleResult` | lib/Core/SQLiteBuildDB.cpp:448-581 | By the cached or the uncached path: the result the database holds for the key, nothing if it holds none, and failure exactly if its dependencies cannot be read |
| `BuildDatabase.BuildDB.DecodeDependencies` | lib/Core/SQLiteBuildDB.cpp:555-578 | Succeeds if and only if each identifier is in the table of keys, and then gives the flagged dependencies in order |
| `LaneQueue.RunInv` | lib/Basic/LaneBasedExecutionQueue.cpp:188-231 | Over every interleaving of adders, lanes and shutdown, whichever lane a notification wakes and however often lanes wake of their own accord: each job added is waiting or taken, once; each job taken is running or finished, once; and a waiting job is attended to |
| `LaneQueue.PriorityInOrder` | lib/Basic/LaneBasedExecutionQueue.cpp:344-357 | In every reachable state, the priority jobs taken and then those still waiting are the priority jobs added, in the order they were added |
| `LaneQueue.PriorityFirst` | lib/Basic/LaneBasedExecutionQueue.cpp:199-208 | Over every run, whichever moment of it is chosen: each priority job added by then is taken before every normal job that is taken later |
| `LaneQueue.NoLostNotification` | lib/Basic/LaneBasedExecutionQueue.cpp:192-197 | In every reachable state, if a job waits while a lane sleeps then another lane is awake and about to look; after shutdown no lane sleeps |
| `LaneQueue.AtMostOnce` | lib/Basic/LaneBasedExecutionQueue.cpp:188-231 | No job is ever run twice |
| `LaneQueue.EveryJobRuns` | lib/Basic/LaneBasedExecutionQueue.cpp:188-282 | Once all lanes have returned, every non-empty job added before shutdown or by a lane's own job has run exactly once, if fewer empty jobs than lanes were added, from outside and before shutdown |
| `LaneQueue.NoJobIsLostIff` | lib/Basic/LaneBasedExecutionQueue.cpp:210-212 | That bound is exact: for each number of lanes and of empty jobs, no job is ever lost if and only if there are fewer empty jobs than lanes |
| `LaneQueue.LateEmptyJobLosesOthers` | lib/Basic/LaneBasedExecutionQueue.cpp:210-212 | The other proviso is needed as well: however many lanes there are, one empty job that a lane's own job adds after shutdown can lose a job |
| `LaneQueue.NoJobIsLostLateIff` | lib/Basic/LaneBasedExecutionQueue.cpp:210-212 | Without any proviso the condition is exact too: no job is ever lost if and only if there is a lane and no empty job |
| `LaneQueue.BackgroundKeeps` | lib/Basic/LaneBasedExecutionQueue.cpp:434-447 | Each atomic step of the release counter keeps it equal to the granted, detached and refused requests not yet taken back |
| `LaneQueue.DetachedWithinMax` | lib/Basic/LaneBasedExecutionQueue.cpp:434-447 | Over every interleaving, detached waits never exceed the maximum, although the counter may |
| `LaneQueue.RefusedIffFull` | lib/Basic/LaneBasedExecutionQueue.cpp:434-447 | Over every interleaving, a wait is refused the background exactly if as many as the maximum are there, about to be, or about to be refused |
| `LaneQueue.AllDetachIfFew` | lib/Basic/LaneBasedExecutionQueue.cpp:434-447 | If there are no more processes than the maximum, no wait is ever refused or left to its lane |
| `LaneQueue.CounterOvershoots` | lib/Basic/LaneBasedExecutionQueue.cpp:434-447 | The counter does exceed the maximum: a concrete run |
| `LaneQueue.LimitsFitFiles` | lib/Basic/LaneBasedExecutionQueue.cpp:298-342 | The limits are the greatest that fit: all lanes asked for if two file descriptors for each and the reserved ones are available, and then as many background tasks as are wished for and still fit; otherwise as many lanes as fit, at least one, and no background tasks; the 32-bit wrap-around included |
| `PathNormalization.NormalizePath` | lib/Ninja/Manifest.cpp:60-132 | In place, on every absolute path: what is written is the normal form defined by a stack of components, nothing before the path is touched, and the write position never passes the read position |
| `PathNormalization.AfterSlash` | lib/Ninja/Manifest.cpp:78-127 | Looking ahead for one and two dots after a slash leaves the buffer with the directory the component leads to, or with the finished result |
| `PathNormalization.LeaveDirectory` | lib/Ninja/Manifest.cpp:104-127 | Two dots leave the text of the parent directory, or of the root at the root |
| `PathNormalization.GoUp` | lib/Ninja/Manifest.cpp:108-121 | Moving back to the slash before the last leaves the text of the parent directory, and stays at the root |
| `PathNormalization.Idempotent` | lib/Ninja/Manifest.cpp:60-132 | Normalising a normal form changes nothing |
| `PathNormalization.NoDots` | lib/Ninja/Manifest.cpp:60-132 | No component of a normal form is empty, one dot or two dots, except that the last is empty when the path ends with a slash |
| `PathNormalization.StayLaw` | lib/Ninja/Manifest.cpp:60-132 | For every path: an empty component or one dot can be left out anywhere without changing the normal form |
| `PathNormalization.UpLaw` | lib/Ninja/Manifest.cpp:60-132 | For every path: a name and two dots after it can be left out anywhere without changing the normal form |
| `PathNormalization.RootLaw` | lib/Ninja/Manifest.cpp:60-132 | Two dots at the root stay there |
| `PathNormalization.NamesLaw` | lib/Ninja/Manifest.cpp:60-132 | A path of names, with or without a slash at the end, is its own normal form |
| `OwnershipAnalysis.OneOwner` | lib/BuildSystem/BuildDescriptionBuilder.cpp:108-122 | Among paths none of which is inside another, at most one covers any given path |
| `OwnershipAnalysis.OwnerIsUnique` | lib/BuildSystem/BuildDescriptionBuilder.cpp:108-122 | So the owner found does not depend on the order in which the map is searched |
| `OwnershipAnalysis.CoversTogether` | lib/BuildSystem/BuildDescriptionBuilder.cpp:108-122 | Of two paths that cover the same path, one covers the other |
| `OwnershipAnalysis.CoversIff` | lib/BuildSystem/BuildDescriptionBuilder.cpp:108-122 | A path covers another exactly if its components are the first, but not all, of the components of the other; with or without a slash at its end |
| `OwnershipAnalysis.NoConflicts` | lib/BuildSystem/BuildDescriptionBuilder.cpp:69-90 | When every output is settled and nodes have one producer, no command produces anything inside another's output |
| `OwnershipAnalysis.SortByLength` | lib/BuildSystem/BuildDescriptionBuilder.cpp:59-66 | A permutation of the outputs, shortest path first |
| `OwnershipAnalysis.Analysis.constructor` | lib/BuildSystem/BuildDescriptionBuilder.cpp:43-67 | Starts with no owners and the outputs sorted by length |
| `OwnershipAnalysis.Analysis.IncludedOwnerOf` | lib/BuildSystem/BuildDescriptionBuilder.cpp:108-122 | The owner of a path covered by an included one, and none exactly if no included path covers it |
| `OwnershipAnalysis.Analysis.EstablishOwnerships` | lib/BuildSystem/BuildDescriptionBuilder.cpp:69-90 | Included paths form an antichain under directory prefix; on success every output that takes part is included or inside an included path of its own command, and excluded paths are exactly the other outputs; with one producer for each node it succeeds if and only if no command produces anything inside another's output |
| `OwnershipAnalysis.Analysis.AmendOutputs` | lib/BuildSystem/BuildDescriptionBuilder.cpp:154-166 | Each command gets as further outputs exactly the directory inputs covered by an included path it owns and not among its outputs before, once each, in the order in which they are first asked for; nothing else about any command changes |
| `WindowsQuoting.RoundTripIff` | lib/Basic/ShellUtility.cpp:22-84 | Splitting the formatted line by the rule for 2n and 2n + 1 backslashes gives back the arguments if and only if none of them is empty |
| `WindowsQuoting.AsItIsIff` | lib/Basic/ShellUtility.cpp:25-28 | An argument is written as it is exactly if there is no space, tab, newline, vertical tab or quotation mark in it |
| `WindowsQuoting.SplitLine` | lib/Basic/ShellUtility.cpp:77-84 | For every list of non-empty arguments the line splits into exactly those |
| `WindowsQuoting.ReadQuoted` | lib/Basic/ShellUtility.cpp:22-75 | Each argument by itself is read back, quoted or not, and what follows it is left |
| `WindowsQuoting.CountBackslashes` | lib/Basic/ShellUtility.cpp:50-54 | The length of the run of backslashes from a position on |
| `WindowsQuoting.FormatWindowsCommandArg` | lib/Basic/ShellUtility.cpp:22-75 | The loop writes the quoting of the argument, defined by recursion over its runs of backslashes, of which the round trip is proved |
| `WindowsQuoting.FormatWindowsCommandString` | lib/Basic/ShellUtility.cpp:77-84 | The line of which the round trip is proved |
| `ShellQuoting.OneWordIff` | lib/Basic/ShellUtility.cpp:87-122 | By token recognition and quote removal, sections 2.2, 2.3 and 2.6.7 of the POSIX.1-2017 Shell Command Language, the text is read as the one original word if and only if that is not empty and is not a comment written as it is |
| `ShellQuoting.AsItIsIff` | lib/Basic/ShellUtility.cpp:92-118 | A word is written as it is exactly if it is made of letters, digits and eleven marks; otherwise two quotes are added, and three characters for each single quote in it |
| `ShellQuoting.LineRoundTrip` | lib/Basic/ShellUtility.cpp:87-122 | A list of such words separated by spaces is read as that list |
| `ShellQuoting.ShellEscaped` | lib/Basic/ShellUtility.cpp:87-129 | The three ways of writing agree with one quoting, of which the round trip is proved |
| `ControlChannel.FramingIgnoresChunks` | lib/Basic/Subprocess.cpp:620-669 | However a stream is cut into chunks, release is seen exactly when the stream begins with the version line and the identifier's line, for identifiers of at most 16 characters on one line |
| `ControlChannel.FramingWorksIff` | lib/Basic/Subprocess.cpp:605-672 | And for no others: the limit on identifiers is exact |
| `ControlChannel.ReadMeans` | lib/Basic/Subprocess.cpp:617-669 | Whatever has been sent: one is returned exactly when the version line and another line have come, minus one when another line came first or an unfinished one is longer than 16, and zero otherwise |
| `ControlChannel.ControlProtocolState.constructor` | lib/Basic/Subprocess.cpp:605-615 | Nothing negotiated, nothing read, no release |
| `ControlChannel.ControlProtocolState.ReadChunk` | lib/Basic/Subprocess.cpp:617-669 | One chunk, however many lines it has, does to the fields what the framing is proved about |
| `ControlChannel.Listen` | lib/Basic/Subprocess.cpp:617-671 | Reading chunks until the first that does not return zero answers whether the whole stream begins with a release |
| `MakefileGrammar.ParseIff` | lib/Core/MakefileDepsParser.cpp:25-223 | The parser reports certain events exactly on the files that say so: a grammar of gaps and comments, blanks and line continuations, four ways of writing the parts of a word, rules, and three kinds of faults describes every text that is read within bounds, and every such description is read as what it says |
| `MakefileGrammar.LexWordIff` | lib/Core/MakefileDepsParser.cpp:95-148 | A word is read from a text exactly if it is written there in one of these ways and nothing after it belongs to it; a backslash before an ordinary character stands for itself |
| `MakefileGrammar.ReturnBelongsToWord` | lib/Core/MakefileDepsParser.cpp:74-78 | Directly after a word, a line continuation with a carriage return does not continue the line: the backslash and the carriage return are read as part of the word |
| `MakefileGrammar.ReadOneLine` | lib/Core/MakefileDepsParser.cpp:156-222 | A line is read as what it says whatever comes after it, and nothing after the first rule is read if subsequent outputs are ignored |
| `MakefileGrammar.ErrorIff` | lib/Core/MakefileDepsParser.cpp:165-205 | An error is reported exactly for the texts with a line that does not begin with a word, a name that no colon follows, or something among the dependencies of a rule that no word can begin with |
| `MakefileGrammar.RoundTrip` | lib/Core/MakefileDepsParser.cpp:25-223 | Printing rules with space, number sign, backslash and dollar escaped and parsing the text reports the same names and dependencies in order, for the words the format can express |
| `MakefileDeps.OverrunIff` | lib/Core/MakefileDepsParser.cpp:95-223 | Exactly when the parser reads beyond the end: the text ends with an odd number of backslashes, and the text before them, read by an automaton of nine modes, ends where a word may begin or go on; not in a comment, nor between a name and its colon, nor on a line skipped after an error, nor after the first rule when only that is wanted |
| `MakefileDeps.NoOverrun` | lib/Core/MakefileDepsParser.cpp:95-223 | On every text that does not end inside a backslash escape the parser stays within the text |
| `MakefileDeps.Overruns` | lib/Core/MakefileDepsParser.cpp:106-108 | A text of three characters on which it does not |
| `MakefileDeps.SkipWhitespaceAndCommentsAt` | lib/Core/MakefileDepsParser.cpp:40-57 | The cursor is where the skipping defined on the text leaves it |
| `MakefileDeps.SkipNonNewlineWhitespaceAt` | lib/Core/MakefileDepsParser.cpp:59-82 | Likewise, with line continuations |
| `MakefileDeps.SkipToEndOfLineAt` | lib/Core/MakefileDepsParser.cpp:84-93 | Likewise, to the next line |
| `MakefileDeps.LexWordAt` | lib/Core/MakefileDepsParser.cpp:95-148 | The word and the rest that the lexer defined on the text gives, which MakefileGrammar.LexWordIff characterises, and failure exactly where that goes beyond the end |
| `MakefileDeps.LexColonsAt` | lib/Core/MakefileDepsParser.cpp:206-214 | Likewise for the parts of a dependency joined by colons |
| `MakefileDeps.ParseDependenciesAt` | lib/Core/MakefileDepsParser.cpp:189-217 | Reports the events of the dependencies on the line |
| `MakefileDeps.ParseOne` | lib/Core/MakefileDepsParser.cpp:156-222 | One turn of the loop, which always makes progress |
| `MakefileDeps.Parse` | lib/Core/MakefileDepsParser.cpp:150-223 | Reports the events of the text, which MakefileGrammar.ParseIff characterises |
| `CriticalPathSearch.CriticalPathIsOptimal` | lib/Analysis/CriticalPath.swift:100-120 | With dependencies before their users and weights not negative, the memoised result is a dependency chain, weighs the sum of its elements, and no chain weighs more |
| `CriticalPathSearch.OptimalIffInOrder` | lib/Analysis/CriticalPath.swift:106-115 | For a graph without cycles and repeated dependencies, the result is optimal whatever the weights are if and only if dependencies come before their users: a miss in the cache loses the element that asked |
| `CriticalPathSearch.OrderIsNeeded` | lib/Analysis/CriticalPath.swift:106-115 | Two elements in the wrong order for which the result misses half the weight |
| `CriticalPathSearch.GeneratePath` | lib/Analysis/CriticalPath.swift:106-115 | The recursive search with its shared cache does what the search on values does |
| `CriticalPathSearch.CalculateCriticalPath` | lib/Analysis/CriticalPath.swift:100-120 | The result of which optimality is proved |
| `CriticalPathSearch.CheckedInit` | lib/Analysis/CriticalPath.swift:55-69 | Succeeds if and only if each element depends on the one before it, with the sum of the weights; otherwise it names the first pair that is not linked |

## Left out

- IncrementalBuild.IncrementalEqualsClean: does not cover builds after a cycle was broken, since values are then supplied that are known to be old.
- IncrementalBuild.IncrementalEqualsClean: does not cover another build by an engine that has cancelled one, since rules keep their verdicts and have lost their dependencies; another engine on the same database is covered.
- IncrementalBuild.IncrementalEqualsClean: does not cover cancelling while some stored result has an input whose stored value is not the one that was used and would not be found newer; whether a given run then loses a change depends on what is built and changes later, so that the condition is shown to be needed by a run and not to be exact.
- IncrementalBuild.IncrementalEqualsClean: does not cover single-use inputs asked for by value, which the engine forgets on purpose, nor values that depend on a prior value of the same rule; discovered dependencies are assumed to have had their clean value when they were read.
- EngineDecisions.RunIffOutOfDate: says nothing of builds that start with rules left scanned by a cancelled build in the same engine, because these keep the decision of an earlier epoch; nor of rules forced to break a cycle.
- EngineVerdicts.AlikeBuildsDecideAlike: does not cover builds in which a cycle is broken or a task reports a forced change, since a time can then change without the value.
- EngineVerdicts.ReloadChangesNoDecision: compares any two continuations; that the same steps are possible after reopening is not stated.
- EngineRuns.StartBuildKeeps: asks for a quiet engine. By EngineProgress.StopsQuietIffAcyclic a build without tasks ends quiet unless rules scan each other in a cycle; their scan records are then deleted, and the source has no defined behaviour in a later build that comes to them.
- BuildEngineObject.BuildEngine.Begin: asks for a quiet engine, for the same reason.
- BuildEngineObject.BuildEngine.ResolveCycle: whether a cycle can still be found from a complete key after one has been broken is not stated, and which cycle the delegate is told about is not modelled.
- EngineProgress.FindWaitCycle: the order of predecessors, which the source sorts so that the same cycle is reported each time, is not modelled.
- BuildEngineObject.BuildEngine.CancelRemainingTasks: reports come in between the turns of its loop and not in the middle of one, as the lock in the source has it; that every outstanding task reports once is asked of the client, since the source waits for it.
- BuildEngineObject.BuildEngine.TaskIsComplete: dependencies discovered during a task are reported together with its value; and a task reports once, as the source expects but does not check.
- The outer loop of `executeTasks`, which chooses what to do next and waits for tasks; runs of steps cover every order it could take. EngineWork.BuildIsBounded counts steps, not time: whether a client's tasks report is up to the client.
- Trace output, status callbacks, delegate notifications, wall-clock times and the error paths of a failing database.
- MakefileDeps.Parse: the Windows branch of the lexer, the offsets of errors, and the raw spelling of words passed beside the unescaped one are not modelled.
- BuildDatabase.BuildDB.SetRuleResult: asks that identifiers stay below 2^62, where BuildDatabase.RawRoundTrip shows the encoding to break. SQLite itself, its errors, transactions and column types are an abstract table.
- OwnershipAnalysis.Analysis.EstablishOwnerships: says when it succeeds for nodes with one producer each; two commands that produce the same path are not detected by this analysis unless the path ends with a slash. Collecting the nodes from the commands, and virtual nodes, are not modelled.
- OwnershipAnalysis.Analysis.constructor: sorts by insertion where the source calls the library's sort; only the order by length and the permutation are used.
- PathNormalization.NormalizePath: begins after the root name, which the source asks a library for, with the slash there; making a path absolute is not modelled.
- ShellQuoting.OneWordIff: operators, expansions, patterns and here-documents are not read by the model of a shell, which fails on them; words with a null character are not excluded, although no shell can be given one.
- CriticalPathSearch.OptimalIffInOrder: weights are real numbers, so rounding is not modelled, and which of several heaviest paths is returned is not stated; a dependency listed twice is excluded, because the second one is found in the cache.
- LaneQueue.EveryJobRuns: each region under the lock is one step; the choice a scheduler makes among normal jobs is left open, and time, signals and the killing of processes are not modelled.
- ControlChannel.Listen: the pipe and the polling around it are not modelled.
- Spawning processes, the file system and its metadata, hashing, the YAML build files, the build system's commands and tools, the Ninja lexer and loader, the dependency information parser, the command-line tools and the language bindings: operating-system interfaces, thin layers, or more members of the kinds above.
