# Verified models of the scan runner's core

This project models, in Dafny, the parts of the scanner whose correctness is a matter of
invariants rather than of reading one function, and proves what they are meant to guarantee.

- **Heartbeat** (`Heartbeat`, `HeartbeatProofs`, `HeartbeatStatus`, `HeartbeatShown`,
  `HeartbeatTrace`, `HeartbeatCalls`): the loop goroutine, phase callers, `Stop`, `Finish` and whoever
  finalizes the row, any number of times and with any terminal status, or deletes it, as a transition
  system over `mu`, `writeMu`, the one-slot wake-up channel, the stop signal and the once; any number
  of threads, every interleaving. What documents tell and callers may rely on is stated over the steps
  of a run.
- **Crash-atomic write** (`AtomicFile`, `AtomicTears`): volatile and durable file contents and
  directory entries, any number of writers, a crash between any two steps. A crash reverts each
  directory entry on its own to any value since the last directory sync and leaves any bytes in an
  unsynced file. A clock runs, and any number of sweeps look at the age of a staging entry and, in a
  later step, remove one last written more than a day before they looked.
- **Deep copy** (`DeepCopy`): over Dafny's own heap, with pointers, slices and maps as objects.
- **Scope** (`Scope`, `OriginIndex`, `ScopeCache`, `ScopeVerdict`, `Admission`): the compiled origin
  index against the loop it replaced, the host cache raced by the allow-set, the verdict and its
  explanation, target admission.
- **Worker pool** (`WorkerPool`): atomic hand-out of indexes with cancellation.
- **Settings** (`SettingsTree`, `SettingsSchema`, `ProjectOverlay`, `OverlayRace`, `OverlayCache`,
  `ProfileLayering`, `ProjectSettings`, `SetField`): one-key writes over nested mutable maps, the laws
  they obey, two of them at once, the layering of profiles and project overlays, the cache of parsed
  overlays with loads and writes interleaved, and `SetField`.
- **Line-capturing writer** (`Texts`, `TeeWriter`), **phase selection and plan** (`PhaseSelection`,
  `PhasePlan`, `PhaseProofs`, `PhaseSwitches`), **module and extension selection** (`ModuleSelection`,
  `ExtensionSelection`), **request estimate** (`PlanEstimate`), **finding grouper**
  (`FindingGrouper`), **text codecs** (`PortList`, `Redact`).

Concurrent code is a step machine: `Can`/`Enabled` says when a thread may take a step, `Next`/`Apply`
what it does, and theorems range over all runs from the initial state. Sequential code that mutates
state is a class or a method with loops, proved equal to a specification function, and the theorems
are lemmas about that function. Library behaviour (globbing, public suffixes, URL parsing, case
folding, YAML text, value parsing, ANSI stripping) enters as function-valued parameters, so the
theorems hold whatever it is.

Run `dafny verify dfyconfig.toml` to check everything.

## What the models show about the code

- `internal/config/scope_matcher.go:754-758` says the index answers as the per-target loop did. It
  does, except for an unrecognised mode over IP-address targets only, asked about a host that is not
  a target: the loop compared addresses, the index admits everything (`IndexAgreesWithTheLoop`).
- A target without a scheme but with a path is indexed with the path and admitted without it. So
  `a.b/p` is refused by its own list in strict mode and in balanced mode, the default
  (internal/config/scope.go:10), and kept in relaxed mode (`SchemelessPathIsRefused`); with a scheme it
  never happens. `OwnListRefusesIff` says exactly when a list refuses a target, in every mode.
- `SetProjectOverlayValue` accepts every key of `scanning_strategy`, while `ApplyProfile` applies only
  two of them: the others are stored and have no effect (`AcceptedWriteTakesEffectIff`,
  `StoredAndIgnored`). A null stored for a scalar has no effect either, and a map-valued setting
  written whole is merged with the global entries when the overlay is applied, although `SetField`
  itself replaces it (`LayerIsWrittenIff`, `WholeMapIsMerged`). The section check also lets through
  `raw`, the lower-case name of an untagged field, and a key whose last segment does not exist; null is
  stored for both (`RawIsStored`, `MissingKeyIsStored`, `AcceptedWriteNamesASettingIff`).
- internal/config/project_settings.go:109-111 says that an in-process write followed by a load within
  one mtime tick can never return the previous content. It can: a load that parsed the old file before
  the write may store that parse after the invalidation (`InvalidatedParseComesBack`). Later loads are
  current exactly when no load still running holds a parse of other content under the file's time and
  size (`WriteIsSeenIff`), which is so whenever no time and size come back (`DifferentStampsSettle`).
- When a heartbeat ends with its row, the loop adopts the row's terminal status, and the row may be
  finalized again; `Stop` reads it once more. So a terminal status that status.json already shows can
  be replaced there, without a `Finish`, by another (`PublishedStatusCanChange`): it can as long as
  some thread carries another one, a document about to be written included, or no `Stop` has begun and
  one would, and otherwise never again (`ShownCanChangeIff`, `ShownStaysForGood`). The status in memory
  settles earlier, when `Stop` has made up its mind (`TerminalCanChangeIff`); the write that follows can
  still change the file (`SettledInMemoryStillWritten`).
- A one-key write keeps every other setting exactly when no plain value stands on its way
  (`LosesNothingIffClear`).
- A star among the includes of a substring rule means anything only while the rule has no excludes; with
  one it is a character to be found, so a rule that includes `*` and excludes `logout` refuses every
  text without a star in it (`TextIsItsSides`).
- With both module lists empty no built-in module runs and passive extensions are dropped, but every
  active extension still runs (`EmptyActiveListDropsItsExtensionsIff`).
- `parallelEach` without a worker returns zero skipped for a positive n, having run nothing
  (`RunPlusSkippedIsAll`).
- Crash atomicity rests on two conditions the code does not enforce: no call leaves its staging file
  untouched for longer than the sweep's day before a sweep looks at it, and no call draws a staging name
  between a sweep's look at it and its removal (`OldOrNewNeverTorn`). The second holds when sweeps come
  one at a time (`OneSweepAtATimeNeverTears`); but each process sweeps on its own. Without the first a
  swept and redrawn name publishes a torn file (`SweepingALiveFileTears`); without the second so do two
  sweeps that found the same abandoned file, however quick the calls (`TwoSweepsTear`). A removal keeps
  the invariant if and only if it spares every running call (`SweepKeepsInvIff`).
- Two calls of `SetProjectOverlayValue` at once, for keys apart, may lose one: both survive exactly when
  one call read the file after the other had written it, or the value written first was there already
  (`BothKeysSurviveIff`).
- The deep copy shares what unexported fields refer to: everything reachable from the copy is new if and
  only if no unexported field of the value holds a reference (`Clone`). No struct `Settings` reaches has
  an unexported field, so for settings the copy is complete; `HiddenPointersAreShared` shows the other case.

## Model

| member | source | states |
|---|---|---|
| `HeartbeatProofs.NoLostWakeUp` | internal/runner/liveness.go:224-282 | in every reachable state, an event a completed poke asked for and no snapshot has is covered: the kick slot is full or the loop still has a snapshot ahead, unless it is leaving |
| `HeartbeatProofs.SleepingLoopIsUpToDate` | internal/runner/liveness.go:224-249 | a loop asleep with an empty slot, whose last write went well, has published every poked event: the newest document replays a log prefix at least that long |
| `HeartbeatProofs.PokedReportIsPublished` | internal/runner/liveness.go:244-282 | along any run after a poke, whatever writes failed before, a loop asleep after a good write has that report and everything before it in the newest document |
| `HeartbeatProofs.StopPublishesEverything` | internal/runner/liveness.go:391-414 | once a Stop that wrote a document has returned, the newest document has every event recorded, poked or not, before that Stop began, so a loop on its way out loses nothing |
| `HeartbeatProofs.DocumentsInOrder` | internal/runner/liveness.go:303-361 | for any two written documents, done phases only extend, finding counts never fall, and each replays a prefix of the reports |
| `HeartbeatTrace.FindingsAreCounted` | internal/runner/liveness.go:284-301 | in every run the record has counted each RecordFinding step once, in all and under its non-empty severity, and has heard the phase reports of the steps in order |
| `HeartbeatTrace.DocumentsDescribeTheRun` | internal/runner/liveness.go:177-394 | in every run there is one document on disk for each good write, and it carries exactly the findings, requests, progress, running phase and done phases of the steps up to the last snapshot before that write |
| `HeartbeatCalls.AsleepHasPublished` | internal/runner/liveness.go:224-282 | in every run a loop asleep with no poke pending, whose last write went well, has every phase report whose caller has poked it in the newest document, and every finding before it |
| `HeartbeatCalls.StopPublishesTheRun` | internal/runner/liveness.go:395-414 | once Stop has run, with every write since good, the newest document takes in every step before it began, findings included |
| `HeartbeatCalls.FinishSetsWhatItWasGiven` | internal/runner/liveness.go:416-428 | the statuses set are those the callers of Finish asked for, in the order they were set, and a Finish that returned has set its own |
| `HeartbeatCalls.FinishIsShown` | internal/runner/liveness.go:416-428 | when every Finish of a run asks for one status and every write goes well, the file shows it once one of them has returned |
| `HeartbeatCalls.TerminalHasASource` | internal/runner/liveness.go:361-428 | a terminal status in any document is one some Finish was called with or, only for a heartbeat that ends with its row, what the row was finalized as, a failure that says cancelled being a cancellation |
| `HeartbeatCalls.LoopLeavesForAReason` | internal/runner/liveness.go:224-242 | the loop leaves only when a Stop has begun or, for a heartbeat that ends with its row, when the row is over |
| `HeartbeatProofs.TerminalIsAbsorbing` | internal/runner/liveness.go:334-428 | once a terminal status is written every later document is terminal, with a status Finish set or one the row once carried, however often the row is finalized |
| `HeartbeatStatus.TerminalCanChangeIff` | internal/runner/liveness.go:361-414 | in a reachable state with a terminal status in memory some run without a Finish changes it if and only if Stop has not begun and will read the row, or has begun and not yet settled on that status |
| `HeartbeatStatus.AdoptedStatusCanChange` | internal/runner/liveness.go:361-414 | a heartbeat that ends with its row can have any terminal status in memory and then, without a Finish, another |
| `HeartbeatStatus.StatusStaysForGood` | internal/runner/liveness.go:391-428 | from a state where it can change no more, no run without a Finish changes the terminal status in memory |
| `HeartbeatShown.ShownCanChangeIff` | internal/runner/liveness.go:303-414 | in a reachable state whose status.json shows a terminal status some run without a Finish makes it show another if and only if there is a file and some thread carries another status, in a document still to be written, in memory, or in the row it will read, or no Stop has begun and one would |
| `HeartbeatShown.ShownStaysForGood` | internal/runner/liveness.go:303-428 | from a state where it can change no more, no run without a Finish changes the terminal status status.json shows |
| `HeartbeatShown.PublishedStatusCanChange` | internal/runner/liveness.go:334-414 | a heartbeat that ends with its row and has a file can show any terminal status in it and then, without a Finish, another |
| `HeartbeatShown.SettledInMemoryStillWritten` | internal/runner/liveness.go:334-414 | a Stop that has adopted another status than the file shows has settled the one in memory, and its next good write changes the one the file shows |
| `HeartbeatProofs.FinishHasTheLastWord` | internal/runner/liveness.go:419-428 | after a Finish that wrote has returned, the newest document shows the status of that Finish or of a later one |
| `HeartbeatProofs.NoDeadlock` | internal/runner/liveness.go:224-428 | while any call is in progress some thread can move, over the write lock, the once, the done channel and the loop |
| `HeartbeatProofs.ReachableInv` | internal/runner/liveness.go:152-428 | the invariant holds in every reachable state of loop, callers, Stop, Finish and a row finalized any number of times or deleted |
| `HeartbeatProofs.StepKeepsInv` | internal/runner/liveness.go:152-428 | every step of every thread, and every change of the row, keeps the invariant |
| `AtomicFile.OldOrNewNeverTorn` | internal/atomicfile/atomicfile.go:116-249 | after any run of concurrent writers and sweeps with a crash at any point, no call idling beyond the age when a sweep looks and none drawing a name between a look at it and its removal, a reader sees the content at the start or exactly one the calls were given |
| `AtomicFile.OneSweepAtATimeNeverTears` | internal/atomicfile/atomicfile.go:116-249 | the same for any run in which, besides no call idling so, no sweep looks while another has a name to remove: nobody else can free that name, so no call draws it |
| `AtomicFile.SyncedRenameIsDurable` | internal/atomicfile/atomicfile.go:197-226 | once a call has renamed and synced the directory no crash brings back anything older than its content |
| `AtomicFile.OnlyRenameShows` | internal/atomicfile/atomicfile.go:204-226 | no step but a rename or a crash changes what a reader of the destination sees, and a rename shows exactly the staged content |
| `AtomicFile.NoRenameNoChange` | internal/atomicfile/atomicfile.go:170-226 | a run with no rename and no crash leaves the destination as it was |
| `AtomicFile.FailedCallNeverRenamed` | internal/atomicfile/atomicfile.go:175-226 | a call that ends in an error never renamed |
| `AtomicFile.ErrorLeavesDestinationUntouched` | internal/atomicfile/atomicfile.go:175-226 | a lone call that returns an error without a crash leaves the destination as it found it |
| `AtomicFile.CallsLeaveNoLitter` | internal/atomicfile/atomicfile.go:190-217 | while no process is killed and a call that gives up can remove its file, every staging file is one a running call is filling, so none is left when no call runs |
| `AtomicFile.TenNamesAtMost` | internal/atomicfile/atomicfile.go:228-249 | in every run a call draws at most ten staging names |
| `AtomicFile.CrashMayLose` | internal/atomicfile/atomicfile.go:197-217 | the crashes the theorems range over: one may leave any bytes in a file that is not synced and any directory entry as it was at any moment since the last directory sync |
| `AtomicFile.CallsMayStopAnywhere` | internal/atomicfile/atomicfile.go:181-217 | a call may fail at any step before its rename, be unable to clean up or to sync the directory, or be killed, and none of it changes the disk |
| `AtomicFile.SuccessIsReadBack` | internal/atomicfile/atomicfile.go:170-226 | a lone call that succeeds is read back as the content it was given |
| `AtomicFile.PromptCallsAreSpared` | internal/atomicfile/atomicfile.go:116-149 | while no call idles beyond the age at a look and none draws a name between a look at it and its removal, the age rule alone makes every removal spare the running calls |
| `AtomicFile.LookFindsNoRunningCall` | internal/atomicfile/atomicfile.go:137-144 | no entry old enough to be removed is staged by a running call, while none has left its file untouched beyond the age |
| `AtomicFile.SweepKeepsInvIff` | internal/atomicfile/atomicfile.go:116-149 | a removal, whatever became of the name since the look, keeps the invariant if and only if it spares every running call |
| `AtomicTears.SweepingALiveFileTears` | internal/atomicfile/atomicfile.go:121-167 | run the age rule allows, from an empty directory: a call idles beyond the age, its file is swept, another call draws the name, and the destination shows a half-written file no call was given |
| `AtomicTears.TwoSweepsTear` | internal/atomicfile/atomicfile.go:116-167 | run in which no call idles: two sweeps find the same abandoned file, one removes it, the other removes the live file drawn under its name, and the destination shows a half-written file no call was given |
| `AtomicFile.StepKeepsInv` | internal/atomicfile/atomicfile.go:116-249 | every step of every writer, crash, look and removal of any number of sweeps keeps the invariant, while no call idles beyond the age at a look and none draws a name between a look and its removal |
| `DeepCopy.Copy` | internal/config/project_settings.go:128-185 | the copy unfolds to the same tree and everything an exported path from it reaches is newly allocated |
| `DeepCopy.CopyStruct` | internal/config/project_settings.go:137-149 | exported fields are deep-copied, unexported ones keep their very value |
| `DeepCopy.CopyAll` | internal/config/project_settings.go:150-158 | each element of a slice or array is a separate deep copy, in order |
| `DeepCopy.CopyMapping` | internal/config/project_settings.go:159-168 | each map entry is a separate deep copy under its key |
| `DeepCopy.CloneThenEdit` | internal/config/project_settings.go:115-126 | after CloneSettings any sequence of edits through the copy writes no object that existed before, and the original still unfolds to its tree |
| `DeepCopy.Clone` | internal/config/project_settings.go:115-149 | everything any path from the copy reaches, unexported fields included, is newly allocated if and only if no unexported field of the value holds a reference |
| `DeepCopy.HiddenPointersAreShared` | internal/config/project_settings.go:137-141 | concrete value with a reference in an unexported field: a write through the copy is seen in the original |
| `DeepCopy.TreeIsUnique` | internal/config/project_settings.go:128-185 | a value unfolds to one tree only |
| `OriginIndex.ParseOriginTargets` | internal/config/scope_matcher.go:666-700 | the origins are exactly the distinct lower-cased hosts the targets name, each with what it derives |
| `OriginIndex.BuildOriginIndex` | internal/config/scope_matcher.go:121-159 | the lookups hold exactly what their mode reads, keywords without repeats |
| `OriginIndex.CompileOrigin` | internal/config/scope_matcher.go:88-119 | for every target list and host the compiled lookups answer what the loop over the raw targets answers in a known mode, and an unrecognised mode admits everything |
| `OriginIndex.KnownModeAgrees` | internal/config/scope_matcher.go:724-788 | in a known mode the index answers what the per-target loop answers |
| `OriginIndex.IndexAgreesWithTheLoop` | internal/config/scope_matcher.go:741-788 | for all inputs the index agrees with the per-target loop if and only if the mode is known or all, or no target, or some non-IP target, or the host is a target |
| `OriginIndex.ModesNest` | internal/config/scope_matcher.go:741-788 | strict implies balanced; balanced implies relaxed if and only if the host is a target or its leading label is non-empty |
| `OriginIndex.ParsingLosesNothing` | internal/config/scope_matcher.go:666-700 | deduplicating and parsing the targets changes no answer |
| `OriginIndex.AdmitsItself` | internal/config/scope_matcher.go:741-748 | a target admits its own host in every mode |
| `OriginIndex.LabelIs` | internal/config/scope_matcher.go:790-796 | the label of a domain is what precedes its first dot, the whole of one without |
| `ScopeCache.CacheHoldsTheRule` | internal/config/scope_matcher.go:182-197 | in every interleaving every cached answer is the uncached rule |
| `ScopeCache.AnswersAreJustified` | internal/config/scope_matcher.go:171-205 | every answer is true when the rule says so or it was owed, and never true without the rule or a begun AllowHost |
| `ScopeCache.AllowedHostIsAdmitted` | internal/config/scope_matcher.go:171-205 | a lookup begun after AllowHost returned, or after any lookup of the host answered true, answers true even if a racing lookup caches a refusal |
| `ScopeCache.AllowedIsSeen` | internal/config/scope_matcher.go:171-205 | in every run a lookup begun after an AllowHost of its host took its last step answers true |
| `ScopeCache.AnswersDoNotTurn` | internal/config/scope_matcher.go:182-205 | in every run no lookup begun after one of the same host answered true answers false |
| `ScopeCache.AllowHostTakesTwoSteps` | internal/config/scope_matcher.go:171-178 | AllowHost of a blank host does nothing; of any other it takes two steps nobody can hold up and leaves the trimmed lower-case host allowed and the cache alone |
| `ScopeCache.LookupGoesOn` | internal/config/scope_matcher.go:182-205 | a lookup answers in at most four steps of its own and waits for nobody; a cached host is answered from the cache, another by the rule and cached |
| `ScopeCache.StepKeepsInv` | internal/config/scope_matcher.go:171-205 | every load and store keeps the invariant and the shared state only grows |
| `ScopeVerdict.ReasonExplainsTheVerdict` | internal/config/scope_matcher.go:230-257 | the reason is empty if and only if InScopeRequest with no body holds, whatever is cached or allowed |
| `ScopeVerdict.ReasonIsTheFirstRefusal` | internal/config/scope_matcher.go:230-257 | the reason is the first rule, each judged on its own, that refuses |
| `ScopeVerdict.InScopeIffEveryRuleKeeps` | internal/config/scope_matcher.go:353-378 | a record is in scope if and only if its host was allowed or passes its rule and origin mode, its path is no asset, and each rule on its own has no matching exclude and is open or has a matching include |
| `ScopeVerdict.InScopeRequestIffEveryRuleKeeps` | internal/config/scope_matcher.go:416-433 | the same for a request, whose content type and text are judged only when given |
| `ScopeVerdict.TextIsItsSides` | internal/config/scope_matcher.go:571-600 | a substring rule keeps a text if and only if no exclude stands anywhere in it, cases aside, and the includes are empty, a star without excludes, or one stands in it |
| `ScopeVerdict.StatusIsItsSides` | internal/config/scope_matcher.go:513-540 | a status rule keeps a code if and only if no exclude matches and it is open or an include matches |
| `ScopeVerdict.GlobIsItsSides` | internal/config/scope_matcher.go:483-509 | a glob rule excludes a value exactly when an exclude matches it and passes it exactly when none does and it is open or an include matches |
| `ScopeVerdict.ExplicitlyExcludedIff` | internal/config/scope_matcher.go:280-301 | the pre-send exclusion check says no exactly where an exclude names the host or the path |
| `ScopeVerdict.PreFilterIsSound` | internal/config/scope_matcher.go:353-433 | the pre-send check never refuses what the full check keeps |
| `ScopeVerdict.ExcludedIsOut` | internal/config/scope_matcher.go:280-301 | an explicitly excluded pair in scope has only its host excluded and that host allowed at run time |
| `ScopeVerdict.AllowHostIsExact` | internal/config/scope_matcher.go:171-180 | AllowHost changes no other host and lifts exactly the host rules of its own |
| `ScopeVerdict.NoExcludeNoMatch` | internal/config/scope_matcher.go:483-509 | a glob rule passes a value if and only if nothing excludes it and something includes it |
| `Admission.AdmitTargets` | internal/runner/admission.go:35-57 | admitted and rejected are the order-preserving split of the list, each rejection with its host and first failing rule |
| `Admission.AdmissionPartitions` | internal/runner/admission.go:35-57 | admitted and rejected together are the list as a multiset |
| `Admission.SchemedTargetKeepsItsOrigin` | internal/runner/admission.go:59-70 | a target written with a scheme is never refused by origin mode over its own list |
| `Admission.OriginModeKeeps` | internal/config/scope_matcher.go:741-788 | in every mode, for every list and host: kept if and only if the mode is unknown, nothing is indexed, the list names the host, or (balanced) its non-empty domain is an indexed one or (relaxed) its domain's label contains an indexed keyword |
| `Admission.OwnListRefusesIff` | internal/runner/admission.go:35-70 | a target with a host is refused by origin mode over its own list if and only if its host passes the globs and none of those holds |
| `Admission.AdmittedIff` | internal/runner/admission.go:35-70 | a target is admitted if and only if it names no host that can be checked, or its host and path pass every rule and origin mode, each judged on its own |
| `Admission.HasSchemeIff` | pkg/httpmsg/target_scheme.go:47-55 | a scheme is a "://" somewhere with something before it that begins no path, query or fragment |
| `Admission.EveryTargetHasAScheme` | pkg/httpmsg/target_scheme.go:47-58 | a target without a scheme is given one, a protocol-relative one only what it lacks, and a second time nothing is added |
| `Admission.SchemelessPathIsRefused` | internal/config/scope_matcher.go:703-722 | concrete target a.b/p: indexed with its path, checked without it, refused by its own list in strict and in balanced mode and kept in relaxed mode |
| `WorkerPool.EachIndexOnce` | internal/runner/parallel.go:12-34 | at every moment of every run each handed-out index is in exactly one place, and none at or beyond n is started |
| `WorkerPool.RunPlusSkippedIsAll` | internal/runner/parallel.go:12-34 | at termination run plus skipped is n if and only if n is zero, or positive with at least one worker |
| `WorkerPool.EveryIndexAccountedFor` | internal/runner/parallel.go:18-30 | with a worker each index is run once or skipped once, all run when never cancelled |
| `WorkerPool.FewLateStarts` | internal/runner/parallel.go:22-27 | at most one item per worker starts after cancellation |
| `WorkerPool.FewCallsAfterCancel` | internal/runner/parallel.go:12-34 | counted over the steps of any run at most one call per worker begins after the cancellation, and without one every index has run exactly once at the end |
| `WorkerPool.OnlyTheCommittedStart` | internal/runner/parallel.go:22-27 | what starts once the context is done is what some worker had decided to start by then |
| `WorkerPool.EveryRunEnds` | internal/runner/parallel.go:12-34 | every run is bounded, and one no worker can extend has all workers returned |
| `SettingsTree.PutReadsBack` | internal/config/project_overlay.go:85-94 | a written key reads back as written |
| `SettingsTree.PutLeavesTheRest` | internal/config/project_overlay.go:85-94 | every path apart from the written one reads as before |
| `SettingsTree.PutPut` | internal/config/project_overlay.go:85-94 | the last write to a key wins |
| `SettingsTree.PutSame` | internal/config/project_overlay.go:85-94 | writing what is there changes nothing |
| `SettingsTree.PutsCommute` | internal/config/project_overlay.go:85-94 | writes to paths apart commute |
| `SettingsTree.LosesNothingIffClear` | internal/config/project_overlay.go:85-93 | a write loses no other setting if and only if no plain value stands on the way |
| `SettingsTree.LostSetting` | internal/config/project_overlay.go:87-91 | otherwise there is a setting it loses, on the way |
| `SettingsSchema.SettingPathStays` | internal/config/project_overlay.go:18-26 | naming the setting a key writes twice is naming it once |
| `SettingsSchema.DeclaredNamesAreDistinct` | internal/config/loader.go:151-165 | the nine overlaid sections are distinct and none is the strategy section |
| `ProjectOverlay.Unmarshal` | internal/config/project_overlay.go:54-61 | unmarshalling builds fresh maps, each for one place, that unfold to the document |
| `ProjectOverlay.Marshal` | internal/config/project_overlay.go:96-99 | marshalling reads the maps back into the document they unfold to |
| `ProjectOverlay.Enter` | internal/config/project_overlay.go:86-92 | going down a segment, creating or replacing the map there, is a one-step write of the document seen from the root |
| `ProjectOverlay.WriteKey` | internal/config/project_overlay.go:85-94 | the walk over the mutable maps leaves the document with exactly the one key written |
| `ProjectOverlay.Overlay.NavigateToParent` | internal/config/setfield.go:293-309 | finds the parent map if and only if every earlier segment names a map, leaving the document alone |
| `ProjectOverlay.Overlay.SetValue` | internal/config/project_overlay.go:45-111 | a refusal leaves the file alone; otherwise the file is its old document with the value the settings hold put at the key, and the cached parse is dropped |
| `ProjectOverlay.FileIsNotReplaced` | internal/config/project_overlay.go:45-83 | each refusal exactly when it is met, in order: a missing file and an empty one start an empty overlay, one that cannot be read or holds no map is refused |
| `OverlayRace.BothKeysSurviveIff` | internal/config/project_overlay.go:69-109 | of two calls at once that set keys apart both survive if and only if one read the file after the other had written it or the value written first was there before; the one written last always survives |
| `OverlayCache.Cache.Load` | internal/config/project_settings.go:69-100 | a cached parse is reused only under the stamp it was read under; otherwise what is read is kept under the stamp seen before; a missing file drops it |
| `OverlayCache.LoadAlone` | internal/config/project_settings.go:69-100 | the stat, look, read and store of a load nobody interrupts answer and leave the cache as Load does |
| `OverlayCache.LoadAnswersWithin` | internal/config/project_settings.go:66-113 | while no time and size come back, every load, interleaved with loads and writes of any process, answers with what the file held at some moment between its stat and its end |
| `OverlayCache.LaterLoadsAreCurrentIff` | internal/config/project_settings.go:66-113 | until the next write every load that begins answers with the file if and only if the cached parse and every parse about to be stored is of its content or under another time and size |
| `OverlayCache.WriteIsSeenIff` | internal/config/project_settings.go:102-113 | after an in-process write and its invalidation later loads are current if and only if no running load has parsed other content under the file's time and size |
| `OverlayCache.InvalidatedParseComesBack` | internal/config/project_settings.go:109-113 | run for any two contents within one time and size: a load begun after the invalidation returns the previous content |
| `OverlayCache.DifferentStampsSettle` | internal/config/project_settings.go:66-71 | if no two versions of the file have the same time and size, later loads are always current |
| `ProfileLayering.UnsetKeepsItsValue` | internal/config/loader.go:127-132 | a key the overlay does not set keeps its value through any nesting of structs, pointers and maps |
| `ProfileLayering.SetTakesEffect` | internal/config/loader.go:155-173 | a key the overlay sets reads as set after layering |
| `ProfileLayering.SiblingsKeepTheirValue` | internal/config/project_overlay.go:38-44 | setting one key of an overlay changes no other key of the layered result, unless a plain value stood on the way |
| `ProfileLayering.WholeMapIsMerged` | internal/config/setfield.go:131-135 | a map-valued setting written whole into an overlay reads as written if and only if it names every entry that was there and gives no scalar entry null, which would keep the old one or make an empty one |
| `ProfileLayering.MergedEntry` | internal/config/setfield.go:131-135 | entry by entry: one not named stays, a null for a scalar keeps the entry or makes an empty one, any other value replaces it |
| `ProfileLayering.DecodesIffNothingMistyped` | internal/config/loader.go:155-173 | a document decodes if and only if no value under a declared key, at any depth, is of another kind than declared; null is of every kind |
| `ProfileLayering.LayerIsWrittenIff` | internal/config/loader.go:155-173 | any value that decodes reads as written if and only if it is no null scalar, a map as above, and a struct that names every field, each likewise |
| `ProfileLayering.SetTakesEffectIff` | internal/config/loader.go:155-173 | the same for a value of any kind written below a key of a section |
| `ProfileLayering.Live.ApplyProfile` | internal/config/loader.go:134-176 | the settings become the strategy picks followed by the sections in order up to the first that does not decode, which is reported |
| `ProjectSettings.SectionOnItsOwn` | internal/config/loader.go:155-173 | whatever the order, each section is layered on its own value only |
| `ProjectSettings.SectionIsAppliedIff` | internal/config/loader.go:155-173 | a section is layered over if and only if the profile has it and every section before it decodes, the failing one included; those behind it stay as they were |
| `ProjectSettings.OthersAreLeftAlone` | internal/config/loader.go:134-176 | a key that is neither a section nor the strategy keeps its value |
| `ProjectSettings.UnsetKeyFollowsGlobal` | internal/config/project_settings.go:26-31 | a key the project overlay does not set follows the global settings |
| `ProjectSettings.WrittenKeyTakesEffectIff` | internal/config/loader.go:134-176 | any value, null, list or map included, written under a declared key is what the project reads there if and only if it takes effect as a section value, a pickable strategy text, or is the global value; keys an overlay cannot change read as the global one |
| `ProjectSettings.OtherKeysAreUndisturbed` | internal/config/project_overlay.go:38-44 | writing one key of the overlay changes what no other key of the project reads |
| `ProjectSettings.AcceptedWriteTakesEffectIff` | internal/config/project_overlay.go:45-111 | the same for any accepted project write of a declared key, with whatever value the settings hold; strategy keys but two never take effect |
| `ProjectSettings.AcceptedWriteNamesASettingIff` | internal/config/project_overlay.go:50-67 | an accepted write names a declared setting if and only if it is not the lone raw and the struct or map its earlier segments lead to can have its last name; read off the marshalled settings, a key they hold is one, and where they omit nothing and the key is not an entry of a map of free keys no other is; one in a section that names none stores null |
| `ProjectSettings.RawIsStored` | internal/config/setfield.go:249-265 | concrete key raw under the declared sections: accepted, and null is stored |
| `ProjectSettings.MissingKeyIsStored` | internal/config/project_overlay.go:63-67 | concrete key scope.nosuch under the declared sections: accepted, and null is stored |
| `ProjectSettings.StoredAndIgnored` | internal/config/project_overlay.go:49-53 | concrete key scanning_strategy.profiles_dir under the declared sections: accepted, stored, and the project still runs under the global value |
| `SetField.Locate` | internal/config/setfield.go:84-104 | the walk succeeds if and only if no plain value is on the way and missing maps are declared; writing below it is writing the key |
| `SetField.EditList` | internal/config/setfield.go:55-82 | list add and clear apply exactly when the parent holds a list, or nothing where one is declared, and write the list itself |
| `SetField.EditLeaf` | internal/config/setfield.go:84-128 | the leaf is parsed against its declared type or its present value and written, or the call is refused |
| `SetField.IntroducedErrors` | internal/config/setfield.go:167-182 | the new error-level issues at or beneath the key, in order |
| `SetField.Live.CommitRaw` | internal/config/setfield.go:136-158 | the settings are replaced only by a candidate that decodes and introduces no error at the key |
| `SetField.Live.SetField` | internal/config/setfield.go:34-129 | every refusal leaves the settings as they were; success makes them the decoded edit with the hidden fields carried over |
| `SetField.EditLosesNothing` | internal/config/setfield.go:84-104 | a call that is not refused loses no setting but the one it writes |
| `SetField.ListOpsEditTheList` | internal/config/setfield.go:56-82 | `<list>.clear` leaves the empty list and `<list>.add` one that begins with all the old items and goes on with what the value parses to; it is refused only when the value does not parse |
| `SetField.OtherCallsWriteTheLeaf` | internal/config/setfield.go:84-128 | any other call is refused as unknown if and only if something plain is on its way or the key is neither there nor declared; otherwise the key reads as the value parsed whole, to the like of what is there, or to its declared kind |
| `SetField.CallIsRefusedIff` | internal/config/setfield.go:136-182 | a call is refused if and only if its edit cannot be planned, the edited document does not decode, or it has a new error-level issue at or beneath the setting it writes |
| `SetField.WritesTheNamedSettingIff` | internal/config/project_overlay.go:16-26 | the path SettingPath names is the one SetField writes if and only if the raw value at a list key fits its declared type |
| `SetField.RefusedOnlyForItsOwnKey` | internal/config/setfield.go:160-182 | an edit that decodes is refused if and only if it introduces a new error at its own key |
| `SetField.AcceptedEditKeepsHiddenFields` | internal/config/setfield.go:184-202 | after success the settings show what the decoded document shows and every unserialized field is unchanged |
| `SetField.CarryKeepsBoth` | internal/config/setfield.go:188-202 | carrying over changes nothing a document shows and restores every unserialized field in nested structs |
| `TeeWriter.IndexByte` | internal/runner/tee_writer.go:94-101 | the first position of the byte, or none |
| `TeeWriter.Writer.Write` | internal/runner/tee_writer.go:42-73 | accepted bytes join the buffer, complete lines are logged, the rest stays |
| `TeeWriter.Writer.Flush` | internal/runner/tee_writer.go:76-91 | the held-back line is logged and the buffer emptied |
| `TeeWriter.WriteIsByteByByte` | internal/runner/tee_writer.go:42-73 | the line loop logs what a byte-by-byte reading logs |
| `TeeWriter.RunLogsTheStream` | internal/runner/tee_writer.go:34-91 | any run of writes, phase changes and flushes logs each line of the tagged byte stream under the phase its newline came in, and the buffer never holds a newline |
| `TeeWriter.ChunkingDoesNotMatter` | internal/runner/tee_writer.go:42-91 | runs that write the same bytes under the same phases log the same |
| `TeeWriter.OnePhaseLogsEveryLine` | internal/runner/tee_writer.go:42-91 | under one phase, writes and a flush log exactly the non-blank cleaned lines of the whole text in order |
| `TeeWriter.LinesAreCleaned` | internal/runner/tee_writer.go:59-70 | what is logged of some lines is their cleaned texts under the phase, in order, without the blank ones |
| `PhaseSelection.ParseOnlyPhases` | internal/runner/native_plan.go:346-367 | the loop parses the list to distinct named phases, or refuses at the first bad entry |
| `PhaseSelection.ParsePrintParse` | internal/runner/native_plan.go:346-367 | printing a parsed list and parsing it again gives the same list |
| `PhaseSwitches.OnlyListIsRead` | internal/runner/native_plan.go:346-367 | a list whose entries are blank or name phases --only may name is read as those phases, each once, in the order first mentioned; otherwise the first entry that is neither is reported, and a blank list is refused |
| `PhaseSelection.Launch.NoteOnlySelection` | internal/runner/native_plan.go:567-593 | the recorded reasons after the loop, phase by phase |
| `PhaseSelection.Launch.ApplySelection` | internal/runner/native_plan.go:443-545 | the options and the refusal after resolving both flags |
| `PhaseSwitches.SelectionIsRefusedIff` | internal/runner/native_plan.go:443-560 | a selection is refused if and only if both flags are given, the --only list is not one or names the re-spider without the crawl and what fetches, or a --skip entry names nothing it may |
| `PhaseSwitches.SkippingIsRefusedIff` | internal/runner/native_plan.go:498-542 | --skip is refused at its first entry that names no phase or the seeding |
| `PhaseSwitches.OnlySwitches` | internal/runner/native_plan.go:462-492 | what every switch says after --only: on exactly when its phase is named; extensions alone exactly when they are named and the assessment is not, or none is named and they were alone before; the heuristics level kept, raised to basic or off |
| `PhaseSwitches.OnlyRecordsIff` | internal/runner/native_plan.go:567-593 | --only records a phase it can name as left out if and only if neither it nor its other name is listed, and leaves every other record alone |
| `PhaseSwitches.SkipSwitches` | internal/runner/native_plan.go:498-542 | --skip shuts exactly the switches of the phases it names and leaves the rest, the sweep policy included |
| `PhaseSwitches.PlainScanRunsWhatIsAskedFor` | internal/runner/native_plan.go:227-314 | without either flag a step runs if and only if the scan is asked for it: mining by its flag or at deep, the port sweep at deep or when following subdomains |
| `PhasePlan.BuildPlan` | internal/runner/native_plan.go:227-276 | the plan is the gated steps with the harvest probe decided last |
| `PhasePlan.GateHarvestProbe` | internal/runner/native_plan.go:289-299 | in place, the probe is on when harvesting is, no skip names it and a later step sends |
| `PhasePlan.SendsTargetTraffic` | internal/runner/native_plan.go:334-341 | true if and only if an enabled step reaches the target |
| `PhasePlan.ProbingKeepsSilence` | internal/runner/native_plan.go:278-299 | gating the probe never turns a target-silent plan into one that sends, nor the reverse |
| `PhaseProofs.SelectionStays` | internal/runner/native_plan.go:443-545 | applying the selection twice is applying it once, refusals included |
| `PhaseProofs.OnlyIsExact` | internal/runner/native_plan.go:443-545 | after --only a step runs if and only if it is named, ingestion counting for discovery and extension for assessment, or it rides on what is named |
| `PhaseProofs.OnlyHarvestingIsSilent` | internal/runner/native_plan.go:322-341 | after --only the plan contacts the target if and only if something other than external-harvest is named |
| `PhaseProofs.SkipIsExact` | internal/runner/native_plan.go:498-545 | after --skip a step runs if and only if its gate was open and neither it nor what it rides on is skipped |
| `PhaseProofs.SkipTurnsNothingOn` | internal/runner/native_plan.go:498-545 | --skip turns on nothing but the seeding that stands in for ingestion |
| `PhaseProofs.SweepPolicy` | internal/runner/native_plan.go:601-658 | the sweep policy changes only for a run of the probe alone, and there only where nothing was asked for |
| `PhaseProofs.LeftOutIsRecordedIff` | internal/runner/native_plan.go:563-593 | after --only a phase it can name is recorded as left out if and only if the plan does not run it |
| `PhaseProofs.SkippedIsRecorded` | internal/runner/native_plan.go:498-502 | --skip records every phase it names, over any record but module selection, and no other |
| `PhaseProofs.RunsIffItOpens` | internal/runner/native_plan.go:227-299 | a step of the built plan runs exactly when its gate opens |
| `ModuleSelection.Partition` | internal/runner/module_tiers.go:258-271 | kept and dropped are the two filters of the list, in order |
| `ModuleSelection.Selection.FilterForRun` | internal/runner/module_selection.go:53-131 | each category comes to its selection, and the dropped ids are listed active then passive |
| `ModuleSelection.SortIsStable` | internal/runner/runner_modules.go:429-439 | the sort orders by priority, is a permutation and keeps the order within a priority |
| `ModuleSelection.SelectionConserves` | internal/runner/module_selection.go:93-130 | for a broad selection kept, tier, risk and hygiene ids are the registry as a multiset |
| `ModuleSelection.BroadSelectionIsExact` | internal/runner/module_selection.go:93-124 | what runs is exactly the modules passing every active gate, by priority, in registry order within one |
| `ModuleSelection.EverythingRunsWhatMayRun` | internal/runner/module_tiers.go:26-215 | from the options: with everything selected a module runs if and only if its tier is within the intensity's, it is not risky or that is opted into or deep, and it is no advisory or those are wanted or named |
| `ModuleSelection.DropsAreExact` | internal/runner/module_selection.go:93-130 | what each gate drops, as registered: all above the tier, of the rest the risky ones, of what is left the advisories, and nothing while it is off |
| `ModuleSelection.ListsRunAsPicked` | internal/runner/module_selection.go:47-92 | an empty list picks nothing; a list of ids, given or configured, runs as picked in stable priority order with nothing dropped, and whether it was the configured one is recorded |
| `ModuleSelection.ExplicitListRunsVerbatim` | internal/runner/module_selection.go:47-52 | a list of ids, given or configured, loses nothing to a gate |
| `ModuleSelection.MoreIntensityRunsMore` | internal/runner/module_tiers.go:15-58 | for fixed settings quick is contained in balanced and balanced in deep, active and passive |
| `ExtensionSelection.Selection.FilterExtensions` | internal/runner/runner_modules.go:214-307 | kept extensions in load order, counters per reason, selected plus skipped equals loaded, unknown ids where first named |
| `ExtensionSelection.EveryReasonAddsUp` | internal/runner/runner_modules.go:162-170 | every loaded extension is selected or refused for exactly one reason |
| `ExtensionSelection.SelectionIsExact` | internal/runner/runner_modules.go:200-305 | what runs of each category is exactly, in load order, everything when its list is all, else what is picked, else, when nothing is, what was loaded from a named file |
| `ExtensionSelection.ReasonsAreExact` | internal/runner/runner_modules.go:260-305 | each reason counts exactly the extensions dropped for it |
| `ExtensionSelection.UnknownIff` | internal/runner/runner_modules.go:232-248 | an id is unknown if and only if a list names it, it has the extension prefix, no loaded extension carries it and no pattern is it, cases aside |
| `ExtensionSelection.EmptyActiveListDropsItsExtensionsIff` | internal/runner/runner_modules.go:278-290 | an empty active list drops every active extension if and only if the passive list is not empty too |
| `ExtensionSelection.UnknownIsListedOnce` | internal/runner/runner_modules.go:235-256 | every unknown id the selection names is listed, once |
| `PlanEstimate.EstimatePlan` | internal/runner/plan_estimate.go:76-151 | totals are the sums over estimated phases, the headline ceiling, the clamp and the phases over it |
| `PlanEstimate.CeilingIsOverThePhases` | internal/runner/plan_estimate.go:92-119 | the ceiling is rate times scan budget when both are set; otherwise it is there if and only if every enabled phase that sends something is bounded and the bounds sum to something, it is that sum, and no phase's bound exceeds it |
| `PlanEstimate.RowsAddUp` | internal/runner/plan_estimate.go:88-108 | low, high and ceiling totals are the sums over the phases, each taken on its own |
| `PlanEstimate.EveryEstimateIsListed` | internal/runner/plan_estimate.go:88-108 | the estimate lists exactly the enabled phases that have one, each under its own bounds |
| `PlanEstimate.PaceCeilingIff` | internal/runner/plan_estimate.go:286-323 | a phase has a pace ceiling if and only if it is paced at a positive rate, not by the browser, and may not run for ever; it is the rate times the whole seconds of its own budget, in rounds of targets, or of the scan's, whichever ends first |
| `PlanEstimate.BoundsArePerTarget` | internal/runner/plan_estimate.go:158-282 | for every phase that works target by target the bounds are one target's times the targets |
| `PlanEstimate.AssessmentIsTests` | internal/runner/plan_estimate.go:259-275 | the assessment's bounds are the whole number of tests of what is stored, or will be, and of the hosts, the high one times the tier's payloads |
| `PlanEstimate.MiningIsPerEndpoint` | internal/runner/plan_estimate.go:240-257 | mining asks its requests of each host's endpoints, no more than there are records, and at least ten of at most five endpoints a host |
| `PlanEstimate.HitsAreTheRest` | internal/runner/plan_estimate.go:132-142 | the flagged phases are the suffix from the first whose running total passes the budget, non-empty when the whole does |
| `PlanEstimate.LowStaysBelowHigh` | internal/runner/plan_estimate.go:101-148 | low at most high survives summing and clamping |
| `PlanEstimate.PaceCeilingIsWithinTheScan` | internal/runner/plan_estimate.go:286-323 | a phase's pace ceiling is at most its rate over the whole scan |
| `PlanEstimate.BoundsAreOrderedIff` | internal/runner/plan_estimate.go:155-282 | for every phase but mining low is at most high if and only if its setting is sensible |
| `PlanEstimate.MiningIsOrderedIff` | internal/runner/plan_estimate.go:240-257 | for a given input the mining bounds are in order if and only if there is no endpoint, an endpoint takes at least ten requests, or there are over five endpoints a host taking at least fifty requests a host in all |
| `PlanEstimate.MiningIsAlwaysOrderedIff` | internal/runner/plan_estimate.go:240-257 | they are in order for all counts if and only if an endpoint takes at least ten requests |
| `FindingGrouper.Grouper.Observe` | internal/runner/finding_grouper.go:62-87 | one finding's effect on groups, order and tallies, and whether it is shown |
| `FindingGrouper.Grouper.RawTotal` | internal/runner/finding_grouper.go:121-129 | the sum of the raw tallies |
| `FindingGrouper.Grouper.RollupLines` | internal/runner/finding_grouper.go:133-154 | the first twenty collapsed groups in order, and how many more there are |
| `FindingGrouper.GroupsAreTheKeys` | internal/runner/finding_grouper.go:62-87 | groups stand for the distinct keys in first-seen order and count their findings |
| `FindingGrouper.SampleIsTheFirstUrls` | internal/runner/finding_grouper.go:83-86 | a sample is the first distinct non-empty URLs of its key, up to the cap |
| `FindingGrouper.TalliesAddUp` | internal/runner/finding_grouper.go:62-129 | raw total equals calls; grouped total equals findings shown equals groups plus ungroupable ones |
| `FindingGrouper.TalliesBySeverity` | internal/runner/finding_grouper.go:62-117 | severity by severity the raw tally is the number of findings and the grouped one the number of groups opened at it plus its ungroupable findings |
| `FindingGrouper.EveryFindingIsInOnePlace` | internal/runner/finding_grouper.go:62-87 | group counts plus ungroupable findings are all findings |
| `FindingGrouper.RollupIsTheRepeats` | internal/runner/finding_grouper.go:133-154 | the rollup stands for exactly the keys met more than once |
| `Redact.RedactPairs` | internal/redact/redact.go:139-157 | the rewritten pairs joined, and whether any was sensitive |
| `Redact.PairsAreKept` | internal/redact/redact.go:136-157 | pair count, order, names and untouched pairs survive, and every sensitive value is the placeholder |
| `Redact.SensitiveValuesAreGone` | internal/redact/redact.go:139-157 | a pair whose unescaped name before its first = is sensitive keeps that name and has the placeholder behind it; every other pair is as it was |
| `Redact.RedactionStays` | internal/redact/redact.go:139-157 | redacting twice is redacting once |
| `Redact.NothingSensitiveNothingChanged` | internal/redact/redact.go:136-138 | a text with nothing sensitive comes back byte for byte |
| `PortList.ParsePortList` | internal/runner/port_sweep.go:260-282 | the ports the entries name, each once, in order |
| `PortList.FormatPortList` | internal/runner/port_sweep.go:285-291 | the ports in decimal, comma-separated |
| `PortList.ParseOfFormat` | internal/runner/port_sweep.go:260-291 | a printed list of distinct valid ports parses to itself |
| `PortList.ParsedPorts` | internal/runner/port_sweep.go:258-282 | a parse result is distinct, in range, and exactly what some entry names |
| `PortList.ParseIsExact` | internal/runner/port_sweep.go:260-282 | a number is parsed from a list if and only if it is from 1 to 65535 and some entry between commas, trimmed, reads as it |
| `PortList.AtoiIff` | internal/runner/port_sweep.go:269-274 | a number is read off digits with at most one sign before them, and off nothing else |
| `PortList.TrimLeavesTheMiddle` | internal/runner/port_sweep.go:262-270 | trimming leaves what stands between the blanks at both ends |
| `PortList.ParsePrintParse` | internal/runner/port_sweep.go:260-291 | parse, print, parse equals parse |
| `PortList.CollectSweepHosts` | internal/runner/port_sweep.go:186-209 | hosts are the first-seen distinct ones up to the cap, kept plus truncated is all of them, and every host:port is collected |
| `PortList.HostsAreDistinct` | internal/runner/port_sweep.go:186-209 | each non-empty host the targets name is listed once |
| `Texts.SplitOfJoin` | internal/runner/native_plan.go:346-367 | pieces without the separator, joined, split into themselves |

## Left out

- Network and browser phases, out-of-band testing, notifiers, ingestion, logging and rendering: plumbing over packages this model does not contain.
- `InvalidateCache`: reassigns the scope cache without synchronisation and is not part of the concurrent protocol.
- `InScopeBytes`: the same rules as `InScope` over bytes; that byte and string lower-casing agree is a library fact.
- Status-code patterns, globs, public suffixes and URL parsing are parameters of the scope models.
- `Heartbeat`: severities are taken as they are counted, trimmed and lower-cased already.
- Heartbeat timing: the ticker may fire at any moment; deadlines, the write budget and the clock stamps in a document are not modelled, nor what a beat writes into the row.
- Pausing and resuming a row: the server does so only for scans whose heartbeat does not adopt the row's status, where nothing written to the file depends on the row.
- Directory sync on platforms without it and staging directories (`MkdirStaging`). A sweep looks at one entry at a time, may come at any time, not only once per destination and process, and may drop an entry it has looked at; the clock never goes back.
- Go's memory model below the atomic operations and locks: a step is one channel operation, one atomic operation or one section run under a lock.
- Cyclic settings values: `deepCopyValue` would not return on them; the copy is modelled on values that unfold to a finite tree.
- YAML text: a document is a tree of nulls, scalars, lists and maps; comments, key order, duplicate keys, anchors and scalar spelling are not modelled, and marshalling followed by unmarshalling is the identity on such trees.
- `SettingsTree.LosesNothingIffClear`: a map with a key that is no string, such as `404: high`, is not a tree of this model. internal/config/project_overlay.go:87 replaces such a map on the way to the written key and drops its other entries, so there neither this nor `OtherKeysAreUndisturbed` is promised.
- `ProfileLayering.Live.ApplyProfile`: list elements are taken as they are written; a null element of a list, or a mistyped element of a list or map, is not dropped or kept element by element as the decoder would.
- Environment expansion in profile files and the search for configuration files.
- `ProjectOverlay.Overlay.SetValue`: what a failed write may leave on disk is the subject of `AtomicFile`; here it leaves the old file.
- `OverlayRace`: two calls, each reading once and writing once; a refused or failed write is not part of it.
- `OverlayCache`: reading and parsing a file is one step, so is replacing it; paths do not share entries, so one file is modelled.
- Value parsing in `SetField` (`coerceValue`, `parseContainerValue`, `parseListAddition`) is a parameter; which of them is called, and with what, is modelled.
- The order of the terminal's bytes against the log in `TeeWriter`: the inner write happens outside the lock.
- `PhaseSelection`: trimming, lower-casing and the alias table are parameters required to know the canonical names; the spellings themselves are not listed.
- Preflight, the per-phase runtime gates and the completion verdict behind a plan step.
- `ModuleSelection`: tags are reduced to the tier rank, the risk and the hygiene flag they decide; the registry and the choice of modules by id are parameters.
- `ExtensionSelection`: pattern and tag matching are parameters.
- Wordlist, port-list and depth lookups of the estimator are inputs of `PlanEstimate`; rational arithmetic stands for floating point, and sums are unbounded integers.
- `FindingGrouper`: the grouping key of a finding is a parameter; the wording of a rollup line is not modelled, and calls are one at a time, as the mutex makes them.
- `redact.URL` and `IsSensitiveName`: URL reassembly is library behaviour, and the name table is a parameter of `Redact`.
- Default getters, `Validate` methods and one-line policy switches, which one reading settles.
