# Verified model of the script authority kit

The kit lets a server edit GDScript files inside a live editor. Three copies of a script exist at any
moment, and a person may change each of them: the bytes on disk, the loaded resource, and the editor
buffer. The project models the parts whose correctness is an argument over runs, trees, event sequences
or byte strings, and proves what they promise.

* **Open edit** (`OpenEdit.dfy`, `FileIo.dfy`, `SaveProfile.dfy`): the staged edit of an open document.
  The editor is a class whose world may change between calls and inside every call into the engine that
  has an effect. Each effect is entered only in the state its stage predicts; `Complete` means the
  three copies agree; a refusal that ends the attempt means nothing was entered.
* **Closed edit** (`ClosedEdit.dfy`, `ClosedEffects.dfy`): the edit of a file no editor shows, with the
  receipts it hands out and the reducer that merges them. The verdict drawn from any selection of
  receipts, in any order and with repetitions, is true of what the attempt did and will ever do.
* **Known-path open** (`OpenPath.dfy`): inspect, prepare, bind, compile, show.
* **Safe close** (`CloseLedger.dfy`): the ledger of editors visited and re-validated while a document is
  closed, against the trace of signals.
* **The session slot** (`SessionSlot.dfy`): one attempt at a time, entry points called from callbacks
  of entry points, and closes that wait for the running frame.
* **Discovery** (`Paths.dfy`, `FileTree.dfy`, `StaticTree.dfy`, `Visible.dfy`, `Inventory.dfy`,
  `Discovery.dfy`): the bounded walk over a file system that may change at every step, against a recursive
  definition of the visible scripts and against a plan of the tree that gives the counts and the gaps.
* **Observation** (`Evidence.dfy`, `Observation.dfy`, `Collector.dfy`, `Wire.dfy`, `Frames.dfy`,
  `Decimal.dfy`): evidence that only ever degrades, its classification and supplementing, the event
  protocol of worker and supervisor, the records they exchange and the frames that carry them.
* **Byte formats** (`Framing.dfy`, `Digest.dfy`, `GuardRecord.dfy`, `Records.dfy`, `Utf8.dfy`): what is
  fed to hashes determines the value it came from; UTF-8 recognition (section 4 of RFC 3629).

Objects the sources update in place are classes here; loops of the sources are loops. Answers of the
operating system and of the engine are inputs: scripts of replies, or a function from the number of the
call to the world it leaves behind. A script of input-output answers is finite, after which calls
succeed (a socket: would block). Engine getters run no callbacks; calls that can change something may
run any, but for the opening of a history bracket (see below).

Whole runs return the state after every operation, and their contracts say that each of those states is what
its operation made of the one before (`Chained` in `OpenEdit`, `ClosedEdit`, `OpenPath`, `CloseLedger` and
`SessionSlot`). `ClosedEdit.Conclude` goes on from there to the verdict a client draws from the receipts.

Four results say where the code differs from what one might expect, each with its exact condition:

* `Observation.FailedOutcomeMaySucceed`: an observation that ended in a protocol error over rechecked evidence
  of a script that is not open becomes "not open" when the supplement finds that the file changed, and that
  kind counts as a success for the exit code. `SupplementSucceedsExactly` says exactly when a supplement ends
  in a success kind: it classifies the snapshot and never asks how the attempt ended. Under the guard of the
  one caller the result is never a complete observation (`NotOpenNeverCompletes`).
* `SessionSlot.UnconfiguredExactly`: preparing a closed edit does not ask for a configured session. A slot
  comes to hold an attempt of a closed session exactly when a bound closed preparation finds it free and
  unconfigured, and that attempt is terminal from the start, because its project descriptor cannot be
  duplicated.
* `Wire.RecheckRoundTrip`: a partial recheck without changes does not come back as sent; it comes back as
  not performed. What the decoder produces always round-trips.
* `SaveProfile.ScannersDisagree`: the two save-compatibility scanners disagree exactly on the texts the open
  edit accepts, under conversion to tabs, in which some indentation mixes a tab with at least one indent of
  spaces; there the closed edit refuses (`StricterWitness` is one such text).

Two branches of the open edit cannot be reached: the reason `incomplete_content_receipt`
(`OpenEdit.ReceiptAlwaysComplete`) and a request for a stage after tagging
(`OpenEdit.Editor.Advance` never leaves an attempt in that stage).

## Model

| member | source | states |
|---|---|---|
| OpenEdit.GuardIsExact | godot-addon/native/script_document.cpp:180-226 | the guard before a stage passes exactly when the session is idle and the same, the time is not over, and disk, resource, buffer, edited flag and both versions are what the stage predicts |
| OpenEdit.ReceiptAlwaysComplete | godot-addon/native/script_document.cpp:215-218 | the incomplete-receipt reason is never given for a consistent attempt |
| OpenEdit.AfterRemoveIsExact | godot-addon/native/script_document.cpp:230-259 | the check between removal and insertion, read as a condition on the state |
| OpenEdit.TaggedIsFinished | godot-addon/native/script_document.cpp:643-671 | a tag that reads back as planned means all three copies hold the new source, the original modification time is back, saved equals current equals the frozen version, and nothing is marked edited |
| OpenEdit.PrepareIsExact | godot-addon/native/script_document.cpp:364-464 | the faults of preparation, read as a condition on the request and the document |
| OpenEdit.StagesConnect | godot-addon/native/script_document.cpp:495-672 | the nominal result of each stage is what the next stage predicts |
| OpenEdit.Editor.Prepare | godot-addon/native/script_document.cpp:364-464 | an attempt is created exactly when the slot is free, the request is admitted and the sample after the last call still holds; otherwise the slot stays as it was |
| OpenEdit.Editor.RemoveText | godot-addon/native/script_document.cpp:496-523 | entered only in the predicted state; goes on to insert only when the buffer is empty by its own removal |
| OpenEdit.Editor.InsertText | godot-addon/native/script_document.cpp:524-541 | text goes only into the state the removal left |
| OpenEdit.Editor.StoreBytes | godot-addon/native/script_document.cpp:557-593 | with short writes, interrupts and errors the file is the new text up to the written count and the old bytes after it |
| OpenEdit.Editor.RestoreTime | godot-addon/native/script_document.cpp:594-627 | the time is restored only from the predicted content state, and the stage ends ready only when it reads back |
| OpenEdit.Editor.TagVersion | godot-addon/native/script_document.cpp:643-672 | the last stage completes or fails, it never asks for a further stage |
| OpenEdit.Editor.Advance | godot-addon/native/script_document.cpp:466-675 | a busy slot and a request for another attempt or stage change nothing; a failing guard ends the attempt with nothing entered; a stage that runs enters effects of its own stage and attempt only, and all of them when it says ready or complete; complete means finished; left alone it does what the stage is for |
| OpenEdit.Editor.Cancel | godot-addon/native/script_document.cpp:676-687 | frees an idle attempt with an honest status, or asks the running stage to close |
| OpenEdit.Editor.Expire | godot-addon/native/script_document.cpp:688-694 | due exactly when the time is over; frees or asks to close |
| OpenEdit.Run | godot-addon/native/script_document.cpp:466-694 | over every sequence of calls, callbacks and outside changes every view and outcome is what its operation made of the view before; each entry is justified by the world it happened in, effects come in order, and every final status is true of the trace at the end |
| OpenEdit.UninterruptedEdit | godot-addon/native/script_document.cpp:364-675 | left alone, the run of an admitted edit is prepared, ready five times and complete, and ends with the new source everywhere, saved and unedited |
| FileIo.WriteAll | godot-addon/native/script_closed_edit.cpp:320-327 | for every script of short writes, interrupts and errors the file is the new bytes up to the written count and the original after it; success means all were written |
| FileIo.OverlayTruncated | godot-addon/native/script_closed_edit.cpp:320-333 | writing everything and truncating leaves the new bytes, whatever was there |
| FileIo.Content | godot-addon/native/document_guard.cpp:156-170 | the chunked comparison is true only if the file holds the expected bytes, and exactly then when every read makes progress |
| SaveProfile.Compatible | godot-addon/native/script_document.cpp:27-43 | accepts exactly when no line ends blank under trimming, no line starts with a tab under conversion to spaces or with an indent of spaces under conversion to tabs, and no double newline ends a text under newline trimming |
| SaveProfile.CompatibleClosed | godot-addon/native/script_closed_edit.cpp:101-122 | the other scanner accepts exactly its own line-by-line condition |
| SaveProfile.ClosedIsStricter | godot-addon/native/script_closed_edit.cpp:111-121 | for the same settings what the closed edit accepts the open edit accepts |
| SaveProfile.ScannersDisagree | godot-addon/native/script_closed_edit.cpp:111-121 | the scanners disagree exactly on texts the open edit accepts, under conversion to tabs, with an indentation that mixes a tab with at least one indent of spaces |
| SaveProfile.StricterWitness | godot-addon/native/script_closed_edit.cpp:111-121 | one text on which they disagree |
| ClosedEffects.Reducer.Merge | mcp-server/src/script_closed_edit.rs:46-58 | after every receipt each field is the least upper bound of that field over all receipts merged so far |
| ClosedEffects.MergeIsJoin | mcp-server/src/script_closed_edit.rs:46-58 | each merged field is the least upper bound of that field over the receipts |
| ClosedEffects.OrderIndependent | mcp-server/src/script_closed_edit.rs:46-58 | receipt lists with the same members merge to the same effects |
| ClosedEffects.NotAppliedNeedsRefusal | mcp-server/src/script_closed_edit.rs:59-108 | an authorized outcome is not applied exactly when some receipt proves refusal and none shows an effect |
| ClosedEdit.SampleIsExact | godot-addon/native/script_closed_edit.cpp:123-172 | the faults of a sample, read as a condition on the world for the phase |
| ClosedEdit.Slot.Guard | godot-addon/native/script_closed_edit.cpp:185-216 | with callbacks running inside it, a guard that passes leaves the attempt unchanged, live, in its session and epoch, and the world admitted |
| ClosedEdit.Slot.EnterResource | godot-addon/native/script_closed_edit.cpp:298-307 | the setter is entered only on a live attempt in an admitted world, once |
| ClosedEdit.Slot.EnterDisk | godot-addon/native/script_closed_edit.cpp:315-333 | the write is entered only after the resource effect, if there is one, and success means written, truncated, flushed and read back |
| ClosedEdit.Slot.StoreBytes | godot-addon/native/script_closed_edit.cpp:316-333 | the write loop leaves the new bytes up to the written count |
| ClosedEdit.Slot.Apply | godot-addon/native/script_closed_edit.cpp:290-355 | a request for another attempt changes nothing; otherwise only this attempt enters effects and is shown, the last receipt shows exactly what it has entered, refused means nothing and applied everything, in order and in an admitted world; left alone an exact request is applied |
| ClosedEdit.Slot.Prepare | godot-addon/native/script_closed_edit.cpp:261-289 | a taken slot or an invalid binding changes nothing; otherwise a new serial is shown, nothing is entered, and prepared means the new attempt's plan is the world that was checked; left alone an exact request is prepared |
| ClosedEdit.Slot.Verify | godot-addon/native/script_closed_edit.cpp:356-383 | a verification or recheck enters nothing, is shown, and succeeds only on an admitted world; undisturbed it does succeed |
| ClosedEdit.Slot.Abort | godot-addon/native/script_closed_edit.cpp:389-392 | frees the named attempt with one last receipt, partial exactly when an effect was entered; any other changes nothing |
| ClosedEdit.Slot.Expire | godot-addon/native/script_closed_edit.cpp:393-396 | due exactly when the time is over; then the attempt leaves with one last receipt |
| ClosedEdit.ReceiptIsHonest | godot-addon/native/script_closed_edit.cpp:173-183 | a receipt says exactly which effects have happened |
| ClosedEdit.Run | godot-addon/native/script_closed_edit.cpp:238-396 | over every run, with aborts, expiry and closes from callbacks, every view and reply is what its operation made of the view before; at every moment entries are justified, effects are in order, and every receipt so far is true |
| ClosedEdit.UninterruptedEdit | godot-addon/native/script_closed_edit.cpp:261-355 | left alone, the run of an exact request is prepared and applied; the file and the resource then hold the new source and the modification time is back |
| ClosedEdit.VerdictIsTrue | mcp-server/src/script_closed_edit.rs:59-108 | from any receipts of one attempt: not applied means no effect is ever entered; verified change means write, truncate, flush, readback and time restore all happened, and the setter if a resource is present |
| ClosedEdit.Conclude | mcp-server/src/script_closed_edit.rs:46-108 | from any operations through any selection of the receipts of one attempt, picked in any order and with repetitions, to the verdict: it is the outcome of exactly the picked receipts merged, not applied means no effect was entered, verified change means write, truncate, flush, readback and time restore all were |
| OpenPath.Attempt.Prepare | godot-addon/native/script_open.cpp:265-313 | ready exactly when the capture binds, a cached resource holds exactly the captured source unedited, and every guard holds; nothing is entered, and a failure discards the attempt |
| OpenPath.Attempt.Guard | godot-addon/native/script_open.cpp:107-193 | the guard, read as a condition on the world |
| OpenPath.Attempt.Bind | godot-addon/native/script_open.cpp:332-366 | a cold path is published exactly when the guards hold on the object three times and the cache then names it; a cached one is reused without an effect |
| OpenPath.Attempt.Reload | godot-addon/native/script_open.cpp:367-380 | one compilation of the published resource; ready exactly for success or a parse error |
| OpenPath.Attempt.ShowDocument | godot-addon/native/script_open.cpp:381-393 | one request to show; ready exactly when the document is found on this script |
| OpenPath.Attempt.Advance | godot-addon/native/script_open.cpp:315-397 | ready exactly when the stage is the next one, the guards hold before and after and the engine answered, and then the new state is exactly that stage's; otherwise the attempt is discarded, partial exactly when an effect was entered, and nothing is entered unless the guards held |
| OpenPath.Attempt.Observe | godot-addon/native/script_open.cpp:400-430 | a verification succeeds exactly when its guards hold, has no effect, and after an open means everything still agrees |
| OpenPath.Run | godot-addon/native/script_open.cpp:31-55 | over every run every report is what its step made of the view before: effects are entered at most once, in order, in the world their stage predicts, and never after the attempt was discarded; refused means none, partial means some; a cached resource is only ever shown |
| OpenPath.UninterruptedOpen | godot-addon/native/script_open.cpp:265-397 | left alone, the run of a cold open is ready at every step, publishes, compiles and shows once each, and ends with document, cache and disk in agreement |
| CloseLedger.VisitStep | godot-addon/native/script_close.cpp:429-470 | a visit keeps the ledger equal to what the event trace says |
| CloseLedger.CompletionStep | godot-addon/native/script_close.cpp:471-496 | so does a completion of a required editor |
| CloseLedger.CompletedMeansEveryVisit | godot-addon/native/script_close.cpp:84-88 | the continuation is completed exactly when the call returned, nothing was invalidated, something was shown, and every visited editor completed after its latest visit; for a live attempt the phase is then settled |
| CloseLedger.SettledMeansAll | godot-addon/native/script_close.cpp:643-709 | once returned and not terminal, settled exactly when every required editor completed after its latest visit |
| CloseLedger.StillRequired | godot-addon/native/script_close.cpp:428-470 | an editor once required stays required |
| CloseLedger.Slot.Receive | godot-addon/native/script_close.cpp:428-496 | a stale signal changes nothing; a live benign one is recorded with everything that arrives while its guard runs; releases, expiry and closes free the slot |
| CloseLedger.Slot.Advance | godot-addon/native/script_close.cpp:643-699 | the close is entered once, only prepared, authorized and unterminated; a good return is settled or settling by the ledger, a failure retires the attempt, undisturbed exactly the signals sent are recorded |
| CloseLedger.Slot.Report | godot-addon/native/script_close.cpp:700-709 | the report is the continuation of the attempt it leaves; completed means every visited editor completed since, and settled for a live attempt |
| CloseLedger.Slot.Observe | godot-addon/native/script_close.cpp:711-742 | an observation succeeds only with the ledger complete and nothing invalidated, waits while it is not, and otherwise retires the attempt |
| CloseLedger.Run | godot-addon/native/script_close.cpp:428-763 | after any sequence of calls and nested signals every view and reply is what its operation made of the view before, and the ledger refines the trace: required is what was visited, completed is what completed since its latest visit, settled means equal, invalidation means terminal, no event before entry |
| CloseLedger.UndisturbedClose | godot-addon/native/script_close.cpp:428-709 | in the run of an undisturbed close, whatever visits and completions arrive during and after it, with visits and completions nested in the guards of completions to any depth, the ledger holds exactly those events, each completion after what arrived in its guard; completion is reported exactly when every visited editor completed after its latest visit |
| CloseLedger.ArrivalOrderAgrees | godot-addon/native/script_close.cpp:428-496 | recording events when they are accepted or when they arrive gives the same visited and the same completed editors, when no completion's guard hears a visit of its own editor, at any depth |
| CloseLedger.OwnVisitExactly | godot-addon/native/script_close.cpp:471-496 | for one completion: the ledger has its editor completed, and so has the order of arrival exactly when its guard recorded no visit of that editor or a completion after the last one |
| SessionSlot.Session.Enter | godot-addon/native/native.hpp:213-247 | any nesting of calls from callbacks: no second frame starts, the frame below keeps its attempt and session, a close asked for inside takes effect when the frame unwinds, terminal is never cleared; without callbacks each entry point has exactly its own effect |
| SessionSlot.Session.End | godot-addon/native/script_open.cpp:94-102 | the frame's end performs a pending close and nothing else |
| SessionSlot.Session.Framed | godot-addon/native/script_open.cpp:94-102 | a frame with callbacks inside leaves the same attempt, or none and a closed session |
| SessionSlot.Run | godot-addon/native/session.cpp:177-222 | over any sequence of calls every view is what its call made of the view before: at most one frame at any moment, attempts have increasing serials and keep their kind, terminal stays, a close leaves no attempt, no descriptor and no session |
| SessionSlot.UnconfiguredExactly | godot-addon/native/script_closed_edit.cpp:261-272 | an attempt comes to hold the slot of a closed session exactly when a bound closed preparation finds it free and unconfigured, and it is then terminal |
| Paths.AffectedIsComponentPrefix | mcp-server/src/project_fs/discovery.rs:154-160 | a path is affected by a prefix exactly when the prefix's components are a prefix of the path's |
| Paths.WalkedPathEligible | mcp-server/src/script_discovery.rs:465-481 | every path the walk can build passes the consumer's eligibility test |
| FileTree.FailureCoversFile | mcp-server/src/project_fs/discovery.rs:308-367 | a failed check of a file names an ancestor of it or the file itself |
| Discovery.FailureCovers | mcp-server/src/project_fs/discovery.rs:308-367 | so every recorded file is withdrawn by its own failure |
| Discovery.DirectoryFailureCovers | mcp-server/src/project_fs/discovery.rs:308-353 | and every recorded directory by its own |
| Discovery.AffectedTransitive | mcp-server/src/project_fs/discovery.rs:154-160 | being affected is transitive |
| Discovery.ConsumerDropsWithdrawn | mcp-server/src/project_fs/discovery.rs:715-739 | after every message the consumer holds nothing under a withdrawn prefix |
| Discovery.ConsumedIsEmitted | mcp-server/src/project_fs/discovery.rs:715-739 | it holds only emitted paths, and all of them when nothing was withdrawn |
| Discovery.HeldUncovered | mcp-server/src/project_fs/discovery.rs:291-307 | a path still held is under no withdrawn prefix |
| Discovery.StaticListing | mcp-server/src/project_fs/discovery.rs:406-609 | an exact listing reaches the consumer as exactly the visible scripts, without duplicates |
| Inventory.PlanExists | mcp-server/src/project_fs/discovery.rs:406-609 | a tree whose listings end and whose directories nest finitely has exactly one plan: what a walk should count, list and report |
| Discovery.Planned | mcp-server/src/project_fs/discovery.rs:610-654 | a walk whose books match the plan is exhausted exactly within every limit, and clean exactly when moreover no entry is refused |
| StaticTree.RecordSolid | mcp-server/src/project_fs/discovery.rs:406-470 | on an untouched tree a recorded directory says what the tree says, and so does everything recorded before |
| StaticTree.DirectorySolid | mcp-server/src/project_fs/discovery.rs:308-353 | on an untouched tree no recheck of a directory fails, at any later moment |
| StaticTree.FileSolid | mcp-server/src/project_fs/discovery.rs:354-367 | nor does a check of a file |
| Discovery.Walker.Withdraw | mcp-server/src/project_fs/discovery.rs:291-307 | withdrawing a prefix removes it from files, pending batch and future emission |
| Discovery.Walker.Flush | mcp-server/src/project_fs/discovery.rs:368-405 | a batch carries only paths that were just rechecked and are under no withdrawn prefix |
| Discovery.Walker.Visit | mcp-server/src/project_fs/discovery.rs:406-609 | on a steady tree one directory contributes exactly what the recursive definition says of it; recursion ends by depth and remaining work |
| Discovery.Walker.Run | mcp-server/src/project_fs/discovery.rs:610-654 | on success every directory and file still listed passed its own final check |
| Discovery.Collect | mcp-server/src/project_fs/discovery.rs:610-654 | every whole walk: the counts, the 1024 listed files, the depth and the batch sizes stay within their limits, the first gaps are kept and the others counted, exhausted says exactly that no limit was reported and a limit is reported only where it was reached; emitted paths are recorded files, eligible and never under a withdrawn prefix; a clean walk of a static tree gives the consumer exactly the visible scripts; on success everything retained is a recorded file that passed its own final check; on an untouched tree nothing is withdrawn, the walk is exhausted exactly when the plan of the tree is within every limit, and then counts, listed paths and gaps are the plan's, so the walk is clean exactly when the plan has no gap |
| Evidence.InvalidateDegrades | mcp-server/src/observation.rs:909-954 | invalidating a source keeps the first text and the first reason and never makes it current |
| Evidence.InvalidateSourceDegrades | mcp-server/src/observation.rs:1690-1919 | invalidating one authority only degrades the body |
| Evidence.ApplyDegrades | mcp-server/src/observation.rs:1690-1919 | so does each detected change |
| Evidence.ApplyAllDegrades | mcp-server/src/observation.rs:1690-1919 | and any sequence of them |
| Evidence.ApplyTouches | mcp-server/src/observation.rs:1690-1919 | a detected change applies exactly when it can bear on the evidence; what it touches is no longer current and nothing else moves |
| Evidence.TouchedStaysLost | mcp-server/src/observation.rs:1690-1919 | after any sequence of changes nothing any of them touched is current |
| Observation.FinishDegrades | mcp-server/src/observation.rs:1690-2059 | finishing evidence keeps every detected change, keeps the recheck reason, and only degrades the rest |
| Observation.FinishLosesTouched | mcp-server/src/observation.rs:1690-2059 | a finished snapshot shows nothing as current that a listed change touches |
| Observation.Classify | mcp-server/src/observation.rs:2314-2450 | the reducing loops compute the classification the lemmas below are about |
| Observation.ReduceMeans | mcp-server/src/observation.rs:2314-2450 | the signal kept is one of the given with the strongest priority; diagnostics are the given ones and those of the signals |
| Observation.SignalOrderIrrelevant | mcp-server/src/observation.rs:2314-2450 | permuting the signals changes neither kind, snapshot, target nor the set of diagnostics, and fails alike; the selection too unless different ambiguous selections compete |
| Observation.RefusalIsSourceFree | mcp-server/src/observation.rs:2314-2450 | a denial, an ambiguity or an invalid request among the signals leaves no evidence and no target |
| Observation.ClassifiedIsWellFormed | mcp-server/src/observation.rs:2097-2118 | a snapshot that comes out is well formed, and complete only if it classifies as complete |
| Observation.ClassifiedCompletesExactly | mcp-server/src/observation.rs:2314-2450 | an observation is complete exactly when there is no signal and the evidence is valid, about this target, whole, and rechecked without a finding |
| Observation.SupplementNeverUpgrades | mcp-server/src/observation.rs:2256-2304 | one supplement only extends the changes, upgrades nothing, keeps first text and reasons; complete only without changes, failure or lifecycle loss, not open only over a snapshot that already classifies so |
| Observation.SupplementCompletesExactly | mcp-server/src/observation.rs:2256-2304 | exactly when a supplement is complete |
| Observation.SupplementSucceedsExactly | mcp-server/src/observation.rs:2256-2304 | exactly when a supplement ends in either kind of success, however the attempt had ended |
| Observation.NotOpenNeverCompletes | mcp-server/src/runner/read.rs:34-84 | under the guard of the one caller a supplement never makes a complete observation |
| Observation.ChainNeverUpgrades | mcp-server/src/observation.rs:2256-2304 | the same along every chain of supplements |
| Observation.FailedOutcomeMaySucceed | mcp-server/src/runner.rs:88-103 | a protocol error over evidence of a closed script that a supplement with a changed file turns into not open, which exits as a success |
| Collector.Collected.Accept | mcp-server/src/runner.rs:192-244 | an event is accepted exactly in its place in the protocol; a misplaced one is a protocol failure and changes nothing |
| Collector.Collected.Finish | mcp-server/src/runner.rs:245-340 | complete only if exactly the five events were accepted in order, with nothing changed and all observed; the result is always the classifier's verdict on what was gathered, and rejected evidence is dropped |
| Collector.Supervise | mcp-server/src/runner.rs:642-709 | over every sequence of polls: the events accepted are those of the polls taken, no further poll could have been taken, the result is the classifier's verdict on those events and on the failure that ended the attempt, and the observation is complete exactly when some polls from the start, with any number of empty ones among them and whatever follows, deliver the whole protocol in time over sufficient evidence |
| Wire.SourceRoundTrip | mcp-server/src/bridge/wire.rs:409-567 | what the decoder produces, encoded and decoded with a later receipt, is the same source with that receipt |
| Wire.SourceSurvives | mcp-server/src/bridge/wire.rs:1551-1568 | exactly which sources cross the boundary with only their receipts replaced |
| Wire.FactRoundTrip | mcp-server/src/bridge/wire.rs:616-651 | the same for facts |
| Wire.DirtyRoundTrip | mcp-server/src/bridge/wire.rs:692-757 | the same for the dirty state, including the replay of first and current reasons |
| Wire.ChangesRoundTrip | mcp-server/src/bridge/wire.rs:1068-1091 | every detected change has a wire form that decodes to it |
| Wire.ChangesDecodeOnce | mcp-server/src/bridge/wire.rs:1753-1766 | and no other wire form does |
| Wire.RecheckRoundTrip | mcp-server/src/bridge/wire.rs:1896-1917 | exactly which rechecks survive the wire |
| Wire.RecheckImage | mcp-server/src/bridge/wire.rs:2197-2219 | everything the decoder produces does, and a partial recheck is never empty |
| Wire.DiagnosticsRoundTrip | mcp-server/src/bridge/wire.rs:759-777 | diagnostics cross in order, each with exactly its own texts |
| Wire.SampleRoundTrip | mcp-server/src/bridge/wire.rs:795-1046 | a whole sample, its diagnostics included, comes back with only its receipts replaced |
| Decimal.OrderIsNumeric | mcp-server/src/observation.rs:174-206 | comparing counters as strings is comparing the numbers they write, at any size |
| Frames.SendEvent | mcp-server/src/runner.rs:711-725 | a longer message is refused and nothing is written; otherwise a reader that cuts the output finds the earlier messages and then this one |
| Frames.Reader.Next | mcp-server/src/runner.rs:577-630 | for all answers of the reads: what was read continues the unfinished frame, a delivered frame is complete, no read has an empty buffer, a call stays within its budget, a length is refused exactly when zero or over the limit |
| Frames.CutMore | mcp-server/src/runner.rs:577-630 | cutting bytes into frames may stop and go on anywhere |
| Frames.CutFrames | mcp-server/src/runner.rs:711-725 | framed messages are cut back into themselves |
| Frames.ArrivedIsSent | mcp-server/src/runner.rs:577-630 | any arrived part of sent frames holds the first messages and no refused length |
| Frames.Deliver | mcp-server/src/runner.rs:577-630 | delivery depends on the bytes taken and not on the reads; every answer that brings bytes makes progress, and each failure has its cause |
| Frames.Relay | mcp-server/src/runner.rs:577-630 | end to end the supervisor receives the first messages sent, and all of them when the reads bring enough bytes without an error |
| Framing.ParseBytes | godot-addon/native/script_close.cpp:245-279 | the bytes of a typed value read back as that value, whatever follows |
| Framing.SameIsNormal | godot-addon/native/script_close.cpp:262-268 | two values are equal exactly when their key-sorted forms are identical |
| Framing.EncodingIsExact | godot-addon/native/script_close.cpp:245-279 | two values have the same bytes exactly when they are equal; no encoding is a proper prefix of another |
| Digest.Stream.Encode | godot-addon/native/script_close.cpp:253-272 | streaming succeeds exactly for admissible values under the byte ceiling and feeds exactly their encoding |
| Digest.InsertionOrderHidden | godot-addon/native/script_close.cpp:262-268 | the order in which a dictionary was filled does not show |
| Digest.ContextIsExact | godot-addon/native/script_close.cpp:245-279 | behind the domain, admitted projections have the same bytes exactly when equal |
| GuardRecord.GuardDigest.Stream | godot-addon/native/editor_context.cpp:167-216 | streaming the record feeds its typed encoding behind the domain; allowed exactly within the budget |
| GuardRecord.GuardIsExact | godot-addon/native/editor_context.cpp:167-216 | the guard commits to all 26 fields and is prefix-free |
| GuardRecord.GuardIsCanonical | godot-addon/native/editor_context.cpp:96-216 | with its level maps in key order the record is streamed in the key order of the canonical encoding, so the guard hashes that encoding |
| GuardRecord.CounterFits | godot-addon/native/editor_context.cpp:72-77 | a machine word always fits the twenty digits reserved for it |
| Records.TranscriptIsExact | mcp-server/src/bridge.rs:158-206 | a handshake transcript under a role determines role and handshake and is prefix-free |
| Records.Context.Commitment | mcp-server/src/script_read.rs:115-196 | the fields are fed in order, with their markers and the optional dirty witness |
| Records.RevisionIsExact | mcp-server/src/script_read.rs:59-196 | a revision's bytes determine every part of its basis and are prefix-free |
| Records.DirtyCancels | mcp-server/src/script_read.rs:168-184 | the unmarked dirty-witness block cannot be confused with what follows it |
| Utf8.Utf8Text | godot-addon/native/session.cpp:62-81 | accepts exactly the encodings of sequences of scalar values other than zero |
| Utf8.EncodingUnique | godot-addon/native/session.cpp:62-81 | no two sequences of scalar values have the same encoding |
| Utf8.Unsupported | godot-addon/native/editor_context.cpp:346-353 | refuses exactly what is too long, not text, or flagged at some byte |
| Utf8.FlaggedMeansRefused | godot-addon/native/editor_context.cpp:346-353 | bytes are flagged exactly when the decoded text has a byte-order mark or a control character other than newline and tab |
| Utf8.ServerAndAddOnAgree | mcp-server/src/script_close.rs:40-49 | on every string the add-on's byte test and the server's character test agree |

## Left out

- OpenEdit.Editor.RemoveText: opening the history bracket may lose the document, or bring a cancellation or a close, but does not change the world; the engine call only starts an undo group and runs no document callback.
- Frames.Reader.Next: the three failures are told apart here; the source reports one protocol failure for all of them.
- Wire.SampleRoundTrip: the version, kind, request, session, root and path of a sample and of an event envelope, each compared for equality, are not in the record.
- Discovery.Collect: the exactness of a static listing assumes that a directory lists a name once and that answers do not change with time; the order in which directories are rechecked is arbitrary.
- OpenPath.Attempt.Prepare: comparing the hash and length of the cached source is modelled as comparing the texts.
- CloseLedger.Slot.Observe: the comparison of the resource and of the surviving documents is an answer of the environment.
- SessionSlot.Session.Enter: preparing an open edit is one step there; its inner calls are in OpenEdit.
- FileIo.Content: a read error makes the comparison false, so equality is promised only when reads make progress.
- SHA-256, HMAC, nonces and sockets are uninterpreted; a statement about commitments is about the bytes that are hashed.
- The JSON text of wire records and its size limit; the model starts at decoded records.
- Fault injection compiled in for fixtures.
- POSIX ownership, access lists and durability; identity and metadata are values that match or not.
- Real time and threads; the clock is a number each world carries, cancellation an input of each poll.
- The comparison of snapshots and the agreement report between the three sources.
- Selection and current-script reporting after an open, and the parse code shown in replies.
- The source lexer behind the profile of class names and base types.
- Bounding a discovery reply to the result size, the schema and the command line.
- Attempts and outcomes of the server modules for editing, opening and closing, and stock validation.
