# Ursula clients: a verified model

Ursula keeps SQLite databases replicated through streams. This project models the state machines its
SQLite client (`clients/sqlite-vfs`) and its JavaScript host package (`clients/sqlite-ursula`) run on,
and two algorithms of its `scripts/`, and proves what they promise over every input and every run.

- **Commits** (`Files`, `Marker`, `Wal`, `Capture`, `Replay`, `Applier`, `FlushPoints`, `CommitPath`). A write
  transaction's WAL writes (rewinds after `ROLLBACK TO`, rewrites in place, WAL restarts, the commit
  frame) are followed into a compact commit record; a batch folds commits into one image a page. Both
  are proved to be the plain thing, end to end from the WAL writes to the db file: replaying the frames
  that no later header undid, one by one.
- **Generations** (`Generation`, `GenerationSafety`, `GenerationRuns`, `GenerationRoot`). A root
  directory's builds, publishes, salvages and recoveries, with a crash after any change to the disk,
  recovery included.
- **The JavaScript thread** (`Gate`, `GatedBody`, `Pump`, `PumpSafety`, `PumpResets`, `Token`). Output
  held until it is synced, the body it gates, the `synced()` calls resolved by the extension's events,
  and the bearer token's provider. Each callback is one step; steps interleave in any order.
- **Processes and callers** (`Registry`, `HostDir`). The registry of bindings and opens under its
  mutex, and the host directory that any number of processes record in, through crashes and power loss.
- **Names and scripts** (`CanonicalPath`, `RootName`, `ReleaseOrder`, `PlanMoves`). Canonical stream
  paths and root names, the publishing order of crates, and the plan of one-voter moves.

An object whose methods change its fields is a class; each of its methods is specified by a function
on a value of its state, and the runs are proved over those functions. `Common` holds what all share.

A few facts of the world are parameters: checksums, digests, Unicode lower-casing, the parse of an
IPv6 literal, random numbers, the clock, what the file system or the driver answers.

Where the code does not meet a property on every input, the failing inputs have a lemma and so has the
exact condition:

- A `synced()` call resolves only once a ticket of its path issued at or after it did, always
  (`PumpSafety.ResolvedIsCovered`); only once its own ticket did, exactly while no reset misses a ticket
  it failed (`PumpResets.ResolvedIsSynced`, `PumpResets.StepExactly`, `PumpResets.MissMisleads`, reached
  by `PumpResets.MissReached`).
- A token held is never applied again after its refusal, until the refusal is lifted, exactly when the
  refusal is taken or the token was banned already (`Token.RefusalProtectsExactly`, its failing window
  reached by `Token.RefusalUndone`).
- A canonical path reads back as itself exactly when it does not end in `/` (`RootName.OriginReadsBack`,
  with the family `CanonicalPath.EndsInSlash`).
- A captured commit is refused by the applier exactly when its final page 1 is no SQLite database's
  (`CommitPath.CommitReachesTheFile`, with the family `CommitPath.RefusalReached`): the capture does not
  check that page's magic.
- Taking an open's answer keeps the registry sound exactly when the driver may still give it or the key
  is free (`Registry.StrayAnswer`, its failing state reached by `Registry.StrayReached`).
- A plan of moves fails exactly when it reaches a group without voters that has a node to take
  (`PlanMoves.Plan`, with the family `PlanMoves.StopReached`).

## Model

| member | source | states |
|---|---|---|
| Marker.MarkedIsRefused | clients/sqlite-vfs/src/codec/marker.rs:108-114 | a page the marker was stamped on is refused by a second stamp, so a stamp happens at most once |
| Applier.PageBatch.Begin | clients/sqlite-vfs/src/applier.rs:74-81 | a commit's start drops exactly the images past a shrunken size, keeps the smallest size seen and sets the last one |
| Applier.PageBatch.Page | clients/sqlite-vfs/src/applier.rs:83-88 | an image joins the batch, which after a flush inside a commit starts again from that commit's size |
| Applier.PageBatch.Flush | clients/sqlite-vfs/src/applier.rs:95-125 | the file is the cut, written and resized one; a refused page 1 leaves the file untouched; a stop after any page write leaves exactly that many pages written |
| Applier.WriteImages | clients/sqlite-vfs/src/applier.rs:119-123 | the write loop, stopped after any page or not, equals the writes of the pages in order |
| FlushPoints.FlushedAt | clients/sqlite-vfs/src/applier.rs:95-125 | every byte of a flushed file: the batch's image of its page, else the old byte below the smallest size, else zero |
| FlushPoints.FlushReadsOnly | clients/sqlite-vfs/src/applier.rs:1-12 | a flush depends only on the bytes below the smallest size that it does not write |
| FlushPoints.FlushAgain | clients/sqlite-vfs/src/applier.rs:1-12 | a batch applied again, after a whole flush or one stopped at any page write, gives the file of one whole flush |
| FlushPoints.RunIsDirect | clients/sqlite-vfs/src/applier.rs:74-125 | over any stream of sizes, pages and flushes a batch stands for the file written directly |
| FlushPoints.FlushPointsDoNotMatter | clients/sqlite-vfs/src/applier.rs:74-125 | flushes anywhere, even inside a commit, leave the file that applying each commit as it comes leaves; none is refused when the page 1s are SQLite's |
| FlushPoints.SameCommitsSameFile | clients/sqlite-vfs/src/applier.rs:74-125 | two ways to flush the same commits leave the same file |
| FlushPoints.RegrownPagesAreZero | clients/sqlite-vfs/src/applier.rs:74-125 | a page a shrink removed reads as zero once a later commit grows the file over it again and none wrote it since, whatever commits, pages and flushes come before and between |
| FlushPoints.PagesPastTheirSizeMatter | clients/sqlite-vfs/src/codec/frame.rs:504-515 | why a record's codec refuses a page past its commit's size: with one, the flush points would matter |
| Wal.FramesAreApart | clients/sqlite-vfs/src/capture.rs:43-53 | two frames of a WAL never overlap, and no frame's header is another's page |
| Capture.WriteTxn.OnWrite | clients/sqlite-vfs/src/capture.rs:208-285 | each WAL write updates the transaction as its specification says: rewinds, pending headers, rewrites, the commit point, and which writes are errors |
| Capture.WriteTxn.FinalFramesOf | clients/sqlite-vfs/src/capture.rs:287-301 | the walk over the frames finds each page's latest frame |
| Capture.FinalFramesList | clients/sqlite-vfs/src/capture.rs:287-312 | the frames of a record: pages strictly ascending, within the commit's size, each by its latest frame, none left out but the commit frame's own |
| Capture.WriteTxn.CheckSize | clients/sqlite-vfs/src/capture.rs:303-322 | a commit is refused exactly when its pages exceed the limit, with nothing read back |
| Capture.ReadBackAll | clients/sqlite-vfs/src/capture.rs:335-352 | the frames read back up to the first that cannot be read or whose checksum differs, with that error |
| Capture.WriteTxn.CaptureCommit | clients/sqlite-vfs/src/capture.rs:324-364 | the record of the commit, or the error of the first check that fails |
| Replay.SurvivorIsLast | clients/sqlite-vfs/src/capture.rs:112-207 | a frame no later header undid is the last one written at its offset |
| Replay.NextFollows | clients/sqlite-vfs/src/capture.rs:208-285 | after every accepted WAL write, while the transaction is open, the tracked frames are exactly the surviving ones, their bytes in the WAL under their checksums |
| Replay.CommittedStays | clients/sqlite-vfs/src/capture.rs:232-282 | at most one commit point is ever reported |
| Replay.HonestReadsSucceed | clients/sqlite-vfs/src/capture.rs:335-352 | with the WAL as it was written, no read back fails |
| Replay.CaptureIs | clients/sqlite-vfs/src/capture.rs:328-382 | the capture fails exactly for a page 1 that leaves WAL mode or the page size; otherwise its record holds the final image of every page within the size, ascending, and its length is the one counted before |
| Replay.CommitIsReplay | clients/sqlite-vfs/src/capture.rs:208-364 | for every sequence of WAL writes that ends in a commit point, the commit frame is the last surviving one, and the record applied to any file gives the file of replaying the surviving frames in offset order and setting the size |
| CommitPath.FlushesExactly | clients/sqlite-vfs/src/applier.rs:95-125 | a record flushed anywhere and at its end is refused exactly when the final image of page 1, if it has one within the size, is no SQLite database's |
| CommitPath.CommitReachesTheFile | clients/sqlite-vfs/src/capture.rs:208-364 | from the WAL writes to the file: the captured record, fed to a batch and flushed anywhere, leaves the file of replaying the surviving frames, unless it is refused, exactly for a final page 1 without SQLite's magic |
| CommitPath.RefusalReached | clients/sqlite-vfs/src/capture.rs:367-382 | over any WAL, checksum, db file and lineage, a first frame that commits a page 1 in WAL mode with 4096-byte pages and without the magic is a commit point, is captured, and is refused by the flush |
| CommitPath.NoMagic | clients/sqlite-vfs/src/capture.rs:367-382 | such a page exists: it passes the check of page 1 and is no SQLite database's |
| GenerationSafety.ClassifyNamesThePublished | clients/sqlite-vfs/src/generation.rs:769-801 | on every disk a run can leave, classification never errs and names exactly the published generation |
| GenerationSafety.AllowedKeeps | clients/sqlite-vfs/src/generation.rs:803-849 | each change recovery or a publish makes, other than the rename, keeps the one current generation and every kept one |
| GenerationSafety.RecoverKeeps | clients/sqlite-vfs/src/generation.rs:803-849 | recovery, stopped after any number of changes, keeps both, and finished leaves one plain generation and finished salvages |
| GenerationSafety.CompleteDoes | clients/sqlite-vfs/src/salvage.rs:419-438 | completing a salvage restores SQLite's magic where its manifest says so and marks it complete, every step allowed |
| GenerationSafety.Pass3Does | clients/sqlite-vfs/src/salvage.rs:451-475 | the last pass finishes every salvage a crash left moving and loses none |
| GenerationSafety.ActsOnPresent | clients/sqlite-vfs/src/generation.rs:769-839 | whatever the headers name as superseded, recovery's pass over the generations acts on those that are there alone |
| GenerationSafety.DanglingNeverActedOn | clients/sqlite-vfs/src/generation.rs:803-849 | a whole recovery of any disk, stopped anywhere, leaves nothing of a generation that is not there, whatever headers name it |
| GenerationSafety.UnclassifiedIsLeft | clients/sqlite-vfs/src/generation.rs:769-839 | a recovery that cannot classify the generations never finishes and leaves every generation and salvage as it was |
| GenerationRuns.FinishDoes | clients/sqlite-vfs/src/generation.rs:1036-1128 | a publish stopped after any step leaves the old generation published before the rename and the new one after it |
| GenerationRuns.StepKeeps | clients/sqlite-vfs/src/generation.rs:803-1148 | every operation, crashed anywhere, keeps the root's invariant |
| GenerationRuns.OneCurrentGeneration | clients/sqlite-vfs/src/generation.rs:769-801 | over any run from an empty root the rule that finds the current generation names exactly the one last renamed into place, whole; any other is the one it supersedes; it is never ambiguous or circular |
| GenerationRuns.PublishedChangesAtRename | clients/sqlite-vfs/src/generation.rs:1036-1128 | what the rule reads as current on disk changes at a publish's rename, to the generation renamed, and at nothing else, crashes and recoveries included |
| GenerationRuns.SalvagedNeverLost | clients/sqlite-vfs/src/generation.rs:1049-1112 | a generation a salvaging publish superseded is never lost or trashed: it keeps its manifest in place or is whole in the salvage directory, and after recovery it is there, complete |
| GenerationRuns.UnpublishedSalvageIsUndone | clients/sqlite-vfs/src/generation.rs:807-839 | a publish that crashed before its rename leaves the old generation as it was once recovery removed the manifest |
| GenerationRoot.Root.Build | clients/sqlite-vfs/src/generation.rs:864-917 | a build starts from the root's one generation and names it, and is refused exactly when there are two or more |
| GenerationRoot.Root.PublishSteps | clients/sqlite-vfs/src/generation.rs:1036-1128 | the plan a publish runs, cut off where it is told to crash |
| GenerationRoot.Root.FinishLeftovers | clients/sqlite-vfs/src/generation.rs:803-839 | the three passes, each reading what the one before left; it fails exactly when the generations cannot be classified |
| GenerationRoot.Reopen | clients/sqlite-vfs/src/generation.rs:803-849 | on any disk a run can leave recovery never fails, finishes unless a crash stops it, and keeps the current generation |
| Gate.StepKeeps | clients/sqlite-ursula/src/gate.ts:85-148 | every hold, answer and failure keeps the queue sound |
| Gate.ReleaseIsSound | clients/sqlite-ursula/src/gate.ts:85-148 | over any run each hold is in exactly one place, is released only by the first `synced()` call started after it once every database answered, in the order of the holds, and an idle queue is empty |
| Gate.NothingReleasedAfterFailure | clients/sqlite-ursula/src/gate.ts:106-147 | over any run from the first failure on, everything that settles is rejected with it |
| Gate.HeldMeanwhileIsNext | clients/sqlite-ursula/src/gate.ts:112-139 | over any run without a failure, a hold made during a call waits until the very next one, is in its batch while it is in flight, and is released by it |
| Gate.Release.HoldOutput | clients/sqlite-ursula/src/gate.ts:99-105 | a hold joins the next batch, starts a call on an idle queue, or is rejected after a failure |
| Gate.Release.Call | clients/sqlite-ursula/src/gate.ts:112-139 | a call takes the whole next batch |
| Gate.Release.Answered | clients/sqlite-ursula/src/gate.ts:112-139 | the last database's answer releases the batch and starts the next call if holds wait |
| Gate.Release.FailWith | clients/sqlite-ursula/src/gate.ts:141-147 | a failure rejects the batch and every hold that waits, once |
| Gate.Release.Broke | clients/sqlite-ursula/src/gate.ts:112-139 | a call that fails on any database fails its batch |
| GatedBody.StepKeeps | clients/sqlite-ursula/src/gate.ts:154-229 | every read, callback, take and cancel keeps the body sound |
| GatedBody.BodyIsAPrefix | clients/sqlite-ursula/src/gate.ts:154-229 | over any interleaving the body passes on a prefix of the chunks in order, each covered by a `synced()` call started after it was read, closes only after all of them, and holds less than 64 KiB plus the last chunk |
| GatedBody.NeverStuck | clients/sqlite-ursula/src/gate.ts:160-229 | over any interleaving a parked read loop has an open body and a full read-ahead, or a call of `pull` that wakes it is due; and an open body always has something due: the loop, a pull, a chunk to take, a callback or a call in flight |
| GatedBody.GatedStream.Loop | clients/sqlite-ursula/src/gate.ts:178-182 | the read loop parks exactly while the body is open and the read-ahead full, and is over with the body |
| GatedBody.GatedStream.Nudge | clients/sqlite-ursula/src/gate.ts:160-165 | a parked loop is woken, any other left as it is |
| GatedBody.GatedStream.OnRead | clients/sqlite-ursula/src/gate.ts:168-216 | a chunk read is counted and held, the end is held, an error fails the body |
| GatedBody.GatedStream.OnSettled | clients/sqlite-ursula/src/gate.ts:184-213 | a released hold passes its chunk on and nudges the loop, or closes or fails the body; a rejected one fails it |
| GatedBody.GatedStream.OnCancel | clients/sqlite-ursula/src/gate.ts:220-225 | a cancel ends the body, stops the gate and nudges the loop |
| PumpSafety.WatermarkBelowWaiting | clients/sqlite-vfs/src/driver/core.rs:1178-1201 | the driver's watermark only rises and never reaches a ticket that still waits, whatever resolves in any order |
| PumpSafety.ResolveKeeps | clients/sqlite-vfs/src/driver/core.rs:1178-1201 | a ticket that resolves, with its binding's mark and the queued watermark it replaces, keeps every pending ticket from being taken for resolved |
| PumpSafety.WithoutMarkKeeps | clients/sqlite-vfs/src/driver/mod.rs:864-885 | the queue keeping only a binding's latest watermark loses nothing a ticket waits for |
| PumpSafety.ResetBindingKeeps | clients/sqlite-vfs/src/driver/core.rs:1212-1289 | a binding that resets fails its waiting tickets with the one event |
| PumpSafety.LeaveKeeps | clients/sqlite-vfs/src/status.rs:329-364 | once a binding left the registry, its events not read yet name no path |
| PumpSafety.BindKeeps | clients/sqlite-vfs/src/db.rs:699-731 | a path bound again, its old tickets still waiting, keeps the invariant |
| PumpSafety.EvictKeeps | clients/sqlite-vfs/src/driver/mod.rs:882-905 | queued events that fall out become a gap, which guards every ticket |
| PumpSafety.ReissueOneKeeps | clients/sqlite-ursula/src/pump.ts:138-151 | a ticket asked for again is above every watermark on its way, so nothing dropped passes for its success |
| PumpSafety.AllReissued | clients/sqlite-ursula/src/pump.ts:138-151 | asking for every ticket again restores the invariant whatever events were lost |
| PumpSafety.WatermarkKeeps | clients/sqlite-ursula/src/pump.ts:269-276 | every call a watermark resolves has a ticket of its path, at or above its own, that the extension resolved |
| PumpSafety.ResetKeeps | clients/sqlite-ursula/src/pump.ts:303-319 | a reset rejects the tickets of its path when it names it, and of the paths hit when it does not |
| PumpSafety.GapKeeps | clients/sqlite-ursula/src/pump.ts:326-339 | a gap wakes every open and asks for every ticket again |
| PumpSafety.WorkerFailsKeeps | clients/sqlite-ursula/src/pump.ts:341-366 | a worker's end loses no call: its tickets move to the next worker or are rejected |
| PumpSafety.NextKeeps | clients/sqlite-ursula/src/pump.ts:128-366 | every step of the pump and of the extension keeps the invariant |
| PumpSafety.ResolvedIsCovered | clients/sqlite-ursula/src/pump.ts:138-366 | over any interleaving, paths bound again after a reset included, a `synced()` call resolves only once the extension resolved a ticket of its path issued at or after the call; each waiting call has exactly one ticket, and the worker is held exactly while something waits |
| PumpResets.StepExactly | clients/sqlite-ursula/src/pump.ts:303-319 | no step leaves a failed ticket behind but the handling of a reset that names no path, and that one exactly when a ticket it failed is not among those hit and nothing else saves it |
| PumpResets.ResolvedIsSynced | clients/sqlite-ursula/src/pump.ts:138-366 | over any run in which no reset misses a ticket it failed, a call resolves only once its own ticket did |
| PumpResets.MissMisleads | clients/sqlite-ursula/src/pump.ts:269-319 | once a reset misses one, some run resolves a call whose ticket failed |
| PumpResets.MissReached | clients/sqlite-ursula/src/pump.ts:303-319 | such a miss is reached: the binding resets and leaves the registry before the event is read |
| Pump.EventPump.SettleAll | clients/sqlite-ursula/src/pump.ts:269-276 | the loop settles exactly the tickets it is given, in order |
| Pump.EventPump.ReissueAll | clients/sqlite-ursula/src/pump.ts:138-151 | the loop asks again for each ticket, oldest first |
| Pump.EventPump.OnEvent | clients/sqlite-ursula/src/pump.ts:262-339 | an event of any kind is handled as specified |
| Pump.EventPump.HandleBatch | clients/sqlite-ursula/src/pump.ts:262-294 | a batch is its events handled in order |
| Pump.EventPump.CallForTicket | clients/sqlite-ursula/src/pump.ts:152-182 | a `synced()` call waits under its ticket and holds the worker |
| Pump.EventPump.Fail | clients/sqlite-ursula/src/pump.ts:341-366 | the worker's end: opens woken, a new worker and every ticket asked for again, or all rejected after three failures in a row |
| Token.RefreshBeforeExpiry | clients/sqlite-ursula/src/token.ts:85-113 | a token taken is printable, refreshed at least a second from now and never after it expires |
| Token.RetryBounds | clients/sqlite-ursula/src/token.ts:86-86 | every backoff is between half a second and thirty |
| Token.RetryByExpiry | clients/sqlite-ursula/src/token.ts:359-378 | a retry is due by the expiry of the token the failed call was handed |
| Token.StepKeeps | clients/sqlite-ursula/src/token.ts:123-395 | every callback keeps the source's invariant |
| Token.NoLostWakeup | clients/sqlite-ursula/src/token.ts:186-395 | over any run the current token is the one held, a dropped one names it, a call and a timer never coexist, either has a provider, a waiting open has one of them, and each open has one outcome, whose token was applied |
| Token.RefusalBans | clients/sqlite-ursula/src/token.ts:228-236 | a refusal of the token held bans it exactly when a provider is set, it did not fail for good and no answer of that token is landing |
| Token.RefusedNeverApplied | clients/sqlite-ursula/src/token.ts:186-357 | no step of any run applies a banned token again until a different one lands or a string replaces it |
| Token.UnbannedIsApplied | clients/sqlite-ursula/src/token.ts:186-357 | otherwise, unless another token is landing, some run applies it again |
| Token.RefusalProtectsExactly | clients/sqlite-ursula/src/token.ts:186-357 | after a refusal of the token held, no run applies it again before a different one lands or a string replaces it, if and only if the refusal is taken or the token was banned already |
| Token.RefusalUndone | clients/sqlite-ursula/src/token.ts:328-343 | the window between the two callbacks of an answer is reachable, and a refusal in it is undone |
| Token.Source.TokenFor | clients/sqlite-ursula/src/token.ts:172-226 | an open is served at once, gives up, or waits with a call in flight or a retry scheduled |
| Token.Source.BindRefused | clients/sqlite-ursula/src/token.ts:228-236 | a refused token is dropped unless a newer one is current, and a call starts |
| Token.Source.PathsBlocked | clients/sqlite-ursula/src/token.ts:238-246 | a condition drops the current token and remembers who reported it |
| Token.Source.TakeBack | clients/sqlite-ursula/src/token.ts:248-257 | a handed-back token whose reporters cleared is asked for at once |
| Token.Source.StopProvider | clients/sqlite-ursula/src/token.ts:259-284 | a stop settles every open and keeps the token held only if the server refused it |
| Token.Source.OnAnswer | clients/sqlite-ursula/src/token.ts:324-334 | an answer is checked, refused if it is the token it was handed, or applied |
| Token.Source.OnSuccess | clients/sqlite-ursula/src/token.ts:346-357 | a landed token becomes current, held and scheduled, and every open gets it |
| Token.Source.OnFailure | clients/sqlite-ursula/src/token.ts:359-378 | a failure backs off, forgives what came before the expiry, or fails for good |
| Token.Source.OnTimer | clients/sqlite-ursula/src/token.ts:387-394 | a due timer calls, or stops an unused provider |
| Registry.OpenKeeps | clients/sqlite-vfs/src/db.rs:473-601 | a claim in any registry state keeps it sound |
| Registry.TimeOutKeeps | clients/sqlite-vfs/src/db.rs:654-678 | a wait that runs out keeps the registry sound |
| Registry.TakeBoundKeeps | clients/sqlite-vfs/src/db.rs:679-697 | taking an answer the driver may give keeps the registry sound |
| Registry.InsertKeeps | clients/sqlite-vfs/src/db.rs:699-731 | a registration's binding joins both indexes |
| Registry.StepKeeps | clients/sqlite-vfs/src/db.rs:473-777 | every critical section keeps the registry sound |
| Registry.OneAtATime | clients/sqlite-vfs/src/db.rs:269-311 | in every run a stream and role has no open in progress beside a registration or a binding, a binding beside a registration is its own, and `paths` is exactly the path index of `names` and `readers` |
| Registry.OneRoot | clients/sqlite-vfs/src/db.rs:545-601 | what an open gets is under the cache root it asked for, and no binding of the stream it could share stays under another |
| Registry.EndsUnderItsRoot | clients/sqlite-vfs/src/db.rs:449-525 | over any run a call that waits for an open, or registers its binding, does so under the cache root it asked for |
| Registry.HeldStays | clients/sqlite-vfs/src/db.rs:545-588 | a binding the host holds under another root is never given up for an open, which is refused unless the owner's binding serves it |
| Registry.GivesUpExactlyAlone | clients/sqlite-vfs/src/db.rs:654-678 | a timed-out call gives an open up exactly when no other call waits for it or comes back for it |
| Registry.StrayAnswer | clients/sqlite-vfs/src/db.rs:679-694 | taking an answer keeps the registry sound exactly when the driver may still give it, or the key is free |
| Registry.StrayReached | clients/sqlite-vfs/src/db.rs:654-777 | a state is reached in which a call asks for a cancelled open while another is in progress at its key |
| Registry.Bindery.ClaimKey | clients/sqlite-vfs/src/db.rs:545-601 | the claim's decision and the registry it leaves |
| Registry.Bindery.WaitRanOut | clients/sqlite-vfs/src/db.rs:654-678 | whether the open is given up, and the entry it leaves |
| Registry.Bindery.StartOpen | clients/sqlite-vfs/src/db.rs:504-515 | a new open's entry counts its first call |
| Registry.Bindery.TakeAnswer | clients/sqlite-vfs/src/db.rs:679-694 | the entry goes and a bound stream is registering |
| Registry.Bindery.Register | clients/sqlite-vfs/src/db.rs:699-731 | the binding under its name, role and path |
| Registry.Bindery.EndRegistering | clients/sqlite-vfs/src/db.rs:327-335 | the registration's mark goes |
| Registry.Bindery.Forget | clients/sqlite-vfs/src/db.rs:768-777 | an open in progress, if any, leaves the registry |
| HostDir.StepKeeps | clients/sqlite-vfs/src/hostdir.rs:302-426 | every step of any recorder, a crash and a power loss keep the directory sound |
| HostDir.RecordsAreWhole | clients/sqlite-vfs/src/hostdir.rs:20-31 | over any run a record's name is absent or holds a complete record |
| HostDir.NeverReplaced | clients/sqlite-vfs/src/hostdir.rs:20-31 | through any run a durable record keeps its file and content, and so does any record through a run without a power loss |
| HostDir.StepReplacesNone | clients/sqlite-vfs/src/hostdir.rs:20-31 | no step changes a record that exists; only a power loss may take one, and only one not durable yet |
| HostDir.SuccessLasts | clients/sqlite-vfs/src/hostdir.rs:302-317 | everything that succeeded stays on disk through any run: a durable record that names exactly its cache directory, whoever linked it |
| HostDir.Directory.Publish | clients/sqlite-vfs/src/hostdir.rs:362-400 | a published record is complete and this directory's, existing records stay, and each failing call ends it |
| HostDir.Directory.RecordDir | clients/sqlite-vfs/src/hostdir.rs:302-317 | success means a durable record of this directory; a record of another directory fails the open; with none there it succeeds exactly when every call does |
| HostDir.RecordedIsARun | clients/sqlite-vfs/src/hostdir.rs:302-400 | what one recorder does alone, each call failing or not, is a run of its steps, so what holds of every run holds of it |
| CanonicalPath.DecodeSegment | clients/sqlite-vfs/src/generation.rs:154-171 | the loop decodes a segment, or finds a malformed escape or bytes that are not UTF-8 |
| CanonicalPath.EncodeText | clients/sqlite-vfs/src/generation.rs:173-184 | the loop spells a text as `encodeURIComponent` does |
| CanonicalPath.DecodeEncode | clients/sqlite-vfs/src/generation.rs:154-184 | decoding undoes encoding for every text |
| CanonicalPath.CanonicalPathOf | clients/sqlite-vfs/src/generation.rs:117-152 | the loop gives the canonical path, or the error of the first check that fails |
| CanonicalPath.CanonicalSpells | clients/sqlite-vfs/src/generation.rs:117-152 | the path spells the decoded texts of the segments, `.` and `..` resolved, and is refused exactly when they are all empty |
| CanonicalPath.SameNameSameTexts | clients/sqlite-vfs/src/generation.rs:95-152 | two URLs name one stream exactly when their resolved texts are the same |
| CanonicalPath.CanonicalAgain | clients/sqlite-vfs/src/generation.rs:117-152 | a canonical path read back under any scheme and authority is itself without the `/` it ends in |
| CanonicalPath.EndsInSlash | clients/sqlite-vfs/src/generation.rs:127-151 | a whole family of URLs whose path ends in `/` and does not read back |
| RootName.MakeLabel | clients/sqlite-vfs/src/generation.rs:200-219 | the loop makes the label: runs of other characters collapsed, no leading dash, cut, never empty |
| RootName.NameIsRootName | clients/sqlite-vfs/src/generation.rs:186-238 | every root name made passes the test other processes find roots by, and carries the digest |
| RootName.SameNameSameDigest | clients/sqlite-vfs/src/generation.rs:186-221 | two streams share a root name only if their digests agree |
| RootName.CollapseKeeps | clients/sqlite-vfs/src/generation.rs:200-211 | collapsing keeps every character a label may have, in order |
| RootName.NameIsReadable | clients/sqlite-vfs/src/generation.rs:186-221 | a stream whose last two segments are plain is named by them and its digest |
| RootName.AuthorityExactly | clients/sqlite-vfs/src/drain.rs:148-199 | an authority is taken exactly when it is a non-empty name of allowed characters or an IPv6 address in brackets, followed by nothing or by a colon and a number up to 65535 |
| RootName.OriginShape | clients/sqlite-vfs/src/drain.rs:129-202 | an accepted origin is a lower-case scheme and an authority without path, query, fragment or userinfo |
| RootName.OriginAgain | clients/sqlite-vfs/src/drain.rs:129-202 | an accepted origin is accepted again, unchanged |
| RootName.OriginReadsBack | clients/sqlite-vfs/src/drain.rs:204-214 | a canonical path read back through any accepted origin is itself exactly when it does not end in `/` |
| RootName.NeverMisnamed | clients/sqlite-vfs/src/drain.rs:546-566 | the drain expects the root name the stream has, exactly when its path does not end in `/` |
| ReleaseOrder.TopologicalOrder | scripts/crates_release.py:50-73 | the loops return every package once, each after what it requires, or raise exactly when the requirements have a cycle |
| ReleaseOrder.OrderIsSorted | scripts/crates_release.py:59-73 | an order returned lists each package once with all it requires earlier |
| ReleaseOrder.RaisesOnCycle | scripts/crates_release.py:62-67 | nothing on a cycle is ever ready, so a cycle makes it raise |
| ReleaseOrder.CycleOnRaise | scripts/crates_release.py:62-67 | when it raises there is a cycle |
| ReleaseOrder.DifferenceUpdate | scripts/crates_release.py:71-72 | the published packages leave every requirement, and nothing else does |
| PlanMoves.Plan | scripts/ursula_chaos_agent.py:384-427 | at most `count` moves of distinct stable groups, each lawful and the best with those before it made; with room left every stable group that could move does; it fails exactly when it reaches a group without voters that has a node to take |
| PlanMoves.StopReached | scripts/ursula_chaos_agent.py:384-427 | a stable group without voters, with any active node and any room, stops the plan |
| PlanMoves.BestMove | scripts/ursula_chaos_agent.py:411-425 | the new node has the fewest roles of those allowed, the old one the most of the voters, ties to the least node, and the number of voters stays |
| PlanMoves.RecountNext | scripts/ursula_chaos_agent.py:413-416 | a move changes the recount over all groups by its two nodes alone |
| PlanMoves.CountsNext | scripts/ursula_chaos_agent.py:400-416 | the running counter equals the recount with the plan applied, after every move |
| PlanMoves.Choices | scripts/ursula_chaos_agent.py:408-410 | exactly the active nodes that are no voter, not retiring in the group, and the one to fill if one is given |

## Left out

- WAL offsets are unbounded integers: the saturation of sums within a page of the largest 64-bit offset is not modelled.
- A forwarded WAL write, `fsync` or `set_len` that fails: the capture and the applier see the writes that succeeded, and a flush stops only between page writes.
- Checksums have no collisions to reason about: a lost write is found when its checksum differs.
- One building at a time in a root: builds that overlap in one process are not modelled.
- A salvage directory is known by its generation; the search for a free directory name is not modelled.
- A header damaged while the generation it supersedes is still there: outside the run's steps, since the code reports it as an error and acts on nothing.
- Power-loss reordering of renames inside a root: a generation's changes persist one by one, as the code's own crash tests have it.
- The reader directories of a root, its lock file and its snapshot body.
- Calls made between a worker's end and the restart queued right behind it: the restart and the tickets' new issue are one step with the end.
- A ticket's way from the call to the driver's core: it is issued and known to its binding in one step.
- Listeners of resets, the watchers of events and the references that keep a worker's process alive, beyond the hold count.
- The driver behind the registry, the replication protocol, the log and its codecs, the servers.
- `left`, the registry's memory of bindings with open connections, and the ten-second bound on waiting for a registration.
- A record line longer than 64 KiB, and a host that removes records.
- PlanMoves.Plan: takes the shuffled candidates as given, in any order, and a stable group's target as its current voters, as the placement view builds them.
- Metadata queries, version checks and publishing of the release script; the rest of the chaos agent.
