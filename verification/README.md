# Conduvera control plane: a verified model

Conduvera's control plane queues jobs, starts each attempt of a job once in its own worktree, watches the
sessions it started, reports their ends, and finally publishes an approved changeset and follows its pull
request until it may be merged. This project models that behaviour in Dafny and proves what it promises.

## What is modelled

- **Lifecycle** (`Records`, `Scheduling`, `Engine`, `Service`, `Lifecycle`): jobs, attempts, sessions, payload
  files and evidence bundles, and every call that changes them. `Service.Advance` splits the dispatcher's start
  of an attempt at each of its persistent writes; `Lifecycle.Step` lets every other call, a crash, or a change
  of a payload file happen between any two of them. `Lifecycle.Run` is any finite sequence of such steps.
- **What every run keeps**: `GlobalCapacity` (limits), `Foundation` (record shape, owners, copies), `Starts`
  (one start per attempt, prompts), `Closure` (closed records), `Openings` (at most one open attempt of a job,
  jobs torn by a crash), `Lists` (attempt lists and idempotency keys), `Books` and `Mirrors` (jobs and attempts
  agree), `Reopening` (when a job has two open attempts), `Events` (terminal events), `EvidenceProof` and `Unproved`
  (which completions are proved), `Stranded` (jobs and attempts that nothing picks up again). `Turns` says what
  becomes of waiting attempts when any call may come between the turns of a dispatcher pass; `Dispatching` treats
  a pass with nothing in between, `Monitoring` a pass of the monitor, `Reconciliation` a reconciliation pass.
  `Looks` says what a single look does in terms of the recorded fingerprint, the process found and the clock.
  `Findings` and `Races` hold the runs that show where a condition is needed.
- **The same code, in place** (`Stores`, `ControlPlane`): the scheduler, the payload store and the control plane
  as classes whose methods update their fields step by step and loop as the code does. Each method is proved to
  do what the specification function of its name says, and each of the three loops is proved to be a run
  (`ControlPlane.DispatchOnceIsRun`, `Monitoring.MonitorAllIsRun`, `ControlPlane.ReconcileAllIsRun`), so the
  theorems about runs are about these methods.
- **Merge readiness** (`Checks`, `Delivery`, `Readiness`): branch policy, annotation of check rows, reduction of
  reruns and reviews, summaries, the state cascade and runs of refreshes.
- **Exact publication** (`NameStatus`, `Manifest`, `Policy`, `Publish`): reading a diff, the path policy, the frozen
  manifest and its hash, the stale check, and the index built from the base tree.
- **Event stream** (`EventStream`): the bounded bus and the resuming clients; the stream format is that of
  server-sent events, section 9.2 of the WHATWG HTML Standard.

## Conditions on runs

There is one dispatcher, which any other call may interrupt between two of its steps, between two turns of a pass
included; each other call is atomic. Three results speak of a pass with nothing in between and say so
(`Dispatching.WorkConserving`, `NoOvertaking`, `FirstInFirstOut`); their counterparts over all runs are in `Turns`.
Time is an integer, and what the surroundings answer
(process table, gateway, admission gate, git, GitHub, files) is an argument of the step; the admission gate's
backoff is positive (`local_admission.py:186-188`). Beyond that a theorem about runs names one of these
disciplines. Each excludes single steps by what they are about to write, read off the state before the step; a
session may be looked at, cancelled or reconciled at any moment in all of them.

- `ANY_RUN`: nothing is excluded. The global limit holds for every run.
- `FRESH_RUN`: generated identifiers are new. The code checks the attempt id of a retry against the job's own
  list only (`service.py:906-911`).
- `KEPT_RUN`: in addition no step `Revives`: the dispatcher does not save its copy of an attempt that was closed
  since its session was registered (`service.py:812-815`). Among the runs with fresh ids these are exactly the
  ones in which closed records never change (`Closure.ClosedForever`), and the ones in which a job never has two
  open attempts, nor an open one once it has ended (`Reopening.OpenKept`).
- `LISTED_RUN`: fresh ids, and no step `Drops`: the dispatcher does not save its copy of a job whose list of
  attempts has grown since it was read (`service.py:816-818`). These are exactly the runs in which job lists only
  grow (`Lists.JobsOnlyGrow`).
- `CURRENT_RUN`: fresh ids, and no step is `Stale`: none revives, and none saves a job as RUNNING that has ended
  or was retried meanwhile. These are exactly the runs in which jobs and attempts agree at every moment
  (`Mirrors.BooksKept`).
- `SETTLED_RUN`: fresh ids, no step `Revives`, and none finds an ended session alive (`FoundAlive`):
  reconciliation does not match the recorded process of an ended session whose attempt is closed. What one step
  outside it does is `Events.ToldExactly` and `Events.RepeatsExactly`; over any run, `Events.OneEventExactly`.

The hash is assumed injective where a theorem speaks of the bytes behind it, and only there.

## Where code and documentation differ

- The engine promises deterministic FIFO dispatch (`engine.py:4`), but nothing is held between the turns of a pass:
  when a cancel, a look of the monitor or a reconciliation closes a running attempt after an earlier attempt was
  refused, a later one of the same harness takes the place (`Races.OvertakenAfterCancel`). A later attempt is let
  through exactly when enough places were given back (`Turns.OvertakesExactly`), and only such a call gives one
  back, never the dispatcher's own turns (`Turns.RoomIsGivenBack`, `Turns.NoOvertakingInRun`).
- A cancel between the registration of a session and the dispatcher's next write closes the attempt, and that
  write opens it again (`Findings.CancelledAttemptReopens`). "Terminal is for ever" holds of a step exactly when
  it is not that write (`Closure.ClosedExactly`), and of a run exactly when none of its steps is
  (`Closure.ClosedForever`).
- After such a write a retry of the ended job is accepted while its revived attempt is open, and the job has two
  open attempts (`Races.RetriedWhileOpen`). A step keeps jobs at one open attempt, and ended jobs at none, exactly
  when it is not that write (`Reopening.OpenExactly`), and a run exactly when none of its steps is
  (`Reopening.OpenKept`); an accepted retry opens the only open attempt exactly when all others are closed
  (`Reopening.RetryAloneExactly`).
- A retry accepted while the dispatcher still holds its copy of the job is dropped from the job by the
  dispatcher's last write, and the same idempotency key then opens a second attempt (`Races.RetryLost`). A step
  keeps every list exactly when it is not that write (`Lists.GrowsExactly`); a repeated retry names the first
  attempt exactly as long as the job lists it (`Lists.RetryOncePerKey`).
- A session completed before the dispatcher's last two writes is told a second time after a restart
  (`Races.CompletedToldTwice`): the monitor skips closed attempts, not completed sessions, and what was told is
  kept in memory only. Exactly when a step leaves the state in which every told session is over is
  `Events.ToldExactly`; exactly when a second event goes out is `Events.RepeatsExactly`.
- The monitor counts a zombie as gone, reconciliation counts it as alive. A session can therefore be finalised,
  put back to RUNNING and cancelled, with two terminal events (`Findings.ZombieEndsTwice`); a cancel after
  reconciliation emits for an ended session exactly when its process was found alive
  (`Findings.EmitsAgainExactly`).
- Reconciliation completes an attempt whose process is gone and whose exit code is unknown or 0, without evidence
  (`Races.CompletedUnproved`). A completed attempt is proved exactly when the monitor completed it; any other has no
  exit code and no result (`Unproved.ProvedExactly`), and comes from exactly such a step (`Unproved.UnprovedExactly`).
- An artifact without a path raises in the monitor, outside every handler: the session stays unfinished, and the
  pass does not come to the sessions after it (`Monitoring.MonitorStopsExactly`).
- A crash between the dispatcher's two writes for a failed start leaves a job open over a closed attempt, and
  every retry of it is refused as not terminal (`Findings.CrashStrandsJob`), then and for ever
  (`Openings.StrandedForever`). Without stale writes, job and last attempt disagree exactly for such a job, or
  while its second write is outstanding (`Mirrors.JobMirrorsLast`).
- A start that raises in the gateway, or that is cut short by a crash after the RUNNING record was written,
  leaves that record RUNNING, and its place taken, for ever (`Stranded.CutShortForever`).
- `resolve_repo` can raise inside the dispatcher, where only worktree errors are caught. A claimed attempt keeps
  its claim exactly then, or when its job is gone (`ControlPlane.ClaimKeptExactly`, `ControlPlane.RaisedLeaves`),
  and a pass ends early exactly at the first start that raises (`Dispatching.PassStopsExactly`).
- The comment on cancel (`service.py:1031-1033`) says that the monitor never reclassifies a session marked
  CANCEL_REQUESTED; the monitor does not look at that mark. When it leaves the mark alone is
  `Races.MarkKeptExactly`; a live process in time always loses it (`Races.LiveMarkLost`), as in the run of
  `Races.RequestedCancelForgotten`.
- The default id of a retry is `retry_<n>` in every job, so two jobs share attempt records
  (`Findings.DefaultIdsCollide`), exactly when they have equally many attempts (`Findings.DefaultIdsExactly`). A
  retry adds a record exactly when its id is new to the whole store
  (`Findings.RetryAddsExactly`).
- A rename whose source exists again in the worktree publishes the source instead of removing it
  (`Publish.RenameSourceStays`). When a publication is exact is `Publish.PublishedExactly`; git refuses the
  manifest exactly when a path to be dropped is in the worktree and not yet in the index
  (`Publish.BuildsExactly`). A published link holds `link\0` before its target (`Publish.LinkBlobDiffers`).
- The list of forbidden patterns names `*.log`, `*.pyc`, `*.secret` and two more with a star, but all are compared
  letter by letter (`candidate_service.py:83-85`): no path without a star is refused for one of them
  (`Policy.StarsAreLiteral`), and a log file is published (`Policy.LogFilePublished`).
- The rule that leaves out session logs leaves out nothing that the runtime parts would not
  (`Policy.LogsAreRuntime`, `Policy.SessionLogLeftOut`).
- A file added by a commit, or staged as new, is recorded as a modify (`Manifest.DiffOperations`,
  `Manifest.AddsExactly`).
- Suite ids of reruns that started together are compared as text, so suite 9 outranks suite 10
  (`Checks.NineOutranksTen`). Text and number order agree exactly when the ids are equally long or the shorter is
  at most the leading part of the longer (`Checks.TextOrderExactly`).
- The pattern for identifiers also accepts one final newline, and then even `.` and `..` before it
  (`Findings.IdentExactly`).

## Model

| member | source | states |
|---|---|---|
| GlobalCapacity.GlobalLimit | conduvera/control_plane/engine.py:106-127 | in every state of every run, with any calls between check, claim and writes, RUNNING plus CLAIMED attempts are within the global limit |
| GlobalCapacity.OthersFree | conduvera/control_plane/scheduler.py:311-331 | only the dispatcher's check and claim can take a place; every other step frees places or leaves them |
| GlobalCapacity.ClaimWithin | conduvera/control_plane/scheduler.py:337-369 | the claim uses exactly the place the earlier check reserved |
| Starts.HarnessLimitHolds | conduvera/control_plane/scheduler.py:302-331 | in every state of a run with fresh ids the RUNNING and CLAIMED attempts of each harness are within what is configured for it, or else within 2 for hermes_scoped, codex_cli and hermes and 1 for any other |
| Starts.StartedAtMostOnce | conduvera/control_plane/service.py:687-765 | over crashes, restarts and lease recovery the gateway is asked at most once to start an attempt |
| Starts.PromptIntact | conduvera/control_plane/service.py:700-754 | whatever happens to payload files, each prompt handed out for a job, retries included, is the submitted one |
| Foundation.StepSound | conduvera/control_plane/service.py:622-830 | every step keeps record shape, start history, session owners and the dispatcher's copies, and what was fixed at creation |
| Foundation.LaunchSound | conduvera/control_plane/service.py:706-765 | only a payload with the job's hash reaches the gateway, and only once |
| Foundation.ClosingSound | conduvera/control_plane/service.py:1076-1097 | any call that closes a started attempt keeps these |
| Foundation.SoundRun | conduvera/control_plane/service.py:505-1097 | these hold after every run with fresh ids |
| Shapes.SessionShape | conduvera/control_plane/engine.py:140-276 | every call on a session leaves the queue alone or closes exactly that session's attempt, and keeps session identities |
| Books.StepBalanced | conduvera/control_plane/service.py:622-939 | every step with fresh ids that is no stale write keeps jobs and attempts in agreement, whatever else looks at or closes sessions |
| Books.ClosingBalanced | conduvera/control_plane/engine.py:253-269 | closing an attempt closes its job the same way, or the job stays exempt |
| Books.JobWritten | conduvera/control_plane/service.py:816-818 | the dispatcher's second write restores the agreement |
| Books.WithKeyFinds | conduvera/control_plane/service.py:885-892 | an idempotency key is found exactly when some attempt of the job carries it |
| Books.RetryFacts | conduvera/control_plane/service.py:880-911 | an accepted retry has an ended job, an id new to the job and a key new to it |
| Closure.ClosedExactly | conduvera/control_plane/service.py:811-815 | a step leaves every closed attempt record as it is if and only if it is not the dispatcher's write of an attempt closed meanwhile |
| Closure.ClosedForever | conduvera/control_plane/engine.py:241-276 | along a run with fresh ids every closed attempt record is the same at any later moment if and only if no step of the run revives a closed attempt |
| Mirrors.BooksExactly | conduvera/control_plane/service.py:812-818 | from any state in which jobs and attempts agree, a step keeps the agreement if and only if it is not one of the two stale writes of the dispatcher |
| Mirrors.BooksKept | conduvera/control_plane/service.py:812-818 | along a run with fresh ids they agree at every moment if and only if no step is such a write |
| Mirrors.JobMirrorsLast | conduvera/control_plane/engine.py:253-269 | all attempts of a job but the last are closed; a job that has ended did so as its last attempt did; and job and last attempt agree on being over if and only if no write of the job is outstanding or was lost in a crash |
| Lists.GrowsExactly | conduvera/control_plane/service.py:816-818 | a step keeps terms and attempts of every job, adding at the end only, if and only if it is not the dispatcher writing back a list that has grown since it was read |
| Lists.JobsOnlyGrow | conduvera/control_plane/service.py:913-928 | along a run with fresh ids terms of jobs never change and their attempts only grow at the end, between any two moments, if and only if no step is that write |
| Lists.KeyOncePerList | conduvera/control_plane/service.py:883-892 | in every run with fresh ids no job lists two attempts with the same non-empty idempotency key |
| Lists.KeyOncePerJob | conduvera/control_plane/service.py:883-892 | as long as no list is written back short, no two stored attempts of a job share one, listed or not |
| Openings.StepOrdered | conduvera/control_plane/service.py:622-939 | unless it revives, every step keeps: an open attempt has an open job and is its only open one; a job torn by a crash is stuck (the other half is the next row) |
| Reopening.OpenExactly | conduvera/control_plane/service.py:812-815 | from a state in which no job has two open attempts, nor an open one once it has ended, a step with fresh ids keeps it so if and only if it does not revive a closed attempt |
| Reopening.OpenKept | conduvera/control_plane/service.py:812-815 | along a run with fresh ids it is so at every moment if and only if no step of the run revives a closed attempt |
| Openings.EndedMeansClosed | conduvera/control_plane/engine.py:253-269 | in every run that revives nothing, which are the only ones by Reopening.OpenKept, a job has at most one open attempt, and none once it has ended |
| Openings.RetryAfterAll | conduvera/control_plane/service.py:893-896 | in such a run a retry opens an attempt only when every attempt the job ever had is closed |
| Reopening.RetryAloneExactly | conduvera/control_plane/service.py:893-919 | an accepted retry opens the only open attempt of its job if and only if every other is closed, as it is wherever jobs have at most one open attempt and none once ended |
| Lists.NamesExactly | conduvera/control_plane/service.py:883-892 | a retry with the key of a stored attempt names it exactly when the job lists it; a duplicate changes nothing |
| Lists.RetryOncePerKey | conduvera/control_plane/service.py:869-939 | in every run with fresh ids, after an accepted retry every later one of that job with the same key, at any point and with any id, names the same attempt if and only if the job still lists it, which it does as long as no list is written back short |
| Events.OneEventPerSession | conduvera/control_plane/engine.py:241-276 | over monitor, timeout, cancel, reconcile and crashes at most one terminal event per session, each matching its attempt, in every settled run |
| Events.ToldExactly | conduvera/control_plane/engine.py:155-163 | a step leaves every told session over, and its attempt closed, if and only if it neither revives the attempt of a told session nor finds an ended session alive |
| Events.RepeatsExactly | conduvera/control_plane/engine.py:241-252 | in any state, a second event for a session goes out exactly when the step emits (read off the guards) and that session was told |
| Events.OneEventExactly | conduvera/control_plane/engine.py:241-252 | in any run whatever, no session is told twice if and only if no step emits for a session already told |
| Events.FinalizeTells | conduvera/control_plane/engine.py:241-276 | finalisation emits at most one event, for an open attempt, and ends session and attempt alike |
| Events.ReconcileTells | conduvera/control_plane/service.py:339-441 | reconciliation emits only session.cancelled, and only for a session that had not ended |
| Events.MonitorTells | conduvera/control_plane/engine.py:140-188 | the monitor emits only for a session whose attempt was open |
| Events.CancelTells | conduvera/control_plane/service.py:1014-1074 | a cancel emits only for a session that had not ended |
| EvidenceProof.CompletedIsProved | conduvera/control_plane/engine.py:278-383 | every attempt the monitor completed has exit code 0 and a stored, valid bundle of its own with that code |
| Unproved.ProvedExactly | conduvera/control_plane/service.py:357-404 | in every run with fresh ids a completed attempt is proved by a stored, valid bundle if and only if the monitor completed it; any other has neither exit code nor result |
| Unproved.UnprovedExactly | conduvera/control_plane/service.py:357-404 | a step completes an open attempt without evidence exactly when it is a reconciliation that finds the process of its open session gone, with no exit code or 0 |
| EvidenceProof.GoneProved | conduvera/control_plane/engine.py:336-383 | handling a finished process keeps this, for every source of the exit code |
| EvidenceProof.ExitFromFirstSource | conduvera/control_plane/engine.py:321-330 | the exit code is the first known of adapter, stored attempt, owned scope and fixture file |
| EvidenceProof.WorktreeFileIgnored | conduvera/control_plane/engine.py:306-333 | outside acceptance mode the worktree's fixture file has no effect on the outcome |
| Turns.RoomIsGivenBack | conduvera/control_plane/engine.py:115-127 | in any run: if an attempt was refused for want of capacity and there is room for its harness later, then an attempt that had held its place ever since lost it to a look, a cancel, a reconciliation, a lease recovery or a retry that took over its record, never to the dispatcher's turns |
| Turns.OvertakesExactly | conduvera/control_plane/engine.py:115-127 | in any run: after an earlier refusal, an attempt is let through at its check if and only if the places given back since outnumber those taken up, in all and for the harness, by enough |
| Turns.StillWaiting | conduvera/control_plane/engine.py:115-127 | in any run with fresh ids: why an attempt still waits after its turn, whatever came in between: on hold at its own claim, refused by admission in its own turn, no room now either, or a running attempt was closed after it had been refused |
| Turns.WorkConservingInRun | conduvera/control_plane/engine.py:106-127 | the same for every attempt a pass came to, at the end of the pass, with any calls in between |
| Turns.NoOvertakingInRun | conduvera/control_plane/engine.py:115-127 | with any calls in between: when a later attempt of a pass is let through, an earlier one of its harness that still waits was put off or refused by admission in its turn, or a call closed a running attempt between the two turns |
| Turns.FirstInFirstOutInRun | conduvera/control_plane/engine.py:110-127 | the same by creation time, over any order of the queue file |
| Races.OvertakenAfterCancel | conduvera/control_plane/engine.py:115-127 | a run in which a cancel between two turns lets a later attempt overtake an earlier one that is never held |
| Dispatching.WorkConserving | conduvera/control_plane/engine.py:106-127 | with nothing in between: an attempt that had its turn and still waits is on hold, was refused by admission in this very turn, or is refused by the final state too |
| Dispatching.NoOvertaking | conduvera/control_plane/engine.py:115-127 | with nothing in between: when a later attempt of a harness was taken, no earlier one of it waits for capacity: it was on hold before the pass or refused by admission in it |
| Dispatching.FirstInFirstOut | conduvera/control_plane/engine.py:110-114 | the same by creation time, over any order of the queue file, with nothing in between |
| Dispatching.PassFills | conduvera/control_plane/engine.py:106-127 | no turn of a pass by itself gives a place back that was taken before it |
| Dispatching.OneTurn | conduvera/control_plane/service.py:622-830 | one iteration concerns one attempt, and leaves it running, failed, claimed or refused by admission just now, unless capacity refused it |
| Dispatching.InOrderAre | conduvera/control_plane/engine.py:110-114 | a pass visits exactly the queued attempts, each once, by creation time |
| Dispatching.PassIsRun | conduvera/control_plane/engine.py:106-127 | a pass is a run of the dispatcher's steps |
| Dispatching.PassStopsExactly | conduvera/control_plane/engine.py:115-127 | an attempt has its turn exactly when no start before it raised, and the pass leaves what those turns made of the store |
| ControlPlane.ClaimKeptExactly | conduvera/control_plane/service.py:622-661 | a claimed attempt is still CLAIMED after its turn exactly when its job is gone, or it was not held and the repository could not be resolved |
| ControlPlane.RaisedLeaves | conduvera/control_plane/service.py:661-765 | what the two unhandled errors leave behind |
| ControlPlane.DispatchOnceIsRun | conduvera/control_plane/engine.py:106-127 | lease recovery and the pass together are a run |
| Monitoring.MonitorAllIsRun | conduvera/control_plane/engine.py:140-188 | the monitor's pass is a run of its looks, up to the one that raises |
| Monitoring.MonitorStopsExactly | conduvera/control_plane/engine.py:140-188 | the pass comes to a session exactly when no look before it came to an artifact without a path |
| ControlPlane.ReconcileAllIsRun | conduvera/control_plane/service.py:339-441 | the reconciliation pass is a run of its looks |
| Reconciliation.SecondPassIsIdle | conduvera/control_plane/service.py:339-441 | with observations held fixed a second pass changes only end times of mismatched sessions and emits nothing |
| Reconciliation.OneLook | conduvera/control_plane/service.py:349-440 | one look at a session concerns no other, makes its label agree with what is seen and keeps a requested cancel of a live process |
| Looks.ReconcileLook | conduvera/control_plane/service.py:349-440 | over recorded fingerprint and process found: pid, start time and boot id all equal leaves the session RUNNING or CANCEL_REQUESTED, any other process makes it LOST and touches nothing else, no process ends it as a requested cancel or by its exit code |
| Looks.ReconcileEnds | conduvera/control_plane/service.py:361-404 | when the process is gone, attempt and job end as the session does |
| Looks.StatusLook | conduvera/control_plane/service.py:983-1012 | a status query writes only COMPLETED to an open session without a process and LOST where the pid is another process |
| Looks.Untouched | conduvera/control_plane/service.py:349-358 | external sessions and those without a recorded process are touched by neither |
| Looks.ExternalLook | conduvera/control_plane/service.py:941-981 | an external session is registered as running, unmanaged, for no attempt |
| Reconciliation.OneAgain | conduvera/control_plane/service.py:428-431 | looking again where the label agrees changes at most an end time |
| Reconciliation.CancelSurvivesPass | conduvera/control_plane/service.py:405-411 | a pass never takes CANCEL_REQUESTED to RUNNING and never touches an external session |
| Findings.CancelledAttemptReopens | conduvera/control_plane/service.py:811-815 | a run with fresh ids in which a closed attempt is open again |
| Findings.ZombieEndsTwice | conduvera/control_plane/engine.py:222-237 | a run, free of stale writes, in which one session has two terminal events |
| Findings.EmitsAgainExactly | conduvera/control_plane/service.py:404-416 | a cancel after reconciliation emits for an ended session if and only if its process was found alive |
| Findings.CrashStrandsJob | conduvera/control_plane/service.py:673-680 | a run in which a crash leaves a job open over a closed attempt and every retry is refused |
| Races.RetryLost | conduvera/control_plane/service.py:816-818 | a run in which an accepted retry is dropped from its job and its key is accepted again |
| Races.CompletedToldTwice | conduvera/control_plane/engine.py:241-252 | a run in which a completed session is told twice, over a revival and a restart |
| Races.RetriedWhileOpen | conduvera/control_plane/service.py:812-815 | a run in which a retry is accepted over a revived open attempt |
| Races.CompletedUnproved | conduvera/control_plane/service.py:357-404 | a run that completes an attempt without exit code, result or evidence |
| Races.MarkKeptExactly | conduvera/control_plane/engine.py:140-188 | a look of the monitor leaves the mark of a requested cancel exactly when one of its skip guards holds, the session was told before, or the look raises |
| Races.LiveMarkLost | conduvera/control_plane/engine.py:170-187 | of a live process not past start plus timeout the mark is always taken off, and nothing else changes |
| Looks.TimesOutExactly | conduvera/control_plane/engine.py:165-187 | a look at a live process of a watched session emits session.timed_out if and only if there is a timeout and a start time, now is past their sum and the session was not told before; attempt and job then time out; in time the session is RUNNING and nothing else changes |
| Looks.UnwatchedLook | conduvera/control_plane/engine.py:145-163 | a session that is external, over, or has no process is neither timed out nor put to RUNNING |
| Looks.EndedSessionLook | conduvera/control_plane/engine.py:155-163 | a cancelled, failed or lost session takes a still open attempt and its job with it, the same way, and nothing is emitted |
| Looks.CopiedOutcome | conduvera/control_plane/engine.py:190-220 | which outcome an ended session stands for |
| Looks.GoneEnds | conduvera/control_plane/engine.py:278-383 | without its process a session is COMPLETED with attempt and job exactly when the bundle was written, bears no invalid mark, has exit code 0 and only non-empty paths; else FAILED |
| Looks.RefsAre | conduvera/control_plane/engine.py:288-292 | one reference for each artifact with a non-empty path |
| Looks.BundleNamed | conduvera/control_plane/evidence_store.py:92-96 | a bundle is named after job, attempt and the last eight characters of the session |
| Looks.SettleExactly | conduvera/control_plane/service.py:1076-1097 | what closing an attempt writes to it and to its job, and what stays |
| Races.TimedOutAfterDeadline | conduvera/control_plane/engine.py:170-182 | a run in which a session with a timeout of 3600 is left alone in time and timed out after |
| Races.RequestedCancelForgotten | conduvera/control_plane/service.py:1031-1036 | a run in which a requested cancel is forgotten |
| Openings.StrandedForever | conduvera/control_plane/service.py:893-896 | a job torn by a crash stays as it is in every run with fresh ids after, and no retry of it opens an attempt |
| Stranded.StepStuck | conduvera/control_plane/service.py:1076-1097 | no step ends such a job: its attempts are closed and nothing reopens or closes them |
| Stranded.OrphanedForever | conduvera/control_plane/service.py:687-765 | an attempt that is RUNNING without a session and out of the hands of the dispatcher keeps its record for ever |
| Stranded.CutShortForever | conduvera/control_plane/service.py:687-765 | a start that raised, or was cut short by a crash, leaves such an attempt, and its place is taken for ever |
| Findings.RetryAddsExactly | conduvera/control_plane/service.py:906-919 | an accepted retry keeps all other records, and adds one to the store if and only if its id is new to it |
| Findings.DefaultIdsCollide | conduvera/control_plane/service.py:906-911 | two ended jobs with equally many attempts get the same default id, and one takes over the other's record |
| Findings.DefaultIdsExactly | conduvera/control_plane/service.py:906-911 | two jobs get the same default id for a retry if and only if they have equally many attempts |
| Findings.IdentExactly | conduvera/control_plane/service.py:1328-1350 | the identifiers accepted are the plain ones other than . and .., and any plain one followed by one newline |
| Findings.IdentCharIs | conduvera/control_plane/service.py:1328-1350 | which characters an identifier may have, by code point |
| Service.LoadPayload | conduvera/control_plane/payload.py:177-195 | a loaded payload hashes to the hash it carries |
| Stores.PutThenGet | conduvera/control_plane/payload.py:149-195 | what was put is what is read back |
| Stores.Scheduler.RunningCounts | conduvera/control_plane/scheduler.py:311-322 | the counters are the numbers of RUNNING and CLAIMED attempts, in all and per harness |
| Stores.Scheduler.MayStart | conduvera/control_plane/scheduler.py:302-331 | a start is allowed exactly when the RUNNING and CLAIMED attempts are fewer than the global limit, and those of the harness fewer than what is configured for it, or else than its built-in limit |
| Scheduling.LimitIs | conduvera/control_plane/scheduler.py:302-308 | a configured limit comes before the built-in one, and that before one |
| Stores.Scheduler.Claim | conduvera/control_plane/scheduler.py:337-369 | a claim succeeds exactly on a queued attempt that is not on hold, and takes it |
| Stores.Scheduler.ReleaseClaim | conduvera/control_plane/scheduler.py:371-385 | a claimed attempt goes back to the queue, any other stays |
| Stores.Scheduler.RecoverExpiredClaims | conduvera/control_plane/scheduler.py:387-408 | exactly the claims whose lease ran out go back, and are reported |
| Stores.PayloadStore.Get | conduvera/control_plane/payload.py:177-195 | missing, corrupt and altered files fail, others are read |
| Stores.HashArtifacts | conduvera/control_plane/evidence_store.py:83-90 | one entry per artifact, in order, see the next row; an artifact without a path raises |
| Stores.HashedInOrder | conduvera/control_plane/evidence_store.py:83-90 | each entry has the hash of the file read, or the zero hash |
| Stores.Validate | conduvera/control_plane/evidence_store.py:112-128 | a bundle is valid exactly with schema, without marker, with exit code and with path and hash for every artifact |
| ControlPlane.Plane.Submit | conduvera/control_plane/service.py:505-620 | payload, job and attempt are written, or nothing, with the reply the specification gives |
| Service.AcceptedExactly | conduvera/control_plane/service.py:538-564 | a submission is accepted exactly with known harness, new attempt id, allowed repository and safe identifiers; else the first that fails is the reason |
| Service.SubmitWrites | conduvera/control_plane/service.py:565-620 | an accepted submission writes the prompt with its hash, a job that carries the hash, and one waiting attempt; nothing else |
| ControlPlane.Plane.FindKey | conduvera/control_plane/service.py:885-892 | the first attempt with the key |
| ControlPlane.Plane.Retry | conduvera/control_plane/service.py:869-939 | a new attempt of the same job, or nothing |
| Service.RetryWrites | conduvera/control_plane/service.py:912-939 | an accepted retry writes one waiting attempt on the same terms; the job keeps its earlier attempts and result references |
| ControlPlane.Plane.DispatchClaimed | conduvera/control_plane/service.py:622-830 | the start of a claimed attempt is its micro-steps run to the end, and it raises exactly on the two unhandled errors |
| ControlPlane.Plane.Start | conduvera/control_plane/service.py:706-830 | the same from the persisted RUNNING state on |
| ControlPlane.Plane.Enrol | conduvera/control_plane/service.py:784-818 | the session is registered and attempt and job are bound to it |
| ControlPlane.Plane.TakeTurn | conduvera/control_plane/engine.py:115-127 | one iteration of the pass |
| ControlPlane.Plane.DispatchOnce | conduvera/control_plane/engine.py:106-127 | lease recovery, then the pass over the queue in order of creation |
| ControlPlane.Plane.CloseAttempt | conduvera/control_plane/service.py:1076-1097 | an open attempt is closed with its job, a closed one is left alone |
| ControlPlane.Plane.FinalizeSession | conduvera/control_plane/engine.py:241-276 | session, attempt and job end and one event goes out, at most once |
| ControlPlane.Plane.FindExit | conduvera/control_plane/engine.py:278-333 | the recovered exit code |
| ControlPlane.Plane.ProcessGone | conduvera/control_plane/engine.py:278-383 | evidence is stored and judged, then the session finalised; nothing is written when an artifact has no path, which raises |
| ControlPlane.Plane.MonitorSession | conduvera/control_plane/engine.py:140-220 | one look of the monitor |
| ControlPlane.Plane.MonitorOnce | conduvera/control_plane/engine.py:140-188 | the monitor's pass over the sessions, up to the first look that raises |
| ControlPlane.Plane.FinishCancel | conduvera/control_plane/service.py:1043-1052 | a cancelled session takes its attempt and job with it and emits once |
| ControlPlane.Plane.Cancel | conduvera/control_plane/service.py:1014-1074 | the marker is written first and taken back when no kill worked |
| ControlPlane.Plane.ReconcileSession | conduvera/control_plane/service.py:349-440 | reconciliation of one session |
| ControlPlane.Plane.Reconcile | conduvera/control_plane/service.py:339-441 | the pass over all sessions |
| Checks.RequiredStatusChecks | conduvera/control_plane/github_provider.py:495-516 | the requirement list of a protection response |
| Checks.ContextNeedsAre | conduvera/control_plane/github_provider.py:499-500 | each context is required of anyone |
| Checks.CheckNeedsAre | conduvera/control_plane/github_provider.py:501-515 | each check is required of its app, -1 meaning any app |
| Checks.ListChecks | conduvera/control_plane/github_provider.py:233-313 | every row is marked required or not and carries the unmet needs; without rows a pending placeholder stands in |
| Checks.UnmetEmpty | conduvera/control_plane/github_provider.py:281-290 | nothing is missing exactly when every need is met by some row |
| Checks.MeetsByKey | conduvera/control_plane/github_provider.py:246-277 | the needs a row meets depend only on its lower-cased name and app id |
| Checks.LatestIsFirstBest | conduvera/control_plane/delivery_service.py:1157-1181 | the reduction keeps per key the first row maximal under unfinished, start time, suite |
| Checks.EffectiveInWords | conduvera/control_plane/delivery_service.py:1157-1181 | a run that is not completed is never masked by one that is; else none started later than the one kept, nor with it in a later suite |
| Checks.FirstBestUnique | conduvera/control_plane/delivery_service.py:1157-1181 | there is only one such row |
| Checks.LatestOrderFree | conduvera/control_plane/delivery_service.py:1157-1181 | when ranks differ the order of rows does not matter |
| Checks.TextOrderExactly | conduvera/control_plane/delivery_service.py:1176-1180 | two suite numbers compare as text as they do as numbers exactly when they are equally long or the shorter is at most the leading part of the longer |
| Checks.NineOutranksTen | conduvera/control_plane/delivery_service.py:1176-1180 | of two reruns started together, in either order, suite 9 is taken for the later than suite 10 |
| Delivery.EffectiveRuns | conduvera/control_plane/delivery_service.py:1164-1181 | the loop computes that reduction |
| Delivery.CountRuns | conduvera/control_plane/delivery_service.py:1182-1204 | the counters are the numbers of effective rows, all and required, that GitHub calls completed with a good conclusion, or with one of the six bad ones |
| Delivery.CountsAre | conduvera/control_plane/delivery_service.py:1182-1204 | all eight counters in GitHub's words: good, bad, awaited, and none of these |
| Delivery.ClassIs | conduvera/control_plane/delivery_service.py:1188-1204 | a row is a success, a failure, awaited or none of these by its status and conclusion, and by nothing else |
| Delivery.StatusRowIs | conduvera/control_plane/github_provider.py:398-420 | a commit status succeeds exactly on success, neutral and skipped, is broken exactly on failure and error, and never awaited |
| Delivery.PlaceholderCounts | conduvera/control_plane/github_provider.py:291-312 | without any row an unmet policy counts as one required check awaited, an unknown one as one optional check awaited, and no needs as nothing |
| Delivery.PlaceholderRow | conduvera/control_plane/github_provider.py:291-312 | the one queued row that stands in when nothing ran |
| Delivery.CountsCover | conduvera/control_plane/delivery_service.py:1182-1204 | the counts sum to the number of keys, and of required keys |
| Delivery.StandingIsInForce | conduvera/control_plane/delivery_service.py:1242-1252 | per author the last row of greatest time among the five decisions is kept |
| Delivery.LaterReview | conduvera/control_plane/delivery_service.py:1242-1252 | after a request for changes a later review takes it back exactly when it is an approval, a comment, a dismissal or pending |
| Delivery.StandingOrderFree | conduvera/control_plane/delivery_service.py:1242-1252 | when times differ the order of reviews does not matter |
| Delivery.EffectiveReviews | conduvera/control_plane/delivery_service.py:1242-1252 | the loop computes that reduction |
| Readiness.ReadyExactly | conduvera/control_plane/delivery_service.py:1336-1391 | MERGE_READY if and only if both sources answered, the pull request is open, mergeable and CLEAN, something is required, each need is matched by a key, the effective run of every matching key is completed with success, neutral or skipped, no effective run is completed with one of the six failing conclusions, and nobody objects |
| Readiness.FailedExactly | conduvera/control_plane/delivery_service.py:1336-1360 | CI_FAILED, when both sources answered, if and only if the pull request is open, without conflict and not behind, nobody objects, and some effective run, required or not, is completed with a failing conclusion |
| Readiness.StatesExactly | conduvera/control_plane/delivery_service.py:1336-1391 | each of the nine derived states if and only if its own condition on pull request, reviews, counters and availability holds |
| Readiness.FailedCheckFails | conduvera/control_plane/delivery_service.py:1182-1204 | a failed required check on an open, clean pull request is CI_FAILED |
| Readiness.SkippedCheckPasses | conduvera/control_plane/delivery_service.py:1182-1204 | a skipped optional check beside a successful required one is MERGE_READY |
| Readiness.NothingRan | conduvera/control_plane/github_provider.py:291-312 | a clean pull request without any row is PR_OPEN if nothing is required, and CI_PENDING if something is or the policy is unknown |
| Readiness.GreenExactly | conduvera/control_plane/delivery_service.py:1151-1236 | the summary is green exactly when the rows satisfy the policy |
| Readiness.ObjectionsExactly | conduvera/control_plane/delivery_service.py:1238-1256 | the count of requested changes is zero exactly when no decision in force asks for them |
| Readiness.MetaExactly | conduvera/control_plane/delivery_service.py:1336-1386 | the merge metadata decide no other state exactly when open, mergeable and CLEAN |
| Readiness.StoredIsLast | conduvera/control_plane/delivery_service.py:1106-1119 | over any run of refreshes the stored summaries are those of the last successful fetch, or of nothing |
| Readiness.OutageNeverReady | conduvera/control_plane/delivery_service.py:1362-1365 | a refresh with a failed source never shows PR_OPEN or MERGE_READY |
| Readiness.FailureSurvives | conduvera/control_plane/delivery_service.py:1103-1109 | a recorded failure survives any number of outages |
| Readiness.TerminalSurvives | conduvera/control_plane/delivery_service.py:1036-1047 | MERGED and PR_CLOSED survive any number of metadata failures |
| Readiness.Record.Summaries | conduvera/control_plane/delivery_service.py:1089-1119 | fetched and reduced summaries, or the stored ones |
| Readiness.Record.Sync | conduvera/control_plane/delivery_service.py:1028-1062 | one synchronisation |
| Readiness.Record.CheckDetails | conduvera/control_plane/delivery_service.py:1271-1319 | opening the details refreshes the record the same way and reports availability |
| NameStatus.ParseDiff | conduvera/control_plane/candidate_service.py:128-158 | the token loop computes the reader function and ends |
| NameStatus.TokenRead | conduvera/control_plane/candidate_service.py:128-158 | a token is a status exactly when it is one of seven letters with up to three characters after it; which word each stands for |
| NameStatus.PrintThenParse | conduvera/control_plane/candidate_service.py:128-158 | printing any list of changes and parsing gives the last change of each new path, whatever the paths look like |
| NameStatus.LastWinsIs | conduvera/control_plane/candidate_service.py:145-156 | that map holds for each path its last change |
| Manifest.DiffOperations | conduvera/control_plane/candidate_service.py:191-208 | the operation recorded for a committed change |
| Manifest.AddsExactly | conduvera/control_plane/candidate_service.py:161-208 | an uncommitted change is an add if and only if it is untracked, or has an A in second place and no R, C, T or D in first; a D makes it a delete unless R, C or T comes first |
| Manifest.OperationExactly | conduvera/control_plane/candidate_service.py:191-208 | each of the six operations if and only if its own condition on status word and letters holds |
| Manifest.StatusWordIs | conduvera/control_plane/candidate_service.py:161-170 | each of the four status words by its letters |
| Manifest.BuildCandidate | conduvera/control_plane/candidate_service.py:242-310 | the sweep over the sorted inventory |
| Policy.DecisionExactly | conduvera/control_plane/candidate_service.py:366-397 | a path is left out exactly when its lower-cased text contains a runtime part, refused exactly when it contains a forbidden part and no runtime part, and published otherwise |
| Policy.RefusedExactly | conduvera/control_plane/candidate_service.py:242-310 | a candidate is refused if and only if some changed path contains a forbidden part and no runtime part; it is built if and only if there is none and some path contains neither |
| Policy.PublishedPaths | conduvera/control_plane/candidate_service.py:255-297 | a built candidate publishes exactly the changed paths without any listed part, each once, and excludes exactly those with a runtime part |
| Policy.ShortPath | conduvera/control_plane/candidate_service.py:393-397 | a path of up to three letters is published |
| Policy.SecretRefused | conduvera/control_plane/candidate_service.py:390-392 | .env is refused |
| Policy.SessionLogLeftOut | conduvera/control_plane/candidate_service.py:380-389 | what starts like a session log is left out |
| Policy.LogsAreRuntime | conduvera/control_plane/candidate_service.py:380-389 | the rule for session logs leaves out nothing the runtime parts would not |
| Policy.StarsAreLiteral | conduvera/control_plane/candidate_service.py:65-85 | no path without a star is refused for a pattern with one |
| Policy.LogFilePublished | conduvera/control_plane/candidate_service.py:65-85 | a log file is published |
| Manifest.BuiltExactly | conduvera/control_plane/candidate_service.py:255-310 | a candidate is built if and only if nothing is denied and something is allowed, where Policy.DecisionExactly says which paths are |
| Manifest.BuiltHolds | conduvera/control_plane/candidate_service.py:266-297 | it has one entry per allowed path, frozen from the worktree, and lists the excluded paths |
| Manifest.EntrySays | conduvera/control_plane/candidate_service.py:172-297 | operation, source, mode and hash of each entry: the bytes of the file or the target of the link; the mode on record, or else of the file or of what the link leads to |
| Manifest.HashCanonical | conduvera/control_plane/candidate_service.py:210-218 | with distinct paths two manifests hash alike if and only if they hold the same operations and exclusions |
| Publish.CheckStale | conduvera/control_plane/candidate_service.py:419-471 | the first reason why the manifest is stale |
| Publish.AllIntact | conduvera/control_plane/candidate_service.py:431-457 | no file is a reason exactly when every entry still describes the worktree |
| Publish.IntactExactly | conduvera/control_plane/candidate_service.py:431-457 | when an entry still describes the worktree, for deletions, links and files |
| Publish.CommitCandidate | conduvera/control_plane/candidate_service.py:474-536 | the loop over the temporary index |
| Publish.Apply | conduvera/control_plane/candidate_service.py:498-531 | one manifest entry applied to the index |
| Publish.BuildsReal | conduvera/control_plane/candidate_service.py:492-532 | what the index holds after any part of the manifest, in closed form |
| Publish.BuildsExactly | conduvera/control_plane/candidate_service.py:524-532 | git refuses a fresh manifest of regular files exactly when a dropped path is in the worktree, not in base and not written before |
| Publish.PublishedExactly | conduvera/control_plane/candidate_service.py:474-536 | an approved, fresh manifest of regular files with distinct paths yields base without the dropped and with the written paths if and only if each dropped path is gone from the worktree or written too, base has it or an earlier entry wrote it, and what an earlier entry wrote is what the worktree holds |
| Publish.PublishedWhenGone | conduvera/control_plane/candidate_service.py:474-536 | in particular when deleted paths and rename sources are gone |
| Publish.OnlyApprovedAndFresh | conduvera/control_plane/candidate_service.py:478-483 | nothing is published without approval or from a stale manifest |
| Publish.ExpectedHolds | conduvera/control_plane/candidate_service.py:474-536 | a written path holds the bytes hashed at build time; a path the manifest does not name is as in base |
| Publish.ExpectedOrderFree | conduvera/control_plane/candidate_service.py:492-532 | the order of the manifest does not matter |
| Publish.BuiltThenPublished | conduvera/control_plane/candidate_service.py:242-536 | what an allowed path held when the candidate was built is what its publication holds |
| Publish.RenameSourceStays | conduvera/control_plane/candidate_service.py:524-527 | a rename whose source exists again is not published exactly |
| Publish.LinkBlobDiffers | conduvera/control_plane/candidate_service.py:510-521 | a published link's blob is not the worktree's |
| EventStream.EventStreamBus.Publish | conduvera/control_plane/event_stream.py:28-40 | the event gets the next number and the bus keeps the last of the log |
| EventStream.EventStreamBus.EventsSince | conduvera/control_plane/event_stream.py:46-49 | the kept events newer than an id |
| EventStream.EventStreamBus.SendNewer | conduvera/control_plane/http_bridge.py:89-94 | one turn of the streaming loop |
| EventStream.ReceivesAllExactly | conduvera/control_plane/http_bridge.py:86-99 | a client has received exactly the later events, each once and in order, if and only if it was never more than the buffer behind at a poll |
| EventStream.IdsIncrease | conduvera/control_plane/http_bridge.py:86-99 | any client gets events of the log with strictly increasing ids |
| EventStream.PollIs | conduvera/control_plane/event_stream.py:46-60 | one poll delivers the stretch of the log from the last id, or from the oldest kept event |

## Left out

- Subprocesses, systemd, tmux, git, sockets, HTTP framing, file locks and permissions: answers of the
  surroundings are arguments.
- `advance`, `retain`, `expire_retention` and the retained states: unguarded and called by no modelled loop.
- Fields that no decision reads: worktree bindings, source snapshots, `updated_at`, redaction, outbox text, reply
  messages; the outbox also gets non-terminal events, which the log does not record. The `session.failed` events
  of a start that failed before any session existed carry no session id and are not in the log either.
- The bundle id is a structured value; that the file name made from it is unambiguous is assumed.
- An exception for an unsafe identifier inside a retry is a refusal here; both change nothing.
- Payload files are found by payload id; the characters dropped when the file name is made are not modelled.
- Claims whose timestamp does not parse: time is an integer.
- The engine's stop flag, which can end a pass early.
- Sessions of an unpublished delivery, schema errors of provider rows (a failed source here), display fields of the
  summaries, the order in which missing requirements are listed, summaries stored by earlier versions.
- Letters outside ASCII are not case-folded.
- Manifest entries: sizes, blob ids, binary flags, the canonical patch, evidence hashes; reasons of exclusions.
- Publish.PublishedExactly: copies and links are not covered, because the code removes a copy's source and
  prefixes a link's target; a directory is part of the worktree only as what a link leads to.
- How the lines of a status listing and the modes of an index are read: inventory and recorded modes are arguments.
- Completeness of the inventory: a status entry replaces a committed rename of the same path and loses its source.
- The streaming loop's heartbeat, its waiting and its end; the wait's own result is discarded by the code.
- Parsing of a client's starting id; ids of an earlier bus lifetime.
