# PyPNM-CMTS coordination and refresh, in Dafny

This project models the parts of PyPNM-CMTS whose correctness is a matter of whole runs, and proves what holds
over every run.

**Leases and leader election.** Any number of processes share a state directory. Each service group, and the leader
role, has one JSON record with a TTL, changed under a lock directory that may be broken once it is older than twice
the TTL.

- `Records` has the record file and the decision an operation makes on what it reads. Leases and the leader election
  share it; the election only adds a validator of ids. `Basics` has the types all modules share.
- `Failures` has an operation some of whose system calls fail, and which failures do harm.
- `FileLease` is the class that runs an operation on the files, and is proved to do exactly `Failures.RunFailing`, which
  without failures is `Records.RunOp`.
- `Protocol` is the step machine of many processes. A step is one `mkdir`, one `rmdir`, one read, one clock reading,
  one write, the return to the manager, the failure of one of these calls, a crash, a restart, or time passing. A
  manager's local state is the groups it holds, each with the expiry the last successful operation returned. It may
  start any operation its class may start, in any order, so runs of the machine include every interleaving of ticks;
  `TickRuns` proves that a tick and a round of ticks are runs of it.
- `LeaseInvariant`, `LeaseLocks` and `LeaseSafety` prove safety and recovery, `LeaseBreaks` says exactly what breaking a
  stale lock asks for, and `LeaseFaults` exactly which identities and which failures safety does not survive.
- `FailingRuns` proves that an operation with any of its calls failing is a run of the machine.
- `LeaderIds` is how the launcher builds leader ids.

The safety theorems carry the premises the code needs, and each of the last three is shown to be needed:

- All processes read one clock that does not go back. Nothing is assumed about how long anybody takes.
- Owner ids are distinct (`Protocol.AllDistinct`). Processes that share one, as two on one host do when the id falls
  back to the host name, both hold a group (`LeaseFaults.SharedOwner`).
- Reads, and the replace of a lease, do not fail (`LeaseInvariant.Trusted`). Every other call may fail at any time: the
  lock calls, the exclusive create, the unlink, the final unlock, and the election's replace, which raises. A failed
  read makes a live record look like none (`LeaseFaults.FailedRead`), and a lease swallows a failed replace and reports
  success (`LeaseFaults.SwallowedReplace`).
- A stale lock is broken only while nobody is inside (`Protocol.Clean`). The test, the `rmdir` and the `mkdir` are
  separate calls in the code and separate steps here, and the code sees to this in no way. Two things can go wrong. Two
  processes break one stale lock, the second removing what the first has just made (`LeaseBreaks.UncleanBreak`). Or the
  process whose directory is removed is alive and has been inside for more than twice the breaker's TTL
  (`LeaseBreaks.Overstay`). These are all: when breaks remove the very directory whose age was tested
  (`Protocol.Tested`) and no critical section lasts longer than twice the least TTL, every break is clean
  (`LeaseBreaks.PromptIsClean`), and that bound is exact (`LeaseBreaks.ExclusiveExactly`,
  `LeaseBreaks.SafelyHeldExactly`).

Exclusion of the critical sections needs only the first and the last of these (`LeaseLocks.RunLocks`, `LeaseSafety.LockIsExclusive`).

**Ticks and coverage.** `Ordering` has the candidate orders, `TickSteps` the specification of one tick for any lease
service, `TickRaises` what an exception half way through leaves, `CoordinationManager` the class with the loops of the
tick, `Coverage` rounds of ticks by several managers over the record files, `TickRuns` the same as runs of the step
machine, and `ShardPlanner` the number of workers.

**Service-group refresh cache.** `SgwCache` says what a refresh cycle does to one group, `SgwManager` is the class with
the dictionaries and the loop over the groups, `SgwRuns` has runs of cycles, requests, counter resets, changes of the
group list and restarts of the manager over its store, and the invariant they keep, and `SgwSafety` the results.
`SgwContents` says what the cache holds after any run, and what its cycles decide and list. `SgwTurns` takes one
group's turn apart, with requests accepted while it is under way. Pollers return any value or raise any message.

**Restart governor, lane machine, listing.** `WorkerGuard` and `WorkerGuardRuns` have the governor with its pruned deque
and its whole history. `ServingGroupWorker` has the two asynchronous refresh lanes under any interleaving of their
calls, cancelled ones included. `OidIndex` and `ServiceGroupListing` have the index parsers and the join of the two
walked columns.

`Positions` says at which positions of a list a property holds. Time is a real number throughout.

What does not hold is part of the results, each with the exact condition under which it does hold:

- Two or more processes never both hold a group, over all clean runs, if and only if their owner ids are distinct and
  reads, and a lease's replaces, cannot fail (`LeaseFaults.SafeExactly`).
- A stale-lock break keeps the invariant if and only if nobody is inside the critical section whose lock it removes; a
  run keeps the invariant throughout if and only if all its breaks are like that (`LeaseBreaks.BreakKeepsExactly`,
  `LeaseBreaks.CleanExactly`).
- Over runs whose breaks remove what was tested and whose critical sections last at most some limit, two processes are
  never inside together, and never hold one group, if and only if the limit is at most twice the least TTL
  (`LeaseBreaks.ExclusiveExactly`, `LeaseBreaks.SafelyHeldExactly`).
- One uncontended round of ticks covers all groups if and only if the managers' targets add up to at least their number
  (`Coverage.RoundCoversExactly`).
- Successful heavy refreshes of a group keep their distance over all runs if and only if runs are left out in which a
  heavy request is accepted while a cycle is under way and not yet done with the group (`SgwTurns.SpacedOverExactly`):
  such a request is judged by the refresh before. Between cycles, the next turn keeps the distance if and only if no heavy request is pending or the
  last heavy refresh is a heavy interval ago (`SgwTurns.NextTurnIsSpacedExactly`).
- Distinct owner ids can give two controllers the same leader id (`LeaderIds.DistinctOwnersCollide`); they do exactly
  when the ids agree up to a role prefix (`LeaderIds.SameLeaderIdExactly`).
- A cache entry can go stale although every poll succeeds, exactly when the age limit does not cover the light interval
  plus the largest jitter (`SgwSafety.StaleExactly`). The settings validation asks only that it cover the light interval.
- The configured interval between restarts is kept over every run exactly when it fits in the window
  (`WorkerGuardRuns.IntervalKeptExactly`): a restart that has left the deque no longer holds the next one back.
- The planned workers' targets add up to the groups, and a round of theirs covers a plan without duplicates, if and only
  if there are no groups, or the requested target is positive and times the cap, if there is one, at least the number of
  groups, or a controller stands in for a requested 0 (`ShardPlanner.PlannedSuffices`,
  `ShardPlanner.PlannedWorkersCover`).
- A lane of the lane machine shows itself running without a call in flight exactly when its last call was cancelled
  (`ServingGroupWorker.RunningIsInFlight`).
- A restart of the refresh manager loses accepted requests (`SgwSafety.RestartForgetsRequests`); between restarts none is
  lost.
- Of the two index parsers only one undoes the encoding of an empty node name (`OidIndex.RoundTrip`,
  `OidIndex.ParsersDiffer`).
- The sequence diagram in docs/coordination/index.md has an owner that acquires again write a renewed record. The code
  leaves the record alone and returns its old expiry (`Records.ReacquireKeepsExpiry`). This is why a manager's belief
  carries the returned expiry.

## Model

| member | source | states |
|---|---|---|
| FileLease.FileLease.AcquireLock | src/pypnm_cmts/coordination/service_group_lease.py:378-407 | the lock is taken when there is none or it is older than twice the TTL; with any of mkdir, stat, rmdir and the second mkdir failing, the lock, the answer and the exception are those of the code |
| FileLease.FileLease.WriteAtomic | src/pypnm_cmts/coordination/service_group_lease.py:342-363 | an exclusive create succeeds exactly on a missing file and touches no other; a failed open raises, a failed write removes the file again |
| FileLease.FileLease.WriteReplace | src/pypnm_cmts/coordination/service_group_lease.py:365-373 | the file holds the record and the temporary twin is used up; a failure leaves the record unwritten and is swallowed by a lease and raised by the election |
| FileLease.FileLease.TryAcquire | src/pypnm_cmts/coordination/service_group_lease.py:88-153 | the files and the answer are those of the acquire decision, whichever system calls fail |
| FileLease.FileLease.Renew | src/pypnm_cmts/coordination/service_group_lease.py:155-219 | the files and the answer are those of the renew decision, whichever system calls fail |
| FileLease.FileLease.Release | src/pypnm_cmts/coordination/service_group_lease.py:221-264 | the files and the answer are those of the release decision, the failed unlink included, whatever the time |
| Failures.NothingFails | src/pypnm_cmts/coordination/service_group_lease.py:88-264 | when no call fails an operation is the plain one |
| Failures.OtherFailuresAreHarmless | src/pypnm_cmts/coordination/service_group_lease.py:298-407 | without a failed read, or a lease's failed replace, whatever else fails, every answer is borne out by the file and nobody else's live record is touched |
| Failures.AnswersAreTrue | src/pypnm_cmts/coordination/leader_election.py:60-264 | whichever calls fail: who is shown as owner is, with the record's times; busy, release-failed and not-held are answered exactly when they are so, unless the read failed |
| Failures.RaisesExactly | src/pypnm_cmts/coordination/service_group_lease.py:298-407 | an operation raises if and only if the second mkdir does, or, where there is something to write, the open of the exclusive create or the election's replace |
| Failures.HarmfulExactly | src/pypnm_cmts/coordination/service_group_lease.py:298-373 | a single failing call does harm if and only if it is the read, or for a lease one of the two calls of the replace |
| Failures.LeaderTurnSucceeds | src/pypnm_cmts/coordination/manager.py:115-120 | when no call fails a leader turn is the plain one |
| Records.AcquireExactly | src/pypnm_cmts/coordination/service_group_lease.py:88-153 | an acquire wins exactly when the lock can be had and nobody else's record is live; status then reads the caller back with the returned expiry; a lost acquire leaves the record as it was |
| Records.AcquireAnswers | src/pypnm_cmts/coordination/leader_election.py:60-153 | what an acquire answers: nobody and no times when the lock is held, the live record of the other to a loser, one's own live record with its old expiry, or a new one with a full TTL; an owned answer names the caller |
| Records.RenewAnswers | src/pypnm_cmts/coordination/service_group_lease.py:155-219 | what a renewal answers: the other's live record, an expired record with no time left, nobody where there is none, or the caller's record with a full TTL |
| Records.ReleaseAnswers | src/pypnm_cmts/coordination/service_group_lease.py:221-264 | what a release answers: the owner of a record that is not the caller's, and nobody otherwise |
| Records.StatusExactly | src/pypnm_cmts/coordination/leader_election.py:230-251 | status shows the live accepted record there is, whoever's it is, and reports ownership exactly of one's own |
| Records.RenewExactly | src/pypnm_cmts/coordination/service_group_lease.py:155-219 | a renewal succeeds exactly on the caller's own live record and then moves nothing but its expiry; otherwise the record stays |
| Records.ReleaseExactly | src/pypnm_cmts/coordination/service_group_lease.py:221-264 | with no call failing, a release succeeds exactly on the caller's own record, expired or not, and removes nobody else's |
| Records.ReacquireKeepsExpiry | src/pypnm_cmts/coordination/service_group_lease.py:109-121 | acquiring one's own live record again neither rewrites nor extends it |
| Records.AcquireRenewRelease | src/pypnm_cmts/coordination/service_group_lease.py:199-262 | acquire, renew before expiry, release: the acquisition time stays, the expiry is the renewal's, and nothing is left behind |
| Records.LeaderTurnExtends | src/pypnm_cmts/coordination/manager.py:115-120 | an undisturbed turn leads exactly when nobody else's record is live, reports the file's expiry, and that is a full TTL after the acquire that won or the renewal, or the old expiry when the record ran out between the two; the acquisition time of a live record stays |
| Records.LeaderTurnAnswers | src/pypnm_cmts/coordination/manager.py:115-132 | the leader a turn reports is the owner of the live record if there is one and the caller otherwise; whoever is not leader is shown the other's record |
| LeaseInvariant.Exclusion | src/pypnm_cmts/coordination/service_group_lease.py:378-399 | two processes inside the critical section of one record are one process |
| LeaseInvariant.StepKeeps | src/pypnm_cmts/coordination/service_group_lease.py:88-264 | every step of every process keeps the invariant on files, locks, critical sections, beliefs and tenures |
| LeaseInvariant.RunKeeps | src/pypnm_cmts/coordination/service_group_lease.py:88-264 | so does every clean run |
| LeaseLocks.LocksKeep | src/pypnm_cmts/coordination/service_group_lease.py:378-407 | every step but a break that finds somebody inside keeps the exclusion of the critical sections, whoever shares an id and whichever calls fail |
| LeaseLocks.RunLocks | src/pypnm_cmts/coordination/service_group_lease.py:378-407 | so does every clean run |
| LeaseSafety.HeldIsOwned | src/pypnm_cmts/coordination/manager.py:134-187 | in every reachable state, up to the point where an operation of its own has taken effect, a manager holding a group with its returned expiry ahead is the owner in the record, with exactly that expiry |
| LeaseSafety.PendingIsDone | src/pypnm_cmts/coordination/service_group_lease.py:104-264 | between an operation's taking effect and its return, what it reports as owned is in the record with that expiry and what it reports as released is gone |
| LeaseSafety.NeverBothHold | src/pypnm_cmts/coordination/manager.py:134-187 | in every reachable state, in the middle of operations included, two managers never both hold a group with time left |
| LeaseSafety.LockIsExclusive | src/pypnm_cmts/coordination/service_group_lease.py:378-399 | over every clean run, whoever shares an id and whichever calls fail, at most one live process is between lock and unlock, and the directory it will remove is the one it made |
| LeaseSafety.TenuresAreDisjoint | src/pypnm_cmts/coordination/leader_election.py:58-221 | over every run the tenures of a record are disjoint and ordered in time, and the file holds the last of them or none |
| LeaseSafety.FileHoldsLast | src/pypnm_cmts/coordination/leader_election.py:253-286 | in every reachable state a readable record is the last tenure, and without one the last tenure is over |
| LeaseSafety.StepLog | src/pypnm_cmts/coordination/leader_election.py:121-180 | a step leaves the tenures alone, adds one that starts after the last has ended, or moves the last one's end and keeps its owner and start |
| LeaseSafety.SoloIsRunOp | src/pypnm_cmts/coordination/service_group_lease.py:88-264 | the system calls of an operation, run with nobody else moving, add up to the sequential operation, with time passing between the lock and the judging of the record |
| FailingRuns.SoloIsRunFailing | src/pypnm_cmts/coordination/service_group_lease.py:88-407 | whatever set of an operation's calls fails, run alone it is a run of the machine with the matching steps: the same files, the same answer taken in |
| FailingRuns.LeaderBelieves | src/pypnm_cmts/coordination/manager.py:115-120 | over a leader turn in which any calls fail a process believes to lead exactly when the turn reports it as leader, and until the expiry that is reported; an exception leaves the belief alone |
| LeaseSafety.SoloAcquires | src/pypnm_cmts/coordination/service_group_lease.py:88-153 | over a breakable lock and no live record an undisturbed acquire ends up holding the group for a full TTL, removes its lock and reads back as its own |
| LeaseSafety.NoCrashWedges | src/pypnm_cmts/coordination/service_group_lease.py:298-407 | from every reachable state, whatever crashed half way, waiting until the lock is stale and the record expired lets any idle process acquire; meanwhile a readable record is the complete last tenure |
| LeaseFaults.SafeExactlyWhenTrusted | src/pypnm_cmts/coordination/service_group_lease.py:365-373 | for any two processes with distinct ids, over all clean runs they never both hold a group if and only if reads, and a lease's replaces, cannot fail |
| LeaseFaults.SafeExactly | src/pypnm_cmts/coordination/service_group_lease.py:88-264 | for two or more processes, over all clean runs no two ever hold one group if and only if owner ids are distinct and reads, and a lease's replaces, cannot fail |
| LeaseFaults.SharedOwner | src/pypnm_cmts/coordination/service_group_lease.py:109-121 | a run in which two processes with one owner id both hold a group |
| LeaseFaults.FailedRead | src/pypnm_cmts/coordination/service_group_lease.py:303-306 | a run in which a failed read makes a process replace a live record of another |
| LeaseFaults.SwallowedReplace | src/pypnm_cmts/coordination/service_group_lease.py:365-373 | a run in which both managers hold one group because a failed replace was not reported |
| LeaseBreaks.TestedIsClean | src/pypnm_cmts/coordination/service_group_lease.py:378-407 | where no critical section has lasted longer than twice the least TTL, a break that removes the directory whose age was tested finds nobody inside |
| LeaseBreaks.PromptIsClean | src/pypnm_cmts/coordination/service_group_lease.py:378-407 | over runs with breaks like that and critical sections no longer than twice the least TTL every break is clean |
| LeaseBreaks.BreakKeepsExactly | src/pypnm_cmts/coordination/service_group_lease.py:383-386 | a break keeps the invariant if and only if nobody is inside |
| LeaseBreaks.CleanExactly | src/pypnm_cmts/coordination/service_group_lease.py:378-394 | a run keeps the invariant throughout if and only if it never breaks a lock while somebody is inside |
| LeaseBreaks.ExclusiveExactly | src/pypnm_cmts/coordination/service_group_lease.py:378-399 | over runs whose breaks remove what was tested and whose critical sections last at most a limit, two processes are never inside together if and only if the limit is at most twice the least TTL, whichever calls fail and whoever shares an id |
| LeaseBreaks.SafelyHeldExactly | src/pypnm_cmts/coordination/service_group_lease.py:378-399 | for distinct owner ids, with reads and a lease's replaces not failing, no two processes hold one group over those runs if and only if the limit is at most twice the least TTL |
| LeaseBreaks.Overstay | src/pypnm_cmts/coordination/service_group_lease.py:378-394 | for any limit above twice a process's TTL, a run in which another stays inside for the limit and the process removes the very directory it tested and is inside, too |
| LeaseBreaks.UncleanBreak | src/pypnm_cmts/coordination/service_group_lease.py:383-391 | any two processes that find one stale lock can both be in the critical section and both come out holding the group |
| LeaderIds.BuiltIdsAreToldApart | src/pypnm_cmts/orchestrator/launcher.py:515-543 | for every owner id, an id built in controller mode passes the validator and one built in worker mode fails it |
| LeaderIds.AcceptsExactly | src/pypnm_cmts/orchestrator/launcher.py:535-543 | the validator accepts exactly the ids with something in them whose first characters, white space aside, are not the worker prefix |
| LeaderIds.BuildStrips | src/pypnm_cmts/orchestrator/launcher.py:515-533 | white space around an owner id plays no part |
| LeaderIds.OddIdsAreKept | src/pypnm_cmts/orchestrator/launcher.py:515-533 | an owner id that is the bare prefix of the other role, or white space only, is kept behind one's own prefix |
| LeaderIds.SameLeaderIdExactly | src/pypnm_cmts/orchestrator/launcher.py:515-533 | two processes of one role, controllers or workers, get the same leader id exactly when their owner ids agree up to a role prefix |
| LeaderIds.DistinctOwnersCollide | src/pypnm_cmts/orchestrator/launcher.py:515-533 | in either role an owner id and the same one behind the prefix of either role give one leader id |
| LeaderIds.ControllersAreGood | src/pypnm_cmts/orchestrator/launcher.py:515-543 | controllers whose owner ids have different roots meet the premises of leader safety |
| Ordering.CandidateOrder | src/pypnm_cmts/coordination/manager.py:302-323 | the candidates are a permutation of the groups, by falling score and rising id in score mode and by rising id otherwise, the same for every listing of them, and leaving groups out keeps the order of the rest |
| TickSteps.RenewalsHold | src/pypnm_cmts/coordination/manager.py:134-142 | after the renewals exactly the renewed groups are held and exactly the dropped ones have failed |
| TickSteps.RenewalOrder | src/pypnm_cmts/coordination/manager.py:134-142 | renewed and failed groups are listed in ascending order |
| TickSteps.ReleaseShape | src/pypnm_cmts/coordination/manager.py:144-155 | releasing works through a prefix of the list, each member released or failed, stops at the target and never goes below it |
| TickSteps.AcquireShape | src/pypnm_cmts/coordination/manager.py:157-171 | acquiring works through a prefix of the list, each member held, refused or skipped, and stops early only at the target |
| TickSteps.Greedy | src/pypnm_cmts/coordination/manager.py:157-171 | every candidate before the stopping point is held or was refused in this tick; below the target all candidates have been held or tried |
| TickSteps.FallbackIsIdle | src/pypnm_cmts/coordination/manager.py:173-187 | the second acquisition loop never attempts anything, duplicates in the input included |
| TickSteps.TickWithoutFallback | src/pypnm_cmts/coordination/manager.py:134-187 | a tick equals the tick without its second acquisition loop |
| TickSteps.TickAccounting | src/pypnm_cmts/coordination/manager.py:134-187 | held afterwards is the disjoint union of renewed less released, and acquired; releasing and acquiring exclude each other; the target bounds growth and releasing stops at it |
| TickSteps.ReleaseOrder | src/pypnm_cmts/coordination/manager.py:144-155 | a kept group above a released one has failed to be released; without failures the target-many smallest ids stay |
| TickRaises.NothingRaised | src/pypnm_cmts/coordination/manager.py:134-187 | where no operation raises the tick is the one without exceptions |
| TickRaises.RaisedTickIsBounded | src/pypnm_cmts/coordination/manager.py:134-187 | whichever operation raises, the tick gains only groups it was given, grows at most to the target, and keeps at least the target of what its renewals left, or all of it when that is less |
| CoordinationManager.CoordinationManager.RenewHeld | src/pypnm_cmts/coordination/manager.py:134-142 | the loop over the held groups computes the specified renewals; a renewal that raises ends it with the group, and those not yet reached, still held |
| CoordinationManager.CoordinationManager.ReleaseExtras | src/pypnm_cmts/coordination/manager.py:144-155 | the loop from the highest id down computes the specified releases; a release that raises ends it with its group still held |
| CoordinationManager.CoordinationManager.AcquireFrom | src/pypnm_cmts/coordination/manager.py:158-187 | an acquisition loop computes the specified acquisitions; an acquire that raises ends it with its group not held |
| CoordinationManager.CoordinationManager.TickLeases | src/pypnm_cmts/coordination/manager.py:134-187 | the lease part of the tick is the specified tick: held groups and all four result lists, or, when an operation raises, the held groups at that moment |
| CoordinationManager.CoordinationManager.TickLeader | src/pypnm_cmts/coordination/manager.py:115-132 | acquire, renew when already leader, keep the acquire's answer when the renewal fails, let an exception of either out; with election disabled nothing is written, the owner of the live record is reported, and leadership exactly when that is the caller |
| CoordinationManager.CoordinationManager.Tick | src/pypnm_cmts/coordination/manager.py:95-197 | a whole tick: the leader turn, or with election disabled who the live record says leads, then the leases; an exception of the election leaves the held groups alone, one of a lease leaves them as they are then |
| CoordinationManager.CoordinationManager.ReleaseAll | src/pypnm_cmts/coordination/manager.py:235-263 | what stays held is exactly what was not released, and without an exception all of it is listed as failed; a release that raises leaves the rest, and the leader record, unreleased; otherwise the leader record is released when election is enabled, whether leadership is held or not |
| CoordinationManager.ReleaseAllKeepsFailed | src/pypnm_cmts/coordination/manager.py:245-252 | in whatever order held groups are gone through, all but the released ones stay held, and of those gone through what stays has failed |
| Coverage.TickEffect | src/pypnm_cmts/coordination/manager.py:134-187 | an uncontended tick of a manager within its target leaves all it holds on record beyond the round, replaces no live record of others, and ends short of the target only when all the rest is others' |
| Coverage.RoundCovers | src/pypnm_cmts/coordination/manager.py:157-171 | one uncontended round within the least TTL by k managers with k times target at least the number of groups leaves their held groups a partition of all groups, stale locks left about included |
| Coverage.RoundCoversExactly | src/pypnm_cmts/coordination/manager.py:157-171 | such a round leaves a partition if and only if k times target is at least the number of groups |
| Coverage.RoundIsStable | src/pypnm_cmts/coordination/manager.py:134-187 | once the held groups cover everything with nobody over target, a round in which each manager renews in time leaves every held set as it was |
| Coverage.CoveredIsSettled | src/pypnm_cmts/coordination/manager.py:134-187 | what a covering round leaves is where stability starts |
| Coverage.RoundExists | src/pypnm_cmts/coordination/manager.py:95-187 | from every stage there is a round |
| TickRuns.OpIsRun | src/pypnm_cmts/coordination/manager.py:136-171 | an uncontended operation of the file service is a run of the step machine, with the clock readings where the code reads it |
| TickRuns.BookkeepingSteps | src/pypnm_cmts/coordination/manager.py:136-171 | each operation of a tick over the record files leaves the files as the operation leaves them, and the group held as its answer says |
| TickRuns.TickIsRun | src/pypnm_cmts/coordination/manager.py:134-187 | an uncontended tick is a run of the step machine: the same groups held, the same files left, no other process moved |
| TickRuns.RoundIsRun | src/pypnm_cmts/coordination/manager.py:95-197 | a round of ticks is a run of the step machine, stage by stage |
| ShardPlanner.WorkerCountIsLeast | src/pypnm_cmts/orchestrator/sg_shard_planner.py:75-95 | without a cap the worker count is the least k with k times target at least the number of groups, or one worker a group when the target is 0; a cap only lowers it |
| ShardPlanner.PlannedSuffices | src/pypnm_cmts/orchestrator/launcher.py:682-689 | the planned workers' targets add up to the groups if and only if there are no groups, the request is positive and within the cap's reach, or a controller stands in for 0 |
| ShardPlanner.PlannedWorkersCover | src/pypnm_cmts/orchestrator/sg_shard_planner.py:41-49 | as many workers as planned, capped or not, in either shard mode, partition the planned groups in one round under that condition, and for a plan without duplicates only under it |
| ShardPlanner.PlanOrder | src/pypnm_cmts/orchestrator/sg_shard_planner.py:41-73 | the plan lists a group as often as an enabled descriptor names it, in ascending order in both shard modes, and counts workers for as many groups as there are enabled descriptors |
| ShardPlanner.TargetExactly | src/pypnm_cmts/orchestrator/launcher.py:682-689 | a pinned manager wants one group, any other what is requested, a controller asked for none all that is planned, and nobody more than there are |
| SgwManager.SgwManager.constructor | src/pypnm_cmts/sgw/manager.py:95-101 | a new manager is one without groups over the given store given its groups, with every jitter within bounds |
| SgwManager.SgwManager.SetServiceGroups | src/pypnm_cmts/sgw/manager.py:103-108 | the two loops give every listed group a clamped jitter, keep the counts of groups that stay and start the others at zero |
| SgwManager.RegroupExactly | src/pypnm_cmts/sgw/manager.py:103-108 | a listed group keeps its entry, its request and its counts and gets its drawn jitter moved into bounds; an unlisted one loses counts and jitter |
| SgwManager.SgwManager.ResetRefreshCounts | src/pypnm_cmts/sgw/manager.py:195-209 | a managed group's counts become zero, and nothing else changes |
| SgwManager.SgwManager.RequestRefresh | src/pypnm_cmts/sgw/manager.py:225-250 | accepted exactly for a managed group and a mode other than none, unless it is heavy and rate limited; merged with the pending request by strength; a refusal changes nothing |
| SgwManager.SgwManager.Poll | src/pypnm_cmts/sgw/manager.py:424-458 | the entry after an attempt, the poller's failure included |
| SgwManager.SgwManager.TakeMode | src/pypnm_cmts/sgw/manager.py:402-435 | a pending request goes before what is due and is taken out |
| SgwManager.SgwManager.RefreshGroup | src/pypnm_cmts/sgw/manager.py:392-485 | one group's turn is the specified turn on all dictionaries |
| SgwManager.SgwManager.Refresh | src/pypnm_cmts/sgw/manager.py:370-514 | the cycle is the specified cycle with its result lists, error messages included; a negative time is refused and a disabled cache does nothing |
| SgwCache.MergeKeepsMacs | src/pypnm_cmts/sgw/manager.py:645-661 | merging updates keeps the MAC sequence |
| SgwCache.MergeComposes | src/pypnm_cmts/sgw/manager.py:645-661 | merging two batches in turn is merging their concatenation, so merging a batch again changes nothing |
| SgwCache.MergeUpdates | src/pypnm_cmts/sgw/manager.py:645-661 | each modem becomes the last update with its MAC, or stays where there is none; none is added or removed |
| SgwCache.ProcessOk | src/pypnm_cmts/sgw/manager.py:392-485 | a group's turn keeps its metadata ordered, its counts ordered, its heavy refreshes spaced and its request in step with what was accepted |
| SgwCache.AskOk | src/pypnm_cmts/sgw/manager.py:237-250 | so does a request, and the pending one stays the strongest accepted |
| SgwCache.ProcessIsFresh | src/pypnm_cmts/sgw/manager.py:460-475 | at the end of a turn the age is the time since the snapshot, an entry without error is younger than the light interval plus the group's jitter, and it is stale exactly when that age has reached the limit |
| SgwCache.ProcessedAge | src/pypnm_cmts/sgw/manager.py:460-475 | at the end of a turn the age is the time since the snapshot, 0 when the clock has gone back behind it, and an entry is stale exactly when its age has reached the limit and it is not in error |
| SgwCache.TriedExactly | src/pypnm_cmts/sgw/manager.py:663-683 | a turn tries the pending request, without one a heavy refresh when the interval and the jitter are over, else a light one when its are, else nothing |
| SgwCache.SuccessIsStored | src/pypnm_cmts/sgw/manager.py:546-572 | a successful heavy refresh stores the polled channels and modems, a light one keeps the channels and merges the modems; both date the entry, and nothing else changes what is stored |
| SgwCache.LightIsMerged | src/pypnm_cmts/sgw/manager.py:645-661 | after a light refresh each modem is the last update with its MAC, or as it was |
| SgwCache.FailsExactly | src/pypnm_cmts/sgw/manager.py:424-458 | a turn fails exactly when the poller it tries raises, and reports and keeps that poller's message |
| SgwCache.AskedExactly | src/pypnm_cmts/sgw/manager.py:225-250 | a request is refused exactly when it is heavy and the last heavy refresh is not yet a heavy interval ago; an accepted heavy one makes the pending one heavy, a light one only fills an empty place |
| SgwCache.FailureKeepsData | src/pypnm_cmts/sgw/store.py:60-80 | a failed attempt marks the entry and keeps its data and the times of its last refreshes; a successful one clears the error |
| SgwCache.AttemptsAreCounted | src/pypnm_cmts/sgw/manager.py:484-485 | a heavy attempt counts on both counters, a light one on its own, and exactly the failures without a message go uncounted |
| SgwRuns.TurnKeeps | src/pypnm_cmts/sgw/manager.py:392-485 | one group's turn keeps the invariant of all groups, and with a large enough age limit reports nothing stale |
| SgwRuns.RunKeeps | src/pypnm_cmts/sgw/manager.py:103-250 | every run of cycles, requests, resets, group changes and restarts keeps the invariant |
| SgwSafety.CycleIsRefresh | src/pypnm_cmts/sgw/manager.py:370-514 | a cycle in a run leaves the state the manager's refresh leaves |
| SgwSafety.MetadataIsOrdered | src/pypnm_cmts/sgw/manager.py:424-475 | after every run: last heavy, last light, snapshot time and now are in order, the state is ERROR exactly when an error is recorded, and heavy counts never exceed light counts |
| SgwSafety.HeavyRefreshesAreSpaced | src/pypnm_cmts/sgw/manager.py:663-683 | over every run in which requests arrive between cycles any two successful heavy refreshes of a group are at least the heavy interval apart |
| SgwTurns.TakeThenCommit | src/pypnm_cmts/sgw/manager.py:392-485 | a turn taken apart into its two critical sections, with nothing in between, is the turn |
| SgwTurns.QuietRunsAreSpaced | src/pypnm_cmts/sgw/manager.py:225-250 | with requests accepted at any time, heavy refreshes stay the heavy interval apart over every run in which no heavy one is accepted while a cycle is under way and not yet done with the group |
| SgwTurns.NextTurnIsSpacedExactly | src/pypnm_cmts/sgw/manager.py:402-435 | between cycles the next turn keeps the spacing, whenever it comes and whatever the pollers answer, if and only if no heavy request is pending or the last heavy refresh is a heavy interval ago |
| SgwTurns.SpacedOverExactly | src/pypnm_cmts/sgw/manager.py:663-683 | spacing holds over all runs if and only if such overlaps are kept out |
| SgwSafety.PendingIsStrongest | src/pypnm_cmts/sgw/manager.py:225-250 | after every run the pending request is the strongest accepted since the group was last processed, and a pending heavy one is not rate limited |
| SgwSafety.StaleExactly | src/pypnm_cmts/sgw/store.py:128-131 | with the cache on no run makes an entry stale if and only if the age limit is at least the light interval plus the largest jitter |
| SgwSafety.EntriesAreYoung | src/pypnm_cmts/sgw/manager.py:460-475 | after every run that ends with a cycle each listed group's entry has its age up to date and, unless in error, below the light interval plus its own jitter |
| SgwSafety.RequestStays | src/pypnm_cmts/sgw/manager.py:225-250 | between cycles that process the group and restarts a pending request stays and can only become heavy |
| SgwSafety.RequestIsCarriedOut | src/pypnm_cmts/sgw/manager.py:402-442 | the group's first turn in a cycle tries exactly what is pending, and the cycle leaves no request behind |
| SgwSafety.AcceptedRequestIsServedOnce | src/pypnm_cmts/sgw/manager.py:402-442 | a pending heavy request survives until the next cycle that processes the group, which has one turn for it, tries a heavy refresh there and takes the request away |
| SgwSafety.ResultLists | src/pypnm_cmts/sgw/manager.py:424-458 | the heavy list is within the light list, and without duplicate groups no refreshed group is among the errors |
| SgwSafety.ErrorsAreRecorded | src/pypnm_cmts/sgw/manager.py:455-458 | without duplicate groups the message a cycle returns for a group is the one its entry, in state ERROR, keeps |
| SgwSafety.LightRefreshKeepsMembership | src/pypnm_cmts/sgw/manager.py:443-454 | over any run without a successful heavy refresh of a cached group its channel fields and MAC sequence stay the same |
| SgwContents.CacheHoldsLast | src/pypnm_cmts/sgw/manager.py:546-572 | after every run a group holds the channels and the MACs of its last successful heavy payload, and each modem as the last light update for its MAC since then has it; without a heavy success it holds nothing |
| SgwContents.AskTaken | src/pypnm_cmts/sgw/manager.py:225-250 | a request event is noted and pending exactly when the group is listed and it is light or the last heavy refresh is a heavy interval ago |
| SgwContents.AcceptedExactly | src/pypnm_cmts/sgw/manager.py:237-249 | after every run a request is refused exactly when it is heavy and the group's last successful heavy refresh of that run is not yet a heavy interval ago |
| SgwContents.HeavyIsTriedExactly | src/pypnm_cmts/sgw/manager.py:402-423 | after every run the next turn tries a heavy refresh exactly when one was accepted since the last turn, or nothing was and the last success is the interval and the jitter ago |
| SgwContents.ListsAreReports | src/pypnm_cmts/sgw/manager.py:424-514 | the lists of a cycle are its turns' outcomes: heavily refreshed, refreshed, stale, failed with message, once a turn and in their order |
| WorkerGuard.WorkerGuardController.constructor | src/pypnm_cmts/support/worker_guard.py:33-43 | each limit is the configured one or, when that is out of range, the nearest in range; the deque is empty |
| WorkerGuard.ClampedIsNearest | src/pypnm_cmts/support/worker_guard.py:40-42 | of the limits in range the nearest to the configured ones are taken |
| WorkerGuard.WorkerGuardController.PruneRestartTimes | src/pypnm_cmts/support/worker_guard.py:107-110 | the loop drops exactly the leading times before the window |
| WorkerGuard.WorkerGuardController.GateReason | src/pypnm_cmts/support/worker_guard.py:91-105 | the gate on the pruned deque, the interval tested before the number |
| WorkerGuard.WorkerGuardController.Evaluate | src/pypnm_cmts/support/worker_guard.py:45-83 | the decision with all its reasons; without a reason nothing is pruned |
| WorkerGuard.WorkerGuardController.RecordRestart | src/pypnm_cmts/support/worker_guard.py:85-89 | the deque is pruned and the time appended |
| WorkerGuard.SinceIsPrune | src/pypnm_cmts/support/worker_guard.py:107-110 | on a sorted deque dropping the leading old times is filtering |
| WorkerGuardRuns.RestartsAreBounded | src/pypnm_cmts/support/worker_guard.py:45-110 | over every disciplined run each closed window holds at most the allowed restarts, consecutive ones are at least the smaller of interval and window apart, and the deque is the whole history filtered to the window |
| WorkerGuardRuns.AllowsExactly | src/pypnm_cmts/support/worker_guard.py:45-105 | after every run a restart is allowed exactly when the memory or the error cycles have reached a positive limit, the history's window is not full and the last restart is as old as the interval or has left the window |
| WorkerGuardRuns.ReasonsExactly | src/pypnm_cmts/support/worker_guard.py:45-105 | the memory and the error cycles are given as reasons exactly when they have reached their limit, with the observed values, and after them what by the history holds the restart back |
| WorkerGuardRuns.WorseIsNotRefused | src/pypnm_cmts/support/worker_guard.py:55-83 | more memory in use or more error cycles never turn an allowed restart into none |
| WorkerGuardRuns.IntervalKeptExactly | src/pypnm_cmts/support/worker_guard.py:91-110 | the configured interval is kept over every run if and only if it is at most the window |
| ServingGroupWorker.ServingGroupWorker.GetSnapshot | src/pypnm_cmts/sgw/worker.py:71-81 | only the age differs, and it is the time since the snapshot or zero |
| ServingGroupWorker.ServingGroupWorker.SetLaneRunning | src/pypnm_cmts/sgw/worker.py:148-161 | the lane and the whole become running |
| ServingGroupWorker.ServingGroupWorker.SetLaneError | src/pypnm_cmts/sgw/worker.py:163-183 | the lane and the whole become failed, with the message |
| ServingGroupWorker.ServingGroupWorker.FinishHeavy | src/pypnm_cmts/sgw/worker.py:96-109 | the inventory is kept, the lane is idle, and the whole is resolved from both lanes |
| ServingGroupWorker.ServingGroupWorker.FinishLight | src/pypnm_cmts/sgw/worker.py:128-135 | the lane is idle and the whole is resolved from both lanes |
| ServingGroupWorker.LanesAgree | src/pypnm_cmts/sgw/worker.py:148-216 | under every interleaving: running means the lane's state is RUNNING, the whole is IDLE exactly when both lanes are, RUNNING or ERROR only when some lane is, ERROR when a lane has failed and none runs, and otherwise what the lanes resolve to unless one runs and the other has failed |
| ServingGroupWorker.LaneShowsLast | src/pypnm_cmts/sgw/worker.py:148-201 | under every interleaving a lane shows the state of its last call to start or end, the message of its last failure unless a success came after it, and the time of its last success |
| ServingGroupWorker.OverallShowsLast | src/pypnm_cmts/sgw/worker.py:148-216 | the whole is running or failed when the last news of either lane is a start or a failure, and after a success shows what the other lane does |
| ServingGroupWorker.InventoryIsShown | src/pypnm_cmts/sgw/worker.py:96-121 | the modem count is that of the last inventory, which is there exactly when a heavy refresh has succeeded |
| ServingGroupWorker.InventoryIsLast | src/pypnm_cmts/sgw/worker.py:96-115 | light refreshes work on the inventory of the last successful heavy refresh |
| ServingGroupWorker.LightNeedsHeavy | src/pypnm_cmts/sgw/worker.py:111-135 | a light refresh can succeed only after a heavy one has |
| ServingGroupWorker.RunningIsInFlight | src/pypnm_cmts/sgw/worker.py:83-135 | with one call per lane at a time a lane runs exactly while a call of it is in flight or after its last call was cancelled |
| ServingGroupWorker.CallsInFlight | src/pypnm_cmts/sgw/worker.py:83-135 | under every interleaving the calls in flight are those that have started and not ended |
| ServingGroupWorker.CallsGoOn | src/pypnm_cmts/sgw/worker.py:83-135 | a call can always start, and one in flight always go on: a heavy one to any end, a light one to look for the inventory, and then to any end or to the failure that there was none |
| ServingGroupWorker.AgeIsShown | src/pypnm_cmts/sgw/worker.py:148-183 | a start or a failure brings the age up to date, a success leaves the one shown |
| ServingGroupWorker.SnapshotIsDated | src/pypnm_cmts/sgw/worker.py:96-133 | the snapshot carries the time of the last success of either lane |
| OidIndex.SgIdParserFinds | src/pypnm_cmts/docsis/cmts_operation.py:1301-1344 | the parser of the registration lookups finds a key exactly in an OID that goes on with the key's encoding |
| OidIndex.KeyParserFinds | src/pypnm_cmts/docsis/cmts_operation.py:1346-1399 | the parser of the listing also wants a node name or something behind the encoding |
| OidIndex.KeyParserRaises | src/pypnm_cmts/docsis/cmts_operation.py:1372-1399 | the parser of the listing raises exactly on an OID whose named part, of full length, holds a number that is no byte |
| OidIndex.SgIdParserRaises | src/pypnm_cmts/docsis/cmts_operation.py:1301-1344 | so does the parser of the registration lookups |
| OidIndex.RoundTrip | src/pypnm_cmts/docsis/cmts_operation.py:1301-1399 | parsing undoes the length-prefixed encoding, for one parser always and for the other exactly for keys with a name |
| OidIndex.EncodingIsPrefixFree | src/pypnm_cmts/docsis/cmts_operation.py:1372-1399 | no key's encoding begins with another's |
| OidIndex.ParsersDiffer | src/pypnm_cmts/docsis/cmts_operation.py:1301-1399 | the parsers differ exactly on the encodings of keys without a name |
| ServiceGroupListing.Collect | src/pypnm_cmts/docsis/cmts_operation.py:1401-1439 | the column has exactly the rows with a key and a readable value, in order, and the loop raises exactly when some row's name is no bytes |
| ServiceGroupListing.CollectedFails | src/pypnm_cmts/docsis/cmts_operation.py:1401-1439 | collecting a walk fails exactly when some row's name is no bytes, whatever its value |
| ServiceGroupListing.CollectedExactly | src/pypnm_cmts/docsis/cmts_operation.py:1401-1439 | what is collected are the rows in which a key's encoding, with a name or something behind it, follows the base and whose value can be read, in order |
| ServiceGroupListing.AnswerIsCollected | src/pypnm_cmts/docsis/cmts_operation.py:1401-1439 | of an agent's answer exactly the rows with a node name come back, as they were |
| ServiceGroupListing.Join | src/pypnm_cmts/docsis/cmts_operation.py:347-388 | the two loops and the sort give the full outer join: one row per key seen in either column, each side its last value or 0, strictly increasing |
| ServiceGroupListing.JoinIsUnique | src/pypnm_cmts/docsis/cmts_operation.py:347-388 | no other list is that join |
| ServiceGroupListing.JoinExactly | src/pypnm_cmts/docsis/cmts_operation.py:347-388 | a row for each key in either column and for no other, each side with the last value the column has for the key, or 0 |
| ServiceGroupListing.KeyOrder | src/pypnm_cmts/docsis/cmts_operation.py:384-387 | the order is by interface, then name byte by byte, then service group |
| ServiceGroupListing.ListServiceGroups | src/pypnm_cmts/docsis/cmts_operation.py:334-388 | the listing is the join of the two collected columns, and fails exactly when some row of one of the walks has a name that is no bytes |

## Left out

- Real files, JSON and fsync: a record file is missing, unreadable or holds a record; a replace is atomic, and JSON keeps the fields. The clock of a lock directory's mtime is the processes' clock.
- Where a failed write of the temporary file leaves it: it is unreadable here; nothing reads it.
- Constructor checks of ids and TTLs: ids and TTLs are as the constructors leave them.
- The SHA-256 score: any function of the group, one per manager.
- Records.LeaderTurnExtends: it covers an undisturbed turn only; what holds under interference is in `LeaseSafety`.
- Coverage.RoundCovers: rounds are uncontended, that is, the managers tick one after the other. Under contention safety holds, but nothing bounds when coverage is reached.
- Leader election in `Protocol` shares the machine of the leases with one record; that a group may be any number is no restriction.
- Which characters `str.strip` removes: a parameter, of which only is asked that it remove no letter of the role prefixes.
- Store locking and deep copies: entries are values. In `SgwManager`, `SgwRuns` and `SgwSafety` a group's turn is one step, with requests arriving between cycles; `SgwTurns` takes it apart for one group.
- Messages of results other than errors, durations, metrics, logging, worker start times, threads, `refresh_forever` and `run_scoped_job`.
- Restarts over an empty store, as the supervisor in src/pypnm_cmts/sgw/runtime_state.py:304-305 makes them: each begins a new run.
- WorkerGuardRuns.RestartsAreBounded: it speaks of one controller. The supervisor in src/pypnm_cmts/sgw/runtime_state.py:236-240 builds a new one after each restart, which starts with an empty history.
- Decoding of node names: names are byte sequences, so names that differ only in bytes that decode to the replacement character stay apart here and collapse in the code; for valid UTF-8 the order by bytes is the order by characters.
- SNMP walks: a walk is the list of OIDs and values it returned, empty when it failed.
- CLI, web service, configuration, discovery, process and memory inspection: wiring with only easy claims.
