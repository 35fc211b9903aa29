# Verified models of the platform's protocols

This project models the parts of the backend that are real protocols and algorithms, and proves
what they guarantee. Database tables are sequences and maps, pods are a set of names, and every
call that the models let fail is an input, chosen freely; "Left out" names the calls that always
succeed.

| file | what it models |
|---|---|
| `RateLimiter.dfy` | the token bucket and its cleanup loop |
| `SourceLookup.dfy` | the recursive search for contract source over proxies |
| `ChallengePods.dfy`, `ChallengeEnv.dfy`, `ChallengeRuntime.dfy` | challenge environments: pod names, the race between provisioner and requests, and the service that performs it |
| `SharedSession.dfy` | experiment environments sharing one session's pods |
| `RoundLifecycle.dfy`, `Replay.dfy` | agent battles: rounds and replay |
| `CompositeScore.dfy`, `BattleScore.dfy`, `FinalRank.dfy`, `ExchangeSort.dfy` | the score formula, the scores of a round, the final ranking, and the sort both use |
| `ScoreTable.dfy`, `ScoreLedger.dfy`, `ScoreRace.dfy`, `ScoreboardCache.dfy` | flag submission, ranks, concurrent additions, and the cached scoreboard |
| `RuntimeCompiler.dfy` | compiling an experiment blueprint into instances and tool targets |
| `Orchestration.dfy`, `Teams.dfy`, `Masking.dfy` | challenge orchestration, team membership, masking of logged requests |
| `Common.dfy` | options, machine words, ASCII text |
| `*Outcomes.dfy` | what the operations of a module answer and store, written out with all statuses, times and constants, and further theorems that rest on it |

Each service object of the source that updates state is a class whose methods are proved equal to
a specification function on values; the theorems about runs and interleavings are lemmas about
those functions. Where a promise fails, the file gives the failing run and proves the exact
condition under which the promise holds: the lemmas whose names end in `Iff`.

To verify everything with Dafny 4.11, run `dafny verify dfyconfig.toml` in this directory.

Where the code and its own words differ, the code is modelled:

- The replay and the scores ask for 10000 events and the round list is asked for in one page, but
  no page exceeds 100 rows (`backend/internal/repository/base.go:38-40`).
- After a chain fails to start, a round keeps the pending status with zero times and is never due
  again (`backend/internal/service/agent_battle_service.go:1098-1104`): `RoundOutcomes.ChainFailureIsFinal`.
- The limits on environments are checked for environments of one's own and not for joining a
  session (`backend/internal/service/env_manager_service.go:95-110`): `SessionOutcomes.JoiningExceeds`.
- Scores are stored by a method called `Upsert` that inserts fresh rows
  (`backend/internal/repository/agent_battle_repository.go:236-239`), and the table has one row per contest,
  team and round, so a second row of a team is refused with a log line: `BattleScore.AllSavedIff`.
- Dynamic points are recomputed before the solve is stored, so the second solver still earns the
  full points (`backend/internal/service/contest_score_service.go:102-109`).
- Registering for a contest with teams succeeds and stores nothing
  (`backend/internal/service/contest_team_service.go:122-140`).
- A tool target is trimmed when a blueprint is validated and not when it is compiled
  (`backend/internal/service/experiment_service.go:944-945`, `backend/internal/service/env_manager_service.go:958-979`).

## Model

| member | source | states |
|---|---|---|
| `RateLimiter.Limiter.Allow` | backend/internal/middleware/ratelimit.go:45-74 | one call: the visitor table and the answer are those of the token bucket on exact numbers, where a missing key behaves as a full bucket |
| `RateLimiter.Limiter.CleanupTick` | backend/internal/middleware/ratelimit.go:77-91 | one tick removes exactly the keys idle for more than a minute, whatever the map order |
| `RateLimiter.BalancesStayInRange` | backend/internal/middleware/ratelimit.go:60-70 | over any schedule every stored balance stays between 0 and the burst |
| `RateLimiter.AlikeRunsAgree` | backend/internal/middleware/ratelimit.go:76-91 | when a minute refills the largest bucket, schedules with and without sweeps answer every call alike |
| `RateLimiter.CleanupUnobservableIff` | backend/internal/middleware/ratelimit.go:45-91 | cleanup is unobservable over all schedules and keys if and only if 60 * rate >= burst |
| `RateLimiter.WindowBound` | backend/internal/middleware/ratelimit.go:60-73 | without cleanup no window of length T grants a key more than burst + rate * T calls |
| `RateLimiter.WindowBoundedIff` | backend/internal/middleware/ratelimit.go:45-91 | with cleanup running, that bound holds over all schedules if and only if 60 * rate >= burst |
| `RateLimiter.SweepDoublesTheBurst` | backend/internal/middleware/ratelimit.go:52-58 | when a minute does not refill the bucket, a schedule that spends the burst twice within the window |
| `RateLimiter.PacedClientNeverRefused` | backend/internal/middleware/ratelimit.go:60-73 | a client whose calls are at least 1/rate apart is never refused, with or without cleanup |
| `RateLimiter.AdmitOf` | backend/internal/middleware/ratelimit.go:45-74 | one call in numbers: a new key uses one token of a full bucket, another is topped up by the rate to at most the burst and pays a whole token if it has one |
| `RateLimiter.SweepOf` | backend/internal/middleware/ratelimit.go:77-91 | one tick forgets the keys that have not called for more than 60 seconds, and no others |
| `SourceLookup.Fetcher.FetchContract` | backend/internal/service/challenge_vulnerability_service.go:192-194 | code is found if and only if some contract with source is reachable along its links, it is the source of a reachable contract, and no address is asked twice; `SourceOutcomes` says where a link leads and which link comes first |
| `SourceLookup.Fetcher.FetchRecursive` | backend/internal/service/challenge_vulnerability_service.go:196-280 | result and visited set are those of the depth-first search; it ends on every finite, possibly cyclic graph |
| `SourceLookup.Fetcher.FetchLink` | backend/internal/service/challenge_vulnerability_service.go:251-270 | one link is looked up on the shared visited set, or skipped when empty or pointing back |
| `SourceLookup.SearchSound` | backend/internal/service/challenge_vulnerability_service.go:196-280 | a search that finds nothing has marked a set of addresses closed under links and without source; one that finds code reached it |
| `SourceLookup.SearchIsComplete` | backend/internal/service/challenge_vulnerability_service.go:196-280 | from a clean start code is found if and only if a contract with source is reachable, despite the visited set shared by both branches |
| `SourceLookup.BlankSuccessIff` | backend/internal/service/challenge_vulnerability_service.go:251-279 | an empty text is returned as a success exactly when the contract asked for has a source of only white space, so that its links are never followed |
| `SourceLookup.NormalizeSourceBlank` | backend/internal/service/challenge_vulnerability_service.go:151-190 | flattening a source keeps blank sources blank and real ones real |
| `SourceOutcomes.LinkLeadsTo` | backend/internal/service/vulnerability_enrichment.go:1158-1171 | a link that spells a 42-character 0x address, in any case and with white space around it, leads there, and so does one with a chain and a colon before it |
| `SourceOutcomes.BlankLink` | backend/internal/service/vulnerability_enrichment.go:1160-1162 | a link of white space leads nowhere |
| `SourceOutcomes.OddLink` | backend/internal/service/vulnerability_enrichment.go:1163-1170 | any other link is queried as it is written, without the white space around it |
| `SourceOutcomes.ImplementationComesFirst` | backend/internal/service/challenge_vulnerability_service.go:253-261 | what is found behind the implementation of a contract without source is the answer, whatever its similar match |
| `SourceOutcomes.SimilarMatchComesSecond` | backend/internal/service/challenge_vulnerability_service.go:262-268 | without an implementation the similar match answers, or its error is the only cause |
| `SourceOutcomes.NothingToFollow` | backend/internal/service/challenge_vulnerability_service.go:257-273 | a contract without source whose links are blank or lead back to it is not verified |
| `SourceOutcomes.OtherAnswers` | backend/internal/service/challenge_vulnerability_service.go:203-210 | the errors of a blank address, of one that is not there and of a failed request, and the source of a contract that has one |
| `SourceOutcomes.FilesArePrinted` | backend/internal/service/challenge_vulnerability_service.go:171-189 | files are printed one after another, each with its heading and an empty line behind it |
| `SourceOutcomes.SourceText` | backend/internal/service/challenge_vulnerability_service.go:151-172 | plain source without the white space around it, a file list printed |
| `ChallengePods.BuildRuntimeBundles` | backend/internal/service/challenge_runtime_bundle.go:34-100 | the bundles list the component keys of the kept services in order |
| `ChallengePods.BuildServicePodConfigs` | backend/internal/service/challenge_env_service.go:66-95 | the started pods are named after every component of every kept service, in order |
| `ChallengePods.SanitizeChallengeKey` | backend/internal/service/challenge_env_service.go:202-217 | the loop yields the lower-cased key with every other character a dash, outer dashes trimmed, and a fallback name |
| `ChallengePods.OwnerOfOwned` | backend/internal/service/challenge_env_service.go:97-131 | the environment id can be read back from the name of each of its pods |
| `ChallengePods.OwnedDisjoint` | backend/internal/service/challenge_env_service.go:198-200 | two environments never share a pod name, whatever their services |
| `ChallengePods.SafeKeyIsSafe` | backend/internal/service/challenge_env_service.go:202-217 | the key in lower case with dashes for everything but letters and digits and none at either end, or "service" if nothing is left |
| `ChallengePods.ComponentsOf` | backend/internal/service/challenge_runtime_bundle.go:34-100 | none for the four keys left out, and the stores that blockscout, chainlink and thegraph bring |
| `ChallengePods.ServicePodsGrow` | backend/internal/service/challenge_env_service.go:66-95 | the pods of a further service come last, one per component, under its name |
| `ChallengeRuntime.ContestRuntime.StartChallengeEnv` | backend/internal/service/contest_env_service.go:58-108 | from the row it has read on: one that runs with time left, is pending or creating is handed back and nothing changes; any other is retired, its pods stopped and its row terminated as far as the calls work, and the answer is the new id when the insert works |
| `ChallengeRuntime.ContestRuntime.StopChallengeEnv` | backend/internal/service/contest_env_service.go:122-138 | from the row it has read on: pods stopped only for a published row and only those whose deletion works, and that row written back as terminated unless the update fails |
| `ChallengeRuntime.ContestRuntime.GetChallengeEnvStatus` | backend/internal/service/contest_env_service.go:110-120 | from the row it has read on: the status shown, and the row written back as expired when its time is over |
| `ChallengeRuntime.ContestRuntime.Look` | backend/internal/repository/contest_repository.go:786-794 | the newest active row of the slot, which every request reads first |
| `ChallengeRuntime.ContestRuntime.CleanupPersistedChallengeEnv` | backend/internal/service/contest_env_service.go:278-298 | the loops stop the recorded pods and every service pod of the challenge, and exactly those whose deletion fails stay |
| `ChallengeRuntime.ContestRuntime.StartInstance` | backend/internal/service/runtime_provision_service.go:19-53 | a start that fails leaves its pod live exactly when the deletion that follows fails too |
| `ChallengeRuntime.ContestRuntime.StopInstance` | backend/internal/service/runtime_provision_service.go:55-67 | an empty name stops nothing; otherwise the pod is gone unless its deletion fails |
| `ChallengeRuntime.ContestRuntime.ProvisionChallengeEnv` | backend/internal/service/contest_env_service.go:140-224 | the undisturbed provisioner with its loops and every failure branch is the sequence of steps of the interleaving model |
| `ChallengeRuntime.ContestRuntime.MarkFailed` | backend/internal/service/contest_env_service.go:226-243 | the last step of a failed provisioner, unless it answers a Stop |
| `ChallengeRuntime.DriveEnds` | backend/internal/service/contest_env_service.go:140-224 | an undisturbed provisioner ends, whatever its calls answer |
| `ChallengeEnv.ApplyKeepsSafe` | backend/internal/service/contest_env_service.go:58-298 | each atomic step, whatever fails in it, keeps every environment safe up to the pods it leaves to nobody: the other live pods are among those its row and stage account for |
| `ChallengeEnv.RunKeepsSafe` | backend/internal/service/contest_env_service.go:58-298 | every interleaving with any failures keeps that invariant, up to the pods orphaned along the way |
| `ChallengeEnv.SafeHasNoLeak` | backend/internal/service/contest_env_service.go:122-298 | in a safe world, no pod of an environment is live once its provisioner has ended and its row is terminated or failed |
| `ChallengeEnv.LeaksAreOrphans` | backend/internal/service/contest_env_service.go:58-298 | over every run, whatever fails: a pod that is live although its environment is over is one whose deletion failed, or belongs to an environment whose publishing write was lost or overwritten by a request that had read the row before |
| `ChallengeEnv.LostPublishLeaks` | backend/internal/service/contest_env_service.go:207-224 | when the write that publishes the pod names is lost, a later Stop leaves the workspace running |
| `ChallengeEnv.KeptPodLeaks` | backend/internal/service/contest_env_service.go:278-298 | when the workspace of a running environment cannot be deleted, a stored Stop leaves it running |
| `ChallengeEnv.OvertakenLeaks` | backend/internal/service/contest_env_service.go:127-137 | when a Stop reads the row, the provisioner publishes it, and the Stop writes what it has read, the workspace is left running |
| `ChallengeEnv.NoPodLeaksIff` | backend/internal/service/contest_env_service.go:58-298 | no run leaks a pod, for any challenges, number of services and interleaving of provisioners, reads and writes, if and only if no publishing write is lost, no pod that was to be deleted stays, and no request is overtaken by the publishing write; every other call may fail |
| `ChallengeEnv.StopIsFinalIff` | backend/internal/service/contest_env_service.go:122-224 | after a stored Stop, even of an old row, the environment never runs again in any run, whatever fails, if and only if its provisioner has ended or is tearing down, or has not yet looked at the row again and every such look succeeds |
| `ChallengeEnv.RunningEnvsAreWhole` | backend/internal/service/contest_env_service.go:140-224 | in runs whose row updates are stored and whose status requests do not expire a row that has stopped running, whatever else fails, a running or expired environment has its workspace, every service pod and its fork live |
| `ChallengeOutcomes.NewestActive` | backend/internal/repository/contest_repository.go:786-794 | a request works on the last row of its slot that is pending, creating, running or failed |
| `ChallengeOutcomes.StartHandsBack` | backend/internal/service/contest_env_service.go:69-71 | a Start that has read a running row with time left, or a pending or creating one, changes nothing |
| `ChallengeOutcomes.StartReplaces` | backend/internal/service/contest_env_service.go:72-107 | one that has read any other row stops the pods it names and every service pod, terminates it, and inserts a creating row |
| `ChallengeOutcomes.StopTerminates` | backend/internal/service/contest_env_service.go:127-137 | a Stop stops those pods if the row names its workspace, and terminates the row |
| `ChallengeOutcomes.PollExpires` | backend/internal/service/contest_env_service.go:110-120 | a status request expires a row exactly when its time is over |
| `ChallengeOutcomes.RunsUntilStopped` | backend/internal/service/contest_env_service.go:58-138 | in every run, whatever fails, an environment that runs keeps its row and every pod, however many requests look at it, start again or ask for its status, until one stops it or its time is over |
| `ChallengeOutcomes.RunKeepsCurrent` | backend/internal/service/contest_env_service.go:58-138 | in every run what requests have read of rows that run is the row as it is |
| `ChallengeOutcomes.ProvisionEnds` | backend/internal/service/contest_env_service.go:140-243 | how provisioning ends, by which of its calls fails: every pod live and the row running for its time limit, every pod live and the row not stored, or no pod left and the row failed or as it was |
| `SharedSession.EnvManager.CreateEnv` | backend/internal/service/env_manager_service.go:80-167 | the whole new state for every way its calls can go, with the outcomes that `SessionOutcomes` writes out: handed back, attached to a reusable session, refused by a limit on running and creating environments, or opened as a new one |
| `SharedSession.EnvManager.OpenSession` | backend/internal/service/env_manager_service.go:117-166 | a new session, its environment, binding and pods, with what is left behind when the insert, the binding, a pod or the failed status is refused |
| `SharedSession.EnvManager.CreateRuntimeInstances` | backend/internal/service/env_manager_service.go:400-412 | pods are started in order up to the first refusal; exactly those before it stay live, and the refused one when it cannot be deleted again |
| `SharedSession.EnvManager.AttachToSharedSession` | backend/internal/service/env_manager_service.go:169-196 | the new environment copies status and pods of the primary one, and is stored before it is bound |
| `SharedSession.EnvManager.BindEnvToSession` | backend/internal/service/env_manager_service.go:666-706 | membership and count after binding, also when it fails before the member or before the count |
| `SharedSession.EnvManager.StopEnv` | backend/internal/service/env_manager_service.go:198-221 | detaches while others are active and can be counted, tears down otherwise; an error is returned exactly when the row cannot be found or updated |
| `SharedSession.EnvManager.TerminateEnv` | backend/internal/service/env_manager_service.go:500-511 | pods deleted first, then row terminated and session recounted and closed; a failed update of the row keeps it and the session as they were |
| `SharedSession.EnvManager.DeleteRuntimeInstances` | backend/internal/service/env_manager_service.go:513-524 | the loop removes exactly the pods of the list whose deletion works |
| `SharedSession.EnvManager.SyncSessionStatus` | backend/internal/service/env_manager_service.go:579-602 | what a change of an environment does to its session, unless that write fails |
| `SharedSession.EnvManager.HandleSessionDetach` | backend/internal/service/env_manager_service.go:604-628 | member left, count recomputed, primary handed to the first active environment, with each of the three possibly lost |
| `SharedSession.EnvManager.FinishWait` | backend/internal/service/env_manager_service.go:469-498 | a good wait leaves the environment running, and its session with it if that is stored; a bad one leaves it failed; no pod is touched |
| `SharedSession.InvCounts` | backend/internal/repository/experiment_repository.go:278-298 | the invariant gives the counts: members joined, environments active and the stored count agree, the primary is active, the pods are live |
| `SharedSession.StepKeeps` | backend/internal/service/env_manager_service.go:80-221 | every step without a fault, whatever harmless call fails in it, keeps the invariant over environments, sessions, members and pods |
| `SharedSession.RunKeeps` | backend/internal/service/env_manager_service.go:80-221 | over every run: pods stay live while an environment of the session is active and are gone when none is; count and members never exceed the limit |
| `SharedSession.PartialStartMiscounts` | backend/internal/service/env_manager_service.go:400-412 | a creation refused its second pod leaves the first one live in a session without active environments |
| `SharedSession.FailedWaitMiscounts` | backend/internal/service/env_manager_service.go:469-480 | a wait that fails after another user joined breaks the counting |
| `SharedSession.LateWaitMiscounts` | backend/internal/service/env_manager_service.go:488-495 | a wait that ends well after its environment was stopped makes it running again, without pods |
| `SharedSession.RepeatedStopMiscounts` | backend/internal/service/env_manager_service.go:198-221 | stopping an environment twice takes the pods from the user who stayed |
| `SharedSession.KeptPodMiscounts` | backend/internal/service/env_manager_service.go:513-524 | a pod that cannot be deleted outlives its session |
| `SharedSession.LostStopMiscounts` | backend/internal/service/env_manager_service.go:500-507 | pods deleted and the row not updated: an active environment without pods |
| `SharedSession.LostMemberMiscounts` | backend/internal/service/env_manager_service.go:141-145 | an environment stored and never bound stays active without pods |
| `SharedSession.UnseenOwnMiscounts` | backend/internal/service/env_manager_service.go:91-93 | a user whose environment cannot be read gets a second one under the same membership |
| `SharedSession.UnseenOthersMiscounts` | backend/internal/service/env_manager_service.go:208-220 | when the active environments cannot be counted, a stop takes the pods from the others |
| `SharedSession.LostHeirMiscounts` | backend/internal/service/env_manager_service.go:617-627 | when no heir can be read the session stays led by a stopped environment |
| `SharedSession.EachFaultMiscounts` | backend/internal/service/env_manager_service.go:80-628 | each of the fourteen faults alone, allowed in a run, breaks the counting |
| `SharedSession.AlwaysCountedIff` | backend/internal/service/env_manager_service.go:80-628 | over all runs, in which any other call of a creation, a stop or a wait may fail, the counting is right if and only if none of the fourteen faults can happen |
| `SessionOutcomes.HandsBackOwn` | backend/internal/service/env_manager_service.go:91-93 | the first pending, creating, running or paused environment of the user for the experiment is handed back, and nothing changes |
| `SessionOutcomes.RefusedAtTheLimits` | backend/internal/repository/experiment_repository.go:398-412 | a request for an environment of its own is refused when as many running and creating environments of the user are counted as allowed, and then by those of the school |
| `SessionOutcomes.OpensBelowTheLimits` | backend/internal/service/env_manager_service.go:103-166 | below both limits it is not refused by them: a session, a creating environment and a member are stored and every pod is started |
| `SessionOutcomes.OpensBrokenOff` | backend/internal/service/env_manager_service.go:117-166 | what is left when an insert, the binding or a pod fails |
| `SessionOutcomes.JoinsWithRoom` | backend/internal/service/env_manager_service.go:95-101 | the oldest open session with room is joined whatever the limits, with the status and pods of its primary environment, and what is left when a write fails |
| `SessionOutcomes.JoinsNobody` | backend/internal/service/env_manager_service.go:174-177 | a session whose primary environment is not there cannot be joined |
| `SessionOutcomes.WaitEnds` | backend/internal/service/env_manager_service.go:469-498 | a good wait leaves environment and session running, a bad one the environment failed and the session as it was |
| `SessionOutcomes.StopTearsDown` | backend/internal/service/env_manager_service.go:500-511 | a stop of the only active environment, or of one that is not collaborative, deletes its pods and terminates environment and session |
| `SessionOutcomes.StopDetaches` | backend/internal/service/env_manager_service.go:604-628 | while others are active no pod is deleted, the user leaves, and the first other environment leads the session |
| `SessionOutcomes.NeverExceedsIff` | backend/internal/service/env_manager_service.go:103-110 | over all runs, whatever else fails, nobody has more running and creating environments of experiments that are not shared than the limits allow, if and only if the counts are read and no wait is late |
| `SessionOutcomes.LateWaitExceeds` | backend/internal/service/env_manager_service.go:488-495 | a wait that ends well after its environment was stopped and replaced passes the limit |
| `SessionOutcomes.JoiningExceeds` | backend/internal/service/env_manager_service.go:95-101 | joining passes the limit without any failure |
| `RoundLifecycle.RoundService.SyncContestRoundLifecycle` | backend/internal/service/agent_battle_service.go:998-1114 | the table after one Sync, for every combination of failures; `RoundOutcomes` writes it out row by row |
| `RoundLifecycle.RoundService.CreateMissing` | backend/internal/service/agent_battle_service.go:1011-1040 | inserts the planned numbers the first page does not show, in order, up to the first failure |
| `RoundLifecycle.RoundService.Scan` | backend/internal/service/agent_battle_service.go:1049-1067 | finds the first running and the first due pending round |
| `RoundLifecycle.SyncInOrder` | backend/internal/service/agent_battle_service.go:998-1114 | on a table in order that fits a page a Sync appends the missing rounds and then works on the whole table |
| `RoundLifecycle.SyncKeepsSafe` | backend/internal/service/agent_battle_service.go:998-1114 | a Sync at a later time keeps order, disjointness and planned start times |
| `RoundLifecycle.RunsAreSafe` | backend/internal/service/agent_battle_service.go:998-1114 | over every run with a non-decreasing clock and any failures: rounds stuck at time zero aside, finished*, running?, pending* by number, with disjoint slots in number order and no start before its slot |
| `RoundLifecycle.AtMostOneRunning` | backend/internal/service/agent_battle_service.go:1045-1114 | at most one round runs, at any time of any run |
| `RoundLifecycle.LongContestsRepeatRounds` | backend/internal/repository/base.go:30-43 | with more planned rounds than a page holds the next Sync inserts some of them again |
| `RoundLifecycle.ExactRoundsIff` | backend/internal/service/agent_battle_service.go:1011-1040 | every run yields exactly the rounds 1 to n if and only if n is at most 100 |
| `RoundLifecycle.SyncWork` | backend/internal/service/agent_battle_service.go:1045-1114 | each Sync finishes at most one and starts at most one round, and changes no more rows than the measure falls |
| `RoundLifecycle.AtMostTwoChangesPerRound` | backend/internal/service/agent_battle_service.go:998-1114 | over the longest of runs at most two changes per planned round |
| `RoundLifecycle.DiligentRunsFinish` | backend/internal/service/agent_battle_service.go:998-1114 | after as many well-timed Syncs as there is work left every round has finished, except those stuck at time zero |
| `RoundLifecycle.DiligentFinishIff` | backend/internal/service/agent_battle_service.go:998-1114 | of the planned rounds exactly those finish that are not stuck in the completed table before the run |
| `RoundLifecycle.StuckForever` | backend/internal/service/agent_battle_service.go:1098-1104 | over every run, whatever succeeds or fails, a stuck round stays as it is |
| `RoundLifecycle.PhasesNeverGoBack` | backend/internal/service/agent_battle_service.go:773-801 | over any run the phase shown for a round never goes back |
| `RoundOutcomes.SyncBreaksOff` | backend/internal/service/agent_battle_service.go:1011-1040 | a Sync whose inserts break off leaves the planned rounds inserted so far, one after another from the start of the contest |
| `RoundOutcomes.SyncWaits` | backend/internal/service/agent_battle_service.go:1070-1088 | while a round runs whose time is not over, or whose end cannot be stored, nothing else changes |
| `RoundOutcomes.SyncStarts` | backend/internal/service/agent_battle_service.go:1090-1111 | when no round runs the first pending one whose time has come is started, or put back without a time |
| `RoundOutcomes.SyncFinishes` | backend/internal/service/agent_battle_service.go:1070-1111 | when the running round is over it is finished, and the next one is started or put back |
| `RoundOutcomes.SyncRests` | backend/internal/service/agent_battle_service.go:1045-1114 | with nothing to finish and nothing to start the rounds stay as they are |
| `RoundOutcomes.ChainFailureIsFinal` | backend/internal/service/agent_battle_service.go:1098-1104 | a due round whose chain fails to start is pending with zero times, if that is stored, and never starts in any later run |
| `RoundOutcomes.ChainUpStarts` | backend/internal/service/agent_battle_service.go:1090-1111 | if its chain comes up the round runs from now on for its full length |
| `RoundOutcomes.PhasesByTime` | backend/internal/service/agent_battle_service.go:773-801 | the phases of a running round in seconds: two minutes of upgrades by default, ten seconds locked, executing until its end, then settling |
| `ScoreTable.LoadScoreboardList` | backend/internal/service/contest_score_service.go:167-195 | the loop yields the first page of the sorted board with ranks filled in |
| `ScoreTable.BoardSorts` | backend/internal/repository/contest_repository.go:693-714 | the board holds every row once, by total descending and last solve ascending |
| `ScoreTable.RankIsPlace` | backend/internal/repository/contest_repository.go:716-730 | the rank of a row is its place on that board |
| `ScoreTable.UpdateRanksRanks` | backend/internal/repository/contest_repository.go:716-730 | after the update every stored rank is the one the order gives |
| `ScoreTable.RanksAreABijection` | backend/internal/repository/contest_repository.go:716-730 | stored ranks are 1 to n, each once, in board order |
| `ScoreTable.ListShowsRanks` | backend/internal/service/contest_score_service.go:167-195 | the list of a ranked table shows 1, 2, 3 and so on, at most 100 rows |
| `ScoreTable.RanksFollowScores` | backend/internal/repository/contest_repository.go:716-730 | in a ranked table the larger total has the smaller rank, of two equal totals the one with the earlier last solve, and then the older row |
| `ScoreTable.ListShowsRows` | backend/internal/service/contest_score_service.go:167-195 | each entry of the list is a row with its stored rank, or its place if it has none |
| `ScoreTable.ListGoesDown` | backend/internal/repository/contest_repository.go:693-714 | the list goes from larger to smaller totals, and from earlier to later last solves |
| `ScoreTable.ListHoldsTheBest` | backend/internal/service/contest_score_service.go:167-195 | the list of a ranked table holds exactly the rows with a rank up to 100, in the order of their ranks |
| `ScoreTable.ScoreIsAdded` | backend/internal/repository/contest_repository.go:732-765 | a solve adds its points and a solve to every row of the team and sets its time, or stores the first row of the team |
| `ScoreLedger.ScoreService.SubmitFlag` | backend/internal/service/contest_score_service.go:57-123 | answer, tables and cache after one submission, in every branch |
| `ScoreLedger.ScoreService.UpdateDynamicScore` | backend/internal/service/contest_score_service.go:364-375 | the new points are the clamped decay of the solves counted so far |
| `ScoreLedger.ScoreService.GetScoreboard` | backend/internal/service/contest_score_service.go:125-165 | serves the cached list, or loads the list and stores it unless the store fails; rank and score are those of the first matching entry |
| `ScoreLedger.SubmitKeepsLedger` | backend/internal/service/contest_score_service.go:57-123 | one submission keeps the whole ledger invariant |
| `ScoreLedger.RunKeepsLedger` | backend/internal/service/contest_score_service.go:57-123 | after any run each team solved a challenge at most once, the k-th solve earned the clamped decay of max(0, k-1) plus the bonus for k = 0, every row is the sum and count of its correct submissions, and ranks are right |
| `ScoreLedger.DecayIff` | backend/internal/service/contest_score_service.go:364-375 | awards never rise, and stay between minimum and base, if and only if decay and points do not have opposite signs |
| `ScoreLedger.TotalsAreEarned` | backend/internal/repository/contest_repository.go:732-765 | all totals together are the awards of the solve counts |
| `ScoreLedger.SameSolvesSameTotal` | backend/internal/service/contest_score_service.go:96-107 | two runs with the same solve counts hand out the same points in all |
| `LedgerOutcomes.NothingToJudge` | backend/internal/service/contest_score_service.go:57-94 | a team that has the flag and a challenge that is not there change nothing, each with its own answer |
| `LedgerOutcomes.WrongFlag` | backend/internal/service/contest_score_service.go:96-123 | a wrong flag is stored without points, and nothing else changes |
| `LedgerOutcomes.CorrectFlag` | backend/internal/service/contest_score_service.go:96-123 | a correct one is stored with the current points, and the bonus if nobody was faster; the row of the team grows by them, ranks are renewed, and dynamic points are those of the solves so far |
| `LedgerOutcomes.SolveEarns` | backend/internal/service/contest_score_service.go:96-109 | over every run a solve earns what the challenge was worth one solve before it, in numbers, the first one with the bonus, and a wrong flag nothing |
| `LedgerOutcomes.FirstIsMine` | backend/internal/service/contest_score_service.go:145-160 | the place of a user is that of the first entry of the team, or of the user without a team, and zero without one |
| `ScoreRace.NothingLostIff` | backend/internal/repository/contest_repository.go:732-765 | over every interleaving of additions each team has the sum and count of its additions if and only if no two additions of a team without a row overlap |
| `ScoreRace.OverlapLoses` | backend/internal/repository/contest_repository.go:752-763 | two overlapping first additions of a team: the second insert is refused and its points are lost |
| `ScoreRace.AloneIsAddScore` | backend/internal/repository/contest_repository.go:732-765 | an addition nothing comes between is the single step of the ledger |
| `ScoreboardCache.RanksKept` | backend/internal/service/contest_score_service.go:96-114 | each step of submissions in flight keeps the ranks right unless one is between score and ranking |
| `ScoreboardCache.RunRanks` | backend/internal/service/contest_score_service.go:96-114 | so does every interleaving, whatever fails |
| `ScoreboardCache.QuietTableIsRanked` | backend/internal/repository/contest_repository.go:716-730 | with no submission between score and ranking the ranks are a bijection onto 1 to n in board order, and the list shows them |
| `ScoreboardCache.LostDeleteIsStale` | backend/internal/service/contest_score_service.go:234-242 | a lost delete leaves a list without the solve |
| `ScoreboardCache.OvertakenIsStale` | backend/internal/service/contest_score_service.go:134-141 | so does a reader that stores its list after a submission has begun and ended since its load |
| `ScoreboardCache.NeverStaleIff` | backend/internal/service/contest_score_service.go:96-141 | over every interleaving of submissions and split reads the cache agrees with the tables between submissions if and only if no delete is lost and no reader stores a list that a submission has passed once none is in flight |
| `ScoreboardCache.AloneIsOneStep` | backend/internal/service/contest_score_service.go:96-114 | a submission nothing overtakes leaves the tables of the ledger and no cached list |
| `ScoreboardCache.StepOf` | backend/internal/service/contest_score_service.go:96-242 | which step changes the table, the cache and the loaded lists, and how |
| `Replay.GetReplayData` | backend/internal/service/agent_battle_service.go:385-459 | one snapshot per block: its events by time, and per team the sums over all kept events up to the block |
| `Replay.GroupByBlock` | backend/internal/service/agent_battle_service.go:391-405 | the events of each block in order, and the blocks in the order found |
| `Replay.ReplayEvent` | backend/internal/service/agent_battle_service.go:425-433 | one event: its wrapped deltas are added to the entry of its team, which is created with the id 0 when missing |
| `Replay.ReplayBlock` | backend/internal/service/agent_battle_service.go:425-433 | adding wrapped deltas one by one gives the wrapped sums, also for teams that are not on the scoreboard |
| `Replay.ListTeams` | backend/internal/service/agent_battle_service.go:435-439 | every team once, by id, whatever the map order |
| `Replay.BlocksAreSorted` | backend/internal/service/agent_battle_service.go:401-406 | blocks are exactly those of the kept events, strictly increasing |
| `Replay.SnapshotIsPrefixSum` | backend/internal/service/agent_battle_service.go:419-433 | whatever other teams the events name, a team on the scoreboard has a row with the sums of its deltas over all kept events up to the block |
| `Replay.SnapshotsPartitionEvents` | backend/internal/service/agent_battle_service.go:419-450 | every kept event is in exactly one snapshot, that of its block |
| `Replay.ByTimeIsStable` | backend/internal/service/agent_battle_service.go:421-423 | events of a block go by time, ties in their given order |
| `Replay.OrderDoesNotMatter` | backend/internal/service/agent_battle_service.go:385-459 | the same events in another order give the same blocks and sums |
| `Replay.EveryTeamShownIff` | backend/internal/service/agent_battle_service.go:415-439 | a snapshot has a row for every team on the scoreboard or with an event so far if and only if every event so far with a team has it on the scoreboard, or team 0 |
| `Replay.StrangerIsNotShown` | backend/internal/service/agent_battle_service.go:425-433 | the replay of a single event of a team that is not on the scoreboard has one snapshot, without a row of that team |
| `Replay.KnownTeamsAreOrdered` | backend/internal/service/agent_battle_service.go:435-439 | while all teams are known the rows of a snapshot are strictly ordered by team id |
| `ReplayOutcomes.FieldsRead` | backend/internal/service/agent_battle_service.go:726-749 | the score is the first of score_delta, points and point_delta that holds a number, the resource the first of resource_delta, resource_change and resource, fractions cut off |
| `ReplayOutcomes.RowShowsTotals` | backend/internal/service/agent_battle_service.go:419-433 | the row of a team on the scoreboard adds up these fields over all events of the query that are of the team, within the bounds and not after the block |
| `ReplayOutcomes.EventIsShownIff` | backend/internal/service/agent_battle_service.go:391-423 | an event is shown, in the snapshot of its block, exactly when it is one of the query and its block, read as unsigned, is within the bounds |
| `ReplayOutcomes.ReplayBounds` | backend/internal/service/agent_battle_service.go:836-848 | a replay starts at its first snapshot and ends at its last, or both at the height of the round |
| `BattleScore.CountEvents` | backend/internal/service/agent_battle_score_service.go:52-80 | each map holds, per team, the counts and wrapped gains of its events |
| `BattleScore.OwnEventsDecide` | backend/internal/service/agent_battle_score_service.go:58-80 | a team's sums depend on its own events alone |
| `BattleScore.ScoreIsOwn` | backend/internal/service/agent_battle_score_service.go:95-126 | so does its score |
| `BattleScore.ComputeScores` | backend/internal/service/agent_battle_score_service.go:52-148 | the computed rows are the composite scores of the counted contracts, each once, ordered, with ranks 1 to n |
| `BattleScore.RoundScores.CalculateFinalScores` | backend/internal/service/agent_battle_score_service.go:95-160 | the rows are computed and offered to the table in rank order, which keeps those of teams it does not hold yet |
| `BattleScore.RoundScores.Upsert` | backend/internal/repository/agent_battle_repository.go:236-239 | a fresh row is inserted, or refused when its team has one in the round |
| `BattleScore.AllSavedIff` | backend/internal/service/agent_battle_score_service.go:136-160 | every computed row is saved, so that the saved ranks are 1 to n, if and only if no team has two counted contracts |
| `BattleScore.GapFreeIff` | backend/internal/service/agent_battle_score_service.go:136-160 | the saved ranks have no gap if and only if the refused rows all come last |
| `BattleScore.BestRowIsSaved` | backend/internal/service/agent_battle_score_service.go:136-160 | of several rows of a team the saved one has the best rank |
| `BattleScore.SettlingAgainIsLost` | backend/internal/service/agent_battle_score_service.go:136-160 | settling a round again saves nothing for the teams already there |
| `BattleOutcomes.CountsAreNumbers` | backend/internal/service/agent_battle_score_service.go:58-76 | the counts are the numbers of attacks, defenses, and penalties and errors of the team, in 64 bits |
| `BattleOutcomes.GainsAreSums` | backend/internal/service/agent_battle_score_service.go:63-80 | the gains add up the larger of score and resource of its attacks and defenses, and its positive resources over all events |
| `BattleOutcomes.ScoreIsTheRecord` | backend/internal/service/agent_battle_score_service.go:178-243 | while nothing overflows a score is the weighted sum of the record of the team, in numbers, and never less than 0 |
| `BattleOutcomes.RowsGoByScore` | backend/internal/service/agent_battle_score_service.go:95-148 | one row for each contract with a team and an address, ranks in order, scores never rising, equal scores by balance |
| `BattleOutcomes.HeldIsTheLarger` | backend/internal/service/agent_battle_score_service.go:178-206 | the resource held is the larger of the whole thousandths of a token and what the team collected |
| `ExchangeSort.Sort` | backend/internal/service/agent_battle_score_service.go:128-134 | the exchange sort permutes the array into the order of any ranking relation |
| `BattleScore.SortScores` | backend/internal/service/agent_battle_score_service.go:128-134 | the exchange sort permutes the array into descending score, then balance |
| `BattleScore.RankScores` | backend/internal/service/agent_battle_score_service.go:128-145 | ranks 1 to n over a permutation of the scores |
| `CompositeScore.TotalWrapsOnce` | backend/internal/service/agent_battle_score_service.go:229-235 | 64-bit evaluation of the total is the exact total wrapped once |
| `CompositeScore.FittingIsExact` | backend/internal/service/agent_battle_score_service.go:208-243 | whenever the exact total fits 64 bits the score is the exact formula cut off at 0 |
| `CompositeScore.BoundedIsExact` | backend/internal/service/agent_battle_score_service.go:208-243 | with weights up to 1000 and metrics up to 2^49 nothing overflows |
| `CompositeScore.CompositeIsExactIff` | backend/internal/service/agent_battle_score_service.go:229-243 | the machine score is the exact one exactly when the exact total fits 64 bits, is negative and in a lower half of its word, or is a whole number of words above the largest integer |
| `CompositeScore.HugeBalanceScoresZero` | backend/internal/service/agent_battle_score_service.go:186-191 | a token metric at the 64-bit maximum scores 0 under every even resource weight |
| `CompositeScore.CompositeGrows` | backend/internal/service/agent_battle_score_service.go:208-243 | while both exact totals fit 64 bits and the resource weight is not negative, a better record never scores less, and no score is negative |
| `CompositeScore.NormalizeGrows` | backend/internal/service/agent_battle_score_service.go:178-192 | normalisation is monotone over all integers, positive exactly for positive balances, and fits 64 bits |
| `CompositeScore.ResourceHeldGrows` | backend/internal/service/agent_battle_score_service.go:194-206 | the held resource is at least the normalised balance, monotone in balance and gain, and fits |
| `FinalRank.AddUp` | backend/internal/service/agent_battle_service.go:945-958 | the map holds every scored team with the wrapped sum of its scores |
| `FinalRank.SortRanks` | backend/internal/service/agent_battle_service.go:970-976 | the exchange sort permutes the array into descending totals |
| `FinalRank.GetFinalRank` | backend/internal/service/agent_battle_service.go:942-988 | every scored team once, ranks 1 to n, totals descending |
| `FinalRank.RankingConserves` | backend/internal/service/agent_battle_service.go:945-958 | the totals of the ranking add up to all scores of all rounds, modulo the word size |
| `FinalRank.RankingShowsSums` | backend/internal/service/agent_battle_service.go:945-988 | where no sum overflows every scored team shows its exact sum in exactly one row |
| `RuntimeCompiler.BuildExperimentRuntimeState` | backend/internal/service/env_manager_service.go:869-985 | all loops together yield the compiled state; the primary instance is the workspace |
| `RuntimeCompiler.CollectPortsForTools` | backend/internal/service/env_manager_service.go:1605-1618 | the default ports of the tools, each once |
| `RuntimeCompiler.PortForTargetTool` | backend/internal/service/env_manager_service.go:1673-1687 | the port of a tool on an instance |
| `RuntimeCompiler.OfferTools` | backend/internal/service/env_manager_service.go:901-909 | a node offers the tools nothing offered before |
| `RuntimeCompiler.AppendServices` | backend/internal/service/env_manager_service.go:911-925 | services with their companions; a service takes its tool over |
| `RuntimeCompiler.ApplyTool` | backend/internal/service/env_manager_service.go:958-979 | one entry of the tool list, with the search for its instance |
| `RuntimeCompiler.BaseIsSound` | backend/internal/service/env_manager_service.go:869-956 | workspace, nodes, services and simulation only give targets whose instance lists the port |
| `RuntimeCompiler.BaseIsProvided` | backend/internal/service/env_manager_service.go:883-956 | who provides each tool before the list is read: the last service that brings it, else the workspace, else the first node, with the simulation in place of a missing or workspace visualization |
| `RuntimeCompiler.SoundIff` | backend/internal/service/env_manager_service.go:869-985 | every target names an instance that lists its port through all later edits if and only if no deciding tool entry dangles |
| `RuntimeCompiler.TargetsAreDecided` | backend/internal/service/env_manager_service.go:958-979 | earlier targets stay, the first offering entry decides the rest, and nothing else has a target |
| `RuntimeCompiler.TargetsResolve` | backend/internal/service/experiment_service.go:944-967 | with distinct keys, and no deciding entry dangling, the instance found by key is the one that lists the port |
| `RuntimeCompiler.DanglingTargetIsKept` | backend/internal/service/env_manager_service.go:958-979 | a deciding entry that names no instance leaves a target nothing answers |
| `RuntimeCompiler.InstancesListed` | backend/internal/service/env_manager_service.go:869-956 | exactly which instances are produced, in order, and that later edits only touch ports and tools |
| `RuntimeCompiler.EveryInstanceHasAPod` | backend/internal/service/env_manager_service.go:1240-1379 | every instance has a pod under its recorded name and ports; a node runs the image of a node of its key |
| `RuntimeOutcomes.InstancesInOrder` | backend/internal/service/env_manager_service.go:869-1155 | the workspace, one instance per node, each service with its database and file store, and a simulation exactly when a visualization is used and neither a service nor a node offers it, with all names, kinds and recorded images |
| `RuntimeOutcomes.PodOfEveryInstance` | backend/internal/service/env_manager_service.go:1240-1379 | the workspace runs the image of the blueprint, a node and a service that of the first one of their key, a companion that no blueprint service is named after the image of its compiler line, and the simulation the default one |
| `RuntimeOutcomes.EntriesAreListed` | backend/internal/service/env_manager_service.go:958-979 | an entry of the tool list adds its tool to the instance it names, and no instance loses a tool |
| `RuntimeOutcomes.ServiceTakesOver` | backend/internal/service/env_manager_service.go:912-926 | the last service that brings a tool has its target, at the port of the tool on that service |
| `RuntimeOutcomes.WorkspaceThenNodes` | backend/internal/service/env_manager_service.go:884-909 | without such a service the workspace has the target of its tools, and else the first node that lists the tool |
| `RuntimeOutcomes.SimulationOffers` | backend/internal/service/env_manager_service.go:928-956 | a visualization that is used and not offered has its target on the simulation |
| `RuntimeOutcomes.PortsOfTools` | backend/internal/service/env_manager_service.go:1605-1644 | the ports of some tools are those they listen on, by first appearance and each once |
| `RuntimeOutcomes.PortsOfImage` | backend/internal/service/runtime_bootstrap.go:363-379 | the ports of the blueprint, or else those of the tools, behind the ones that geth and chainlink always have |
| `RuntimeOutcomes.PortOfTool` | backend/internal/service/env_manager_service.go:1673-1687 | a tool is reached at its own port if the instance has it, else at the first one it has |
| `Masking.MaskSensitiveFields` | backend/internal/middleware/audit.go:160-183 | the loop over the keys masks the whole tree, for any way of lower-casing keys |
| `Masking.MaskSensitiveSlice` | backend/internal/middleware/audit.go:186-195 | the same through arrays |
| `Masking.SensitiveIsMasked` | backend/internal/middleware/audit.go:170-174 | behind every sensitive key there is the mask |
| `Masking.NothingLeaks` | backend/internal/middleware/audit.go:160-195 | no path through the masked tree gets past a sensitive key |
| `Masking.RestIsUnchanged` | backend/internal/middleware/audit.go:160-195 | paths without sensitive keys keep their leaf, their keys or their length |
| `Masking.MaskTwice` | backend/internal/middleware/audit.go:160-195 | masking again changes nothing |
| `Masking.UnchangedIffClean` | backend/internal/middleware/audit.go:160-195 | a tree is left alone if and only if nothing is left to hide in it |
| `Masking.MaskOf` | backend/internal/middleware/audit.go:160-195 | the six keys and the mask behind them, everything else in its place |
| `Orchestration.FinalizeOrchestration` | backend/internal/service/challenge_runtime_policy.go:92-137 | the finished orchestration, for every profile |
| `Orchestration.EnsureList` | backend/internal/service/challenge_runtime_policy.go:161-199 | both list loops: defaults for an empty list, else each text once without the empty one |
| `Orchestration.EnsureRuntimeServices` | backend/internal/service/challenge_runtime_policy.go:139-159 | normalised services, and a chain where single-chain has no rpc |
| `Orchestration.DedupShape` | backend/internal/service/challenge_runtime_policy.go:166-178 | each text once, the empty one never, in order of first appearance |
| `Orchestration.EnsureTwiceIff` | backend/internal/service/challenge_runtime_policy.go:161-199 | the exact lists on which the default rule is not a fixpoint |
| `Orchestration.ServicesTwice` | backend/internal/service/challenge_runtime_policy.go:139-159 | services are a fixpoint, and single-chain has rpc |
| `Orchestration.FinalizeTwiceIff` | backend/internal/service/challenge_runtime_policy.go:92-199 | finalising twice is finalising once if and only if the profile is static or unknown, or tools and entries are each empty or hold a text |
| `Orchestration.ResolveIsInverseIff` | backend/internal/service/challenge_runtime_policy.go:73-137 | the profile can be read back from a finished orchestration if and only if it is a known one |
| `Orchestration.SavedAgain` | backend/internal/service/challenge_service.go:204-208 | saving a finished challenge again changes nothing |
| `Orchestration.SingleChainHasRpc` | backend/internal/service/challenge_runtime_policy.go:139-159 | single-chain results expose rpc; the chain is added only behind services that do not |
| `OrchestrationOutcomes.ProfileResolved` | backend/internal/service/challenge_runtime_policy.go:73-90 | which profile an orchestration has when none is given |
| `OrchestrationOutcomes.FinishedOf` | backend/internal/service/challenge_runtime_policy.go:92-199 | mode, environment, fork, topology, time limit, tools and entries of the finished orchestration, for each profile |
| `OrchestrationOutcomes.ServicesCompleted` | backend/internal/service/challenge_runtime_policy.go:139-159 | every service is completed in its place from the catalogue, and a chain follows where a single chain exposes no rpc |
| `Teams.ContestService.CreateTeam` | backend/internal/service/contest_team_service.go:13-56 | the tables and the outcome, error branches in order |
| `Teams.ContestService.JoinTeam` | backend/internal/service/contest_team_service.go:59-95 | the tables and the outcome, error branches in order |
| `Teams.ContestService.RegisterContest` | backend/internal/service/contest_team_service.go:98-141 | the tables and the outcome, error branches in order |
| `Teams.ContestService.LeaveTeam` | backend/internal/service/contest_team_service.go:217-226 | the tables and the outcome, error branches in order |
| `Teams.ContestService.InviteTeamMember` | backend/internal/service/contest_team_service.go:229-254 | the tables and the outcome, error branches in order |
| `Teams.ContestService.RemoveTeamMember` | backend/internal/service/contest_team_service.go:257-269 | the tables and the outcome, error branches in order |
| `Teams.ApplyKeepsFair` | backend/internal/service/contest_team_service.go:13-269 | each operation keeps the membership rules |
| `Teams.RunIsFair` | backend/internal/service/contest_team_service.go:13-269 | over all runs nobody is in two teams of a contest, every leader is a member, and no team exceeds its size |
| `Teams.LeavingIsFinal` | backend/internal/model/contest.go:178-183 | who leaves or is removed is never again a live member of that team, because the unique index keeps the soft-deleted row |
| `Teams.OutCannotReturn` | backend/internal/service/contest_team_service.go:59-95 | joining and invitations fail for such a user |
| `Teams.NeverOverfullIff` | backend/internal/service/contest_team_service.go:98-141 | a positive limit on participants holds over every run if and only if the contest is solo |
| `TeamOutcomes.CreateOutcome` | backend/internal/service/contest_team_service.go:13-56 | a team needs an open contest of teams and nobody who takes part already; the reason of every refusal |
| `TeamOutcomes.JoinOutcome` | backend/internal/service/contest_team_service.go:59-95 | joining needs room in a team of an open contest, nobody who takes part, and nobody who has been in the team before |
| `TeamOutcomes.RegisterOutcome` | backend/internal/service/contest_team_service.go:98-141 | registering needs places left among the live members, and makes a team only in a solo contest |
| `TeamOutcomes.LeaveOutcome` | backend/internal/service/contest_team_service.go:217-226 | everybody but the leader can leave; the rows of the user are marked |
| `TeamOutcomes.InviteOutcome` | backend/internal/service/contest_team_service.go:229-254 | only the leader invites, into a team with room, somebody who neither takes part nor has been in the team |
| `TeamOutcomes.RemoveOutcome` | backend/internal/service/contest_team_service.go:257-269 | only the leader removes, and never the leader |

## Left out

- Reads and writes that always succeed: those of `Teams` and `RuntimeCompiler`, and in `ScoreLedger`
  and `ScoreboardCache` all but the store and the delete of the cached scoreboard. In `ScoreRace`
  and `BattleScore` an insert fails when a unique key refuses it.
- Challenge environments: what a request does after its read is one step. The orchestration does
  not change; a cleanup that cannot read it counts as one whose deletions fail. A row that expired
  keeps its pods (`ChallengeEnv.RunningEnvsAreWhole` says so) and is outside the leak theorem.
- Sessions: each creation, stop and end of a wait is one step; pause, resume, snapshots, expiry,
  status polling and the member endpoints; ids of environments are fresh, so two created in the
  same second by one user are not covered.
- Rounds: administrators adding rounds, the current-round query, the chain's own pods, and score
  calculation at the end of a round (modelled separately in `BattleScore`).
- Submissions: the solved-check and the insert of one team are one step, and settings do not change
  during a run; which flag is right is a parameter. `ScoreLedger` adds a score in one step;
  `ScoreRace` says when that is right.
- Rows that tie in every ordering column keep the order of their ids; the database may choose
  another order.
- Token counts, decay and points use exact arithmetic; rounding of floating point is not modelled,
  nor are conversions of floats outside the integer range.
- Integers are unbounded except in `Replay`, `CompositeScore`, `BattleScore` and `FinalRank`,
  which model 64-bit wrap-around.
- Trimming, and lower-casing outside `Masking`, cover ASCII only.
- The other columns of a saved battle score, and a cut of its token balance to its column.
- Masking works on values: a decoded JSON body is a tree, so update in place and aliasing of maps
  are not modelled.
- The event query of a round and the chain's balances are parameters; so are the aliases images
  resolve to, the default images, and the answers of Etherscan. Decoding a multi-file source is a
  given list of files.
- Environment variables, resources, probes and commands of pods; display names, descriptions and
  proxy routes.
- Permission checks and tenant filters; whether a contest is accessible and open is a parameter.
- Normalisation of blueprints before they are compiled: `RuntimeCompiler` takes any blueprint.
- HTTP handlers, authentication, configuration loading, logging, the frontend, and the remaining
  services: they would only add easy members.
