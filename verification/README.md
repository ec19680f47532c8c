# Host coordination, transport and file formats: models and proofs

A Dafny model of the parts of the provider and its executor that let many processes share one host, and of the byte
formats they exchange, with proofs of what those parts promise. `dafny verify dfyconfig.toml` checks everything.

The parts are:

- **Admission journal** (`Locks`, `Admission*`, `Journal`). Executor processes share a host through plain files: a
  record and an index per operation and a claim per lock, guarded by one file lock per host. `Admission` is an event
  machine in which every file write, every removal, every decision under the lock and every change of the outside world
  (a process starts or dies, the host reboots, an I/O error ends a section) is one step, so a process can crash between
  any two file operations. `Journal` is the same protocol as a class whose methods are the loops of the executor; each
  of its file operations is one event of the machine.
- **Reboot** (`Reboot*`, `RestartHost`). The resumable restart of a host over a journal of two files, again as a machine
  in which a run can die between the two writes, and as a class whose `Restart` method is one whole run.
- **Session** (`Session*`). The monitor with its call count and two single-flight guards, together with the mutex
  BootstrapMu of the code that uses it, over any number of threads; `SessionRuntimes` is the monitor as a class, one
  method per section under its lock.
- **Tunnel** (`Bytes`, `Record`, `Tunnel`, `Channel`, `Handshake*`). The encrypted channel against a base that may hand
  over any bytes whatever, compressed records on top of it, and the two handshake programs under every schedule.
- **Crontab** (`CrontabFile`, `CrontabNormal`, `CrontabEdit`, `CrontabFrame`, `CrontabReadBack`, `CrontabConfig`). The
  parser and printer, the edits of managed entries, what a written entry reads as, and what a configuration stands for.
- **Hosts file** (`HostsFile`), **connection pool** (`Pool`), **upload through the shell** (`Shell`, `Upload`),
  **tail buffer** (`TailBuffer`) and **wildcard matching** (`Wildcard`).
- `Text` holds the string functions of the Go library that the parsers use.

Machines come with `Next` (one step, or None where it cannot happen) and `Exec` (a whole run). Fields of a machine state
that only record history are named as such where they are declared; no step reads them to decide anything.

## What the proofs found

- A grant given because a record already says running (operation_journal.go:105-107) is backed by claims on disk as long
  as no activation of an operation with a living owner is cut short, by an I/O error or by the death of another process
  that works on it, while one of its locks has no claim file. In `AdmissionCrash` that happens, and in the end two
  operations are granted at once that both lock the whole host; `AdmissionTrust.CleanIsExactForGrants` shows that the
  condition is exact for operations that can be found by their request. That claims are none or the whole set, and that a
  release leaves none behind, have conditions of the same kind; `AdmissionGrants.CleanIsExact` shows for each of the
  three that an event keeps it exactly if the condition holds. `AdmissionLeaks` has a run in which half of the claims of
  an operation are left. The grants of completed activations never conflict in any run, without a condition.
- With the third condition the journal cannot deadlock: claims of living owners belong to running operations only, so a
  poll is granted once the others have released or died (`Journal.OperationJournal.Poll`). Without it a released
  operation stays in the way (`AdmissionGrants.CutReleaseIsInTheWay`, and in `AdmissionLeaks` a poll is refused for that
  reason while nobody runs); a dead operation is in the way when its pid is in use again in the same boot
  (`AdmissionGrants.ReusedPidIsInTheWay`).
- The lock that an action without a plan of its own gets is on the whole host (locks.go:13-26), and a lock on the host
  excludes all others, shared ones too (operation_journal.go:572-574). So two reads without planned locks exclude each
  other, although their locks are shared; only planned keys are shared by readers (`Locks.ReadersShare`).
- The test for a missing proof at restart_host.go:183 never fires on a journal of its own: from the second phase on both
  parts of the proof are on record.
- All callers of EnsureExecutor hold BootstrapMu, so the follower branch of its guard (manager.go:311-319) and the second
  look for a client (manager.go:326-339) are never reached.
- A crontab line reaches a normal form exactly when its schedule fields have no white space at their ends; the scanner
  splits at space and tab only, but fields are trimmed of all white space when they are printed.
- Removing a managed crontab entry hands the job below it to a job-less marker above it, if there are both; in all other
  cases nothing else changes.
- A configured crontab entry is found again unless its minute starts with `#` or `@` or makes the line look like an
  environment assignment.
- In the tail buffer the branch that empties the buffer before an append (ssh.go:796-797) is never taken.

## Model

| member | source | states |
|---|---|---|
| `Locks.DedupLocks` | executor/runtime/operation_journal.go:545-566 | the loop both normalisers share computes `Dedup`: first usable lock of every key and mode, in order |
| `Locks.NormalizePlannedLocks` | providers/shared/engine/locks.go:36-63 | the planner's normaliser: deduplicated locks, or the default lock of the action when none is usable |
| `Locks.SendLockSet` | providers/shared/hostsession/manager.go:1412-1425 | planned, sent element by element and normalised again: the executor stores exactly the planned set, which is not empty and of which every lock excludes a restart |
| `Locks.DedupIsNormalized` | executor/runtime/operation_journal.go:545-566 | the result has no empty key and no key-and-mode pair twice |
| `Locks.DedupKeepsTags` | executor/runtime/operation_journal.go:545-566 | a key-and-mode pair survives exactly when some usable lock of the input has it |
| `Locks.DedupOfNormalized` | executor/runtime/operation_journal.go:545-566 | normalising a normalised set changes nothing |
| `Locks.PlannedIsNormalized` | providers/shared/engine/locks.go:36-63 | for every action and every planner output the planned set is normalised and not empty |
| `Locks.ExecutorKeepsPlan` | executor/runtime/operation_journal.go:545-566 | the executor normalises a planned set to itself: planner, RPC and executor see one lock set |
| `Locks.ConflictIsSymmetric` | executor/runtime/operation_journal.go:568-588 | conflict does not depend on which lock is the active one |
| `Locks.ConflictExactly` | executor/runtime/operation_journal.go:568-588 | two locks exclude each other exactly if both name a key and either one is on the host or its reboot, or they are on one key and not both shared |
| `Locks.PlannedHolds` | providers/shared/engine/locks.go:36-63 | every usable lock of a plan is in the planned set under its own key, with its own mode or else the mode of the action: shared for validate, read, import and data_read, exclusive for all others |
| `Locks.ReadersShare` | providers/shared/engine/locks.go:27-63 | any two plans of reading actions that leave the modes to the action and do not name the host may be held at once |
| `Locks.WritersExclude` | providers/shared/engine/locks.go:27-63 | the plan of any other action excludes every plan that has one of its keys |
| `Locks.RestartLocksAreStored` | providers/shared/hostsession/restart_host.go:79-82 | the executor stores the two locks of a host restart as they are sent |
| `Locks.RestartExcludesEveryPlan` | providers/shared/hostsession/restart_host.go:79-82 | whatever an action plans, the lock set that reaches the journal conflicts with the lock set of restart-host |
| `AdmissionSafety.EventKeepsInv` | executor/runtime/operation_journal.go:94-229 | every file write, removal, decision, crash, process start and reboot keeps the invariant of the journal |
| `AdmissionSafety.RunKeepsInv` | executor/runtime/operation_journal.go:94-502 | the invariant holds after every run of any number of processes, with crashes between any two file operations |
| `AdmissionSafety.ClaimFilesNeverConflict` | executor/runtime/operation_journal.go:138-229 | in every reachable state the claim files of distinct operations never conflict, whether or not their owners are alive |
| `AdmissionSafety.ActivatedNeverConflict` | executor/runtime/operation_journal.go:138-182 | in every run, any two distinct operations granted by an activation and not released, with continuously live owners, have claims on disk for all their locks, and their lock sets do not conflict |
| `AdmissionSafety.ActivatedMayShare` | executor/runtime/operation_journal.go:138-182 | in every run, of two such operations none holds a lock on the host or its reboot if the other holds any lock, and a key that both hold both hold shared |
| `AdmissionSafety.ClaimHoldsLock` | executor/runtime/operation_journal.go:347-350 | a backed operation has for each of its locks a claim file at the path made of operation, key and mode, and it names that lock |
| `AdmissionSafety.RestartExcludesAll` | providers/shared/hostsession/restart_host.go:79-92 | in every run, while any claim file of a restart-host operation is on disk, no other planned operation can become running: its activation comes neither to the record nor to the index, a claim or the grant |
| `AdmissionSafety.ClashStopsActivation` | executor/runtime/operation_journal.go:144-150 | no activation gets past the conflict scan beside a claim that clashes with it |
| `AdmissionGrants.RestartExcludesGrants` | providers/shared/hostsession/restart_host.go:79-92 | nor is such an operation granted by its record, nor does the record of one with a living owner say running, where no activation was cut short at a lock without claim file |
| `AdmissionSafety.NewClaimIsCompatible` | executor/runtime/operation_journal.go:161-175 | writing a claim after the conflict scan keeps all claim files compatible |
| `AdmissionSafety.DropStaleKeeps` | executor/runtime/operation_journal.go:231-272 | giving up an operation of a dead owner keeps the invariant; no live owner is given up |
| `AdmissionSafety.KeptIsNotDead` | executor/runtime/operation_journal.go:237-245 | the scan passes over an index only if its operation is over, its owner counts as active, or it is of the pid the scan takes for its own |
| `AdmissionSafety.SweepClaimKeeps` | executor/runtime/operation_journal.go:383-386 | removing a dead owner's claim during the scan keeps the invariant |
| `AdmissionSafety.DieKeeps` | executor/runtime/operation_journal.go:535-543 | a process death at any point, inside or outside the admission lock, keeps the invariant |
| `AdmissionGrants.CleanIsExact` | executor/runtime/operation_journal.go:138-211 | at each of three levels an event keeps the invariant exactly if it is clean. Not clean is an I/O error, or the death of a process that works for a living owner: in an activation while a lock has no claim file; in a release, for all-or-nothing, while some but not all claim files are gone, and for leaving nothing behind, while any is left |
| `AdmissionGrants.CleanRunKeepsGrantInv` | executor/runtime/operation_journal.go:94-299 | so over clean runs of a level every grant, also one given because the record says running, is backed by its whole claim set, and operations at rest are as the level asks |
| `AdmissionGrants.GrantedNeverConflict` | executor/runtime/operation_journal.go:94-124 | unless an activation was cut short at a lock without claim file, any two distinct granted operations have full claim sets on disk, no lock on the host or its reboot beside another, and keys in common only if both hold them shared |
| `AdmissionGrants.AdmissionIsAllOrNothing` | executor/runtime/operation_journal.go:138-211 | over clean runs of that level, outside the admission lock, the claims of an operation with a living owner are none or exactly its lock set, and the whole set if its record says running |
| `AdmissionGrants.ClaimsFollowTheRecord` | executor/runtime/operation_journal.go:184-211 | over clean runs of the third level they are the whole lock set if its record says running, and none if not: a released operation leaves no claim |
| `AdmissionGrants.OnlyRunningOperationsAreInTheWay` | executor/runtime/operation_journal.go:213-229 | what stops an activation is a running operation, or a dead one whose owner passes for active |
| `AdmissionGrants.NothingInTheWay` | executor/runtime/operation_journal.go:213-229 | when all other operations with living owners do not say running, and no claim of a dead owner passes for active, nothing is in the way of any operation |
| `AdmissionGrants.NobodyElseClaims` | executor/runtime/operation_journal.go:213-229 | under the same conditions every claim of an active owner is one of the polled operation itself |
| `AdmissionGrants.RebootFreesTheHost` | executor/runtime/operation_journal.go:528-543 | after a reboot no claim of an earlier operation is in the way of any other, over any number of further steps, even if the pid of its owner is in use again; no process outlives it |
| `AdmissionGrants.DeathFreesItsClaims` | executor/runtime/operation_journal.go:383-386 | after the death of a process no claim of its operations is in the way of any other, over any number of further steps, until the pid is taken again |
| `AdmissionGrants.CutBreaksAllOrNothing` | executor/runtime/operation_journal.go:138-211 | the condition of all-or-nothing is needed: an event that is not clean leaves, outside the admission lock, an operation of a living owner whose claims are neither none nor the whole set, or are none while its record says running |
| `AdmissionGrants.CutReleaseIsInTheWay` | executor/runtime/operation_journal.go:184-211 | a release cut while a claim file is left leaves that claim in the way of every operation that it excludes, although the record says released |
| `AdmissionGrants.ReusedPidIsInTheWay` | executor/runtime/operation_journal.go:535-543 | when the owner of a running operation dies and its pid is taken again in the same boot, a claim of the dead operation is in the way of every operation that its locks exclude |
| `AdmissionLeaks.PollRefusedWhileNobodyRuns` | executor/runtime/operation_journal.go:138-211 | a concrete run: a process dies after the record of the release of an operation of another process; the next poll of a queued operation is refused while no record says running and every owner is alive |
| `AdmissionLeaks.ClaimsCanBeHalf` | executor/runtime/operation_journal.go:161-175 | a concrete run: an activation of two locks is cut after its first claim, and outside the admission lock the claims are neither none nor the whole set |
| `AdmissionTrust.CleanIsExactForGrants` | executor/runtime/operation_journal.go:94-182 | for an operation that has its index and a non-blank request, an event is clean at the first level exactly if in every clean continuation every grant is backed by its whole claim set |
| `AdmissionTrust.CutIsGranted` | executor/runtime/operation_journal.go:105-175 | after a harmful cut of such an activation some clean continuation grants it while a lock has no claim file |
| `AdmissionTrust.RecordIsTrusted` | executor/runtime/operation_journal.go:94-107 | from any state outside the admission lock, a call with the non-blank request of an indexed operation of a living owner that says running can grant it without one more claim |
| `AdmissionGrants.EventTouches` | executor/runtime/operation_journal.go:231-299 | an event changes the claims and the record of an operation with a live owner only while a section works on that operation |
| `AdmissionCrash.ReachCrashed` | executor/runtime/operation_journal.go:94-182 | a concrete run: a second process polls an operation of a live owner and dies after the record, before the claims |
| `AdmissionCrash.GrantWithoutClaims` | executor/runtime/operation_journal.go:105-107 | from there the next call with the request is granted by the running record while no claim of the operation is on disk |
| `AdmissionCrash.GrantedCanConflict` | executor/runtime/operation_journal.go:105-182 | and then a second operation is activated: two unreleased operations with living owners are granted at once although their lock sets conflict |
| `AdmissionRetry.SerialRunKeepsRetryInv` | executor/runtime/operation_journal.go:436-502 | with serialised calls, no two indexed operations ever carry the same non-blank request id, and every open operation has its index and its record |
| `AdmissionRetry.RetryFindsTheOpenOperation` | executor/runtime/operation_journal.go:443-452 | while an operation is open, a call with its request id under its journal key can neither create a second record nor settle on another operation |
| `Journal.OperationJournal.Acquire` | executor/runtime/operation_journal.go:94-124 | resumes exactly an operation whose record said running, at once and without touching a claim; fails the operation of a cancelled caller; otherwise grants exactly when every live claim of another operation may be shared, with the full claim set on disk |
| `Journal.OperationJournal.FindOrCreate` | executor/runtime/operation_journal.go:436-483 | returns an indexed operation of the request under this journal key with its record as it was, or a new queued one; a new one only if no readable operation of the request that is not given up was indexed; no claim of a live owner goes |
| `Journal.OperationJournal.FindByRequest` | executor/runtime/operation_journal.go:485-502 | finds an indexed operation of the request whose record is readable; if there was none, no index of the host carries the request any more |
| `Journal.OperationJournal.AbandonStale` | executor/runtime/operation_journal.go:231-272 | gives up exactly the indexed active operations whose owners the scan judges dead, its own pid excepted: their indexes and claims go, their records are abandoned or, where another key sealed them, removed; nothing else changes, and every operation still indexed as queued, running or recovering is of a live owner or of the scanning pid |
| `Journal.OperationJournal.GiveUp` | executor/runtime/operation_journal.go:247-269 | the same for one operation; no claim of a live owner goes |
| `Journal.OperationJournal.ConflictsLocked` | executor/runtime/operation_journal.go:213-229 | leaves exactly the claims of live owners and answers whether one of them, of another operation, conflicts |
| `Journal.OperationJournal.TryActivate` | executor/runtime/operation_journal.go:138-182 | granted exactly if every claim of a live owner of another operation may be shared with every lock asked for: other keys, none of them the host or its reboot, or both shared; afterwards the claims are the live ones and, when granted, the operation's own whole set, and records and index are those after the stale operations were given up, with the operation running when granted |
| `Journal.OperationJournal.Poll` | executor/runtime/operation_journal.go:94-124 | the protocol does not deadlock: once all other claim holders have released or died, and no claim of the dead passes for active, the next call with the request of a queued operation finds such an operation and is granted, with the full claim set on disk unless its owner died while it ran |
| `Journal.OperationJournal.Finish` | executor/runtime/operation_journal.go:184-211 | removes the operation's claims and index, sets its record and touches nothing else |
| `RebootSafety.RunKeepsInv` | executor/runtime/reboot_journal.go:45-146 | the two journal files and the driver agree after any run, with crashes between the two writes |
| `RebootSafety.IssuedAtMostOnce` | providers/shared/hostsession/restart_host.go:205-219 | over any number of aborted and resumed runs the issue step is entered at most once per operation id, hence with one command at most |
| `RebootSafety.IssueFollowsProof` | providers/shared/hostsession/restart_host.go:164-219 | it is entered only with the issued phase, the pre-reboot proof and the non-empty command on record in both files, and that command is the one it runs |
| `RebootSafety.RequestedCommandIsIssued` | providers/shared/hostsession/restart_host.go:157-219 | a command named by the request is kept in every copy of the entry over all runs, and no other one is ever issued for the operation |
| `RebootSafety.NoPhaseIsSkipped` | providers/shared/hostsession/restart_host.go:164-330 | the current record moves to the very next phase or to failed, and is completed from the last phase only |
| `RebootSafety.RepeatedCallChangesNothing` | executor/runtime/reboot_journal.go:125-146 | a journal call repeated because its answer was lost writes both files as they are |
| `RebootSafety.SuccessIsProved` | providers/shared/hostsession/restart_host.go:244-330 | every successful return leaves a completed record whose post boot id differs from its pre boot id and whose stable id is the one proved, and nothing later changes it |
| `RebootSafety.RankNeverFalls` | providers/shared/hostsession/restart_host.go:440-467 | the phase rank of a current record never falls up to its removal; a failed one stays failed |
| `RebootSafety.RemovedOnlyWhenCompleted` | executor/runtime/reboot_journal.go:125-141 | the current file goes away only when its operation is completed |
| `RestartHost.Host.Update` | executor/runtime/reboot_journal.go:125-146 | one journal update: the operation file takes the change, the current file follows or, when completed, is removed |
| `RestartHost.Host.PrepareJournal` | executor/runtime/reboot_journal.go:45-86 | resumes the current entry whatever its phase, refuses a failed one, and creates a planned entry when there is none |
| `RestartHost.Host.TakeProof` | providers/shared/hostsession/restart_host.go:164-185 | records the host proof before anything else; fails the operation without one |
| `RestartHost.Host.PrepareTarget` | providers/shared/hostsession/restart_host.go:187-203 | the command on record, or else the one found on the host, is recorded in both files unless that phase is behind |
| `RestartHost.Host.IssueReboot` | providers/shared/hostsession/restart_host.go:205-219 | marks the phase first, then enters the issue step exactly once with the recorded command, and not at all when the phase is behind |
| `RestartHost.Host.AwaitHost` | providers/shared/hostsession/restart_host.go:244-282 | the reconnect loop stops at the first pass that decides, or after the last pass |
| `RestartHost.Host.FinishReboot` | providers/shared/hostsession/restart_host.go:284-330 | after the proof the operation completes unless settling, the executor or the cleanup fails |
| `RestartHost.Host.FailReboot` | providers/shared/hostsession/restart_host.go:488-498 | leaves both files failed with this error if the journal takes it, and everything as it was if not |
| `RestartHost.Host.Restart` | providers/shared/hostsession/restart_host.go:126-334 | an undisturbed run succeeds exactly when the answers of the host allow it from the phase it resumes in; then the record is completed with the proof of a pass, else the current record says failed if the journal took it; it enters the issue step once if it gets there before that phase is behind, with the command of the entry or else the one found on the host, and otherwise not at all; a completed record names that command |
| `RestartHost.JudgedByIdentityAndBoot` | providers/shared/hostsession/restart_host.go:421-431 | a pass ends the loop exactly if the host has another identity, or has rebooted and is ready; the proof is the same identity with another boot id |
| `RestartHost.Decisive` | providers/shared/hostsession/restart_host.go:264-282 | the first pass that decides, when there is one: the host is another one, or it proved the reboot and is ready |
| `SessionSafety.RunKeepsInv` | providers/shared/hostsession/session_runtime.go:30-206 | after any run of any number of threads: BootstrapMu has one owner, each guard one leader, the call count is the number of counted threads |
| `SessionSafety.NoCallAtTeardown` | providers/shared/hostsession/manager.go:1290-1295 | when a safe reset stands before the teardown the call count is zero, no thread is counted, and no step of any thread can change that |
| `SessionSafety.TearDownLasts` | providers/shared/hostsession/manager.go:1290-1380 | from the teardown on there is no client, and no thread stands ready, reserves or runs a call, until a new ensure round has ended well; nor is the session open until an executor was started again |
| `SessionProgress.ResetTellsTheTruth` | providers/shared/hostsession/manager.go:1273-1303 | a reset round ends without an error only after it has closed the session and dropped its client |
| `SessionProgress.ResetReturnsTheMutex` | providers/shared/hostsession/manager.go:1274-1288 | a thread that comes to a reset with BootstrapMu leaves it with BootstrapMu, and one that comes without it leaves without it |
| `SessionProgress.EpochCountsTeardowns` | providers/shared/hostsession/manager.go:1295 | the epoch that calls are compared with is the number of teardowns so far |
| `SessionProgress.NoTeardownDuringACall` | providers/shared/hostsession/manager.go:994-1010 | while a call is reserved, running or leased no thread tears the session down |
| `SessionProgress.EveryoneCanLeave` | providers/shared/hostsession/session_runtime.go:30-206 | no interleaving ends in a deadlock: from every reachable state there is a way on in which every thread comes home, no round is in progress and BootstrapMu is free |
| `SessionProgress.BootstrapLeadsToACall` | providers/shared/hostsession/manager.go:963-1005 | a thread that bootstraps can find or make a client and run its call on an open session with BootstrapMu free again |
| `SessionSafety.NoNewCall` | providers/shared/hostsession/manager.go:994-1010 | why it cannot rise: reserveCall runs under BootstrapMu and acquireCall waits out the reset |
| `SessionSafety.CallKeepsItsSession` | providers/shared/hostsession/manager.go:963-1010 | from its reservation to its end a call keeps the session it reserved, open and with its client |
| `SessionSafety.OneLeader` | providers/shared/hostsession/session_runtime.go:61-85 | at most one thread leads a reset, one an ensure, and one owns BootstrapMu |
| `SessionSafety.FollowerHearsARoundOfItsWait` | providers/shared/hostsession/session_runtime.go:65-70 | a follower that does not time out returns the outcome of a round that ended during its wait |
| `SessionSafety.EnsureHasNoFollower` | providers/shared/hostsession/manager.go:309-339 | as all callers hold BootstrapMu, no thread follows an ensure round and the second look for a client never finds one |
| `SessionSafety.CallStep` | providers/shared/hostsession/session_runtime.go:30-59 | how one step changes the count, the epoch and who is counted |
| `SessionRuntimes.SessionRuntime.ReserveCall` | providers/shared/hostsession/session_runtime.go:54-59 | the count goes up by one without any condition on the reset |
| `SessionRuntimes.SessionRuntime.AcquireCall` | providers/shared/hostsession/session_runtime.go:30-40 | after the wait for the reset the count goes up by one |
| `SessionRuntimes.SessionRuntime.ReleaseCall` | providers/shared/hostsession/session_runtime.go:42-52 | in every run the count is positive here and goes down by one |
| `SessionRuntimes.SessionRuntime.NoActiveCalls` | providers/shared/hostsession/session_runtime.go:177-182 | when the wait ends no thread is counted |
| `SessionRuntimes.SessionRuntime.BeginReset` | providers/shared/hostsession/session_runtime.go:61-85 | leads exactly when no reset is in progress, and then alone |
| `SessionRuntimes.SessionRuntime.ResetOutcome` | providers/shared/hostsession/session_runtime.go:65-70 | a follower gets the outcome of the last round, which ended during its wait |
| `SessionRuntimes.SessionRuntime.FinishReset` | providers/shared/hostsession/session_runtime.go:75-82 | ends the round and publishes its error |
| `SessionRuntimes.SessionRuntime.BeginEnsure` | providers/shared/hostsession/session_runtime.go:133-157 | always leads |
| `SessionRuntimes.SessionRuntime.FinishEnsure` | providers/shared/hostsession/session_runtime.go:147-154 | ends the round and publishes its error |
| `Bytes.BigEndianRoundTrip` | shared/hostrpc/tunnel.go:338 | reading a big-endian number gives the number that was written, for all that fit |
| `Record.RecordRoundTrip` | shared/hostrpc/channel.go:63-101 | decoding an encoded record gives the message, for every message and threshold; encoding fails exactly where compression does, and a message is compressed exactly if it reaches the threshold and becomes shorter |
| `Tunnel.NonceIsFieldAndCounter` | shared/hostrpc/tunnel.go:456-460 | the nonce is a fixed field followed by the sequence number (section 3.2 of RFC 5116) |
| `Tunnel.NoncesDiffer` | shared/hostrpc/tunnel.go:456-460 | different sequence numbers give different nonces |
| `Tunnel.HeaderIsRead` | shared/hostrpc/tunnel.go:331-341 | the receiver's tests of the header single out the header of the number it waits for |
| `Tunnel.AcceptsExactlyTheNextRecord` | shared/hostrpc/tunnel.go:324-349 | a record is accepted exactly when it is, byte for byte, the next one the sender put on the wire |
| `Tunnel.AcceptedIsAPrefix` | shared/hostrpc/tunnel.go:307-349 | over any base the accepted plaintexts are a prefix of those sent, the receive number never passes the send number, neither wraps, and no two records share a nonce |
| `Tunnel.FaithfulBaseLosesNothing` | shared/hostrpc/tunnel.go:307-349 | over a base that keeps order and loses nothing every record is accepted |
| `Tunnel.SecureChannel.Send` | shared/hostrpc/tunnel.go:307-322 | refuses at the last sequence number, puts the sealed record on the wire, and advances only if the base took it |
| `Tunnel.SecureChannel.Recv` | shared/hostrpc/tunnel.go:324-349 | answers as `Receive`; an accepted record is the next message, and only then the number advances |
| `Channel.ReceivedIsAPrefixOfTheMessages` | shared/hostrpc/channel.go:41-57 | compression and encryption together: the n-th accepted record decodes to the n-th message, over any base |
| `HandshakeAgreement.SelectedIsTheFirstPreference` | shared/hostrpc/tunnel.go:501-508 | the chosen suite is the server's first preference among those offered |
| `HandshakeAgreement.SelectedIffCommon` | shared/hostrpc/tunnel.go:501-508 | a suite is chosen exactly when the lists have one in common |
| `HandshakeAgreement.SelectTunnelSuite` | shared/hostrpc/tunnel.go:501-508 | the two loops choose that suite |
| `HandshakeAgreement.ContainsString` | shared/hostrpc/tunnel.go:481-488 | the inner search is membership |
| `HandshakeAgreement.TranscriptIsInjective` | shared/hostrpc/tunnel.go:466-471 | the length-prefixed transcript determines the messages, for payloads below 2^32 bytes |
| `HandshakeAgreement.EveryScheduleIsTheScript` | shared/hostrpc/tunnel.go:108-263 | over a faithful base both programs follow one script under every schedule |
| `HandshakeAgreement.HandshakeCompletes` | shared/hostrpc/tunnel.go:108-305 | every schedule ends after at most six steps, with both sides open exactly when there is a common suite whose first server preference the ciphers know, and with both failed otherwise |
| `HandshakeAgreement.OpenSidesAgree` | shared/hostrpc/tunnel.go:108-282 | both sides have the same transcript and suite, and each send key and seed is the receive key and seed of the other |
| `HandshakeAgreement.DirectionsAreSeparate` | shared/hostrpc/tunnel.go:404-428 | if the derivation separates its labels, the two directions of an open side share neither a key nor a nonce seed |
| `HandshakeAgreement.SecretsAreSeparate` | shared/hostrpc/tunnel.go:404-428 | and the finish keys differ from each other and from the keys of the directions |
| `HandshakeAgreement.SecretsBindTheTranscript` | shared/hostrpc/tunnel.go:404-428 | all derived keys and seeds depend on the shared secret and on the digest of the transcript, if the derivation tells the materials apart |
| `HandshakeAgreement.OtherTranscriptOtherKeys` | shared/hostrpc/tunnel.go:108-282 | two handshakes whose transcript digests or shared secrets differ end with different keys and seeds in both directions |
| `HandshakeAgreement.TranscriptBindsTheOffers` | shared/hostrpc/tunnel.go:108-263 | equal transcripts come from equal nonces of both sides, equal offers, the same choice and the same public key, for messages below 2^32 bytes |
| `HandshakeAgreement.OpenClientHasChecked` | shared/hostrpc/tunnel.go:108-186 | over a base that hands over any bytes, a client opens only on an answer of the right magic, kind and version that names a known suite it offered and a public key, and on a finish made with the secrets of its own transcript |
| `HandshakeAgreement.OpenServerHasChecked` | shared/hostrpc/tunnel.go:188-263 | and a server only on an offer from which it chose its first preference, a key it could decapsulate, and such a finish |
| `HandshakeAgreement.NoDowngrade` | shared/hostrpc/tunnel.go:108-263 | whatever was done to the first three messages: if the client opens on the finish of this server, each side received exactly what the other sent, the suite is the first server preference among those the client offered, and the secrets agree |
| `HandshakeAgreement.SidesThatDisagreeFail` | shared/hostrpc/tunnel.go:430-445 | a finish message made over another transcript or another secret is refused by either side |
| `HandshakeAgreement.DerivedKeysOpen` | shared/hostrpc/tunnel.go:265-305 | derived keys and seeds have the lengths the ciphers ask for |
| `CrontabFile.Parse` | guest/sdk/crontab/crontab.go:11-57 | the loop parses line by line |
| `CrontabFile.Serialize` | guest/sdk/crontab/crontab.go:59-109 | the loop writes the lines, a line feed between each two and one at the end |
| `CrontabFile.ScanSchedule` | guest/sdk/crontab/crontab.go:111-138 | the moving position finds the five words and the command that the recursive reading finds |
| `CrontabNormal.NormalForm` | guest/sdk/crontab/crontab.go:11-109 | for every content, parsing what was printed gives the same lines exactly when no schedule field starts or ends with white space other than space and tab |
| `CrontabNormal.PlainContentsAreNormal` | guest/sdk/crontab/crontab.go:11-109 | with no white space but space, tab and line feed the normal form holds and printing is idempotent |
| `CrontabNormal.OtherLinesAreKept` | guest/sdk/crontab/crontab.go:14-45 | for every content the number of lines stays, and blank, comment, environment and unreadable lines are kept byte for byte |
| `CrontabNormal.LineRoundTrip` | guest/sdk/crontab/crontab.go:41-53 | the same exact condition for one line |
| `CrontabNormal.VerticalTabBreaksTheNormalForm` | guest/sdk/crontab/crontab.go:162-164 | a concrete line whose fifth field is a vertical tab does not reach the normal form |
| `CrontabNormal.ParseOfJoined` | guest/sdk/crontab/crontab.go:20-52 | how five words and a command are read, case by case |
| `CrontabNormal.EnvFromFirstWords` | guest/sdk/crontab/crontab.go:140-160 | whether a line is an environment assignment depends only on its first word and the next character |
| `CrontabNormal.SpecialRoundTrip` | guest/sdk/crontab/crontab.go:28-38 | an @ line reads back as itself after printing |
| `CrontabEdit.FindManagedBlock` | guest/packs/linux/files_config/crontab.go:481-502 | the loop finds no marker, the only one with the job below it, or reports several |
| `CrontabEdit.ExactUnmanagedMatches` | guest/packs/linux/files_config/crontab.go:504-520 | the indices, in order, of the unmanaged jobs with the same command and schedule |
| `CrontabEdit.CreateOrAdopt` | guest/packs/linux/files_config/crontab.go:408-432 | refuses a managed name and several matches, adopts the only match, else appends |
| `CrontabEdit.Update` | guest/packs/linux/files_config/crontab.go:434-456 | replaces the block in place |
| `CrontabEdit.Remove` | guest/packs/linux/files_config/crontab.go:458-479 | cuts the block out; removing an absent name changes nothing |
| `CrontabFrame.CreateKeepsTheRest` | guest/packs/linux/files_config/crontab.go:429-431 | every other name's blocks and all unmanaged lines stay, in order, and the name finds the desired job |
| `CrontabFrame.AdoptKeepsTheRest` | guest/packs/linux/files_config/crontab.go:420-427 | no line changes or moves; every other block stays, and exactly the adopted job leaves the unmanaged lines |
| `CrontabFrame.UpdateKeepsTheRest` | guest/packs/linux/files_config/crontab.go:434-456 | every other name's blocks and all unmanaged lines stay, in order, and the name finds the desired job |
| `CrontabFrame.RemoveKeepsTheRest` | guest/packs/linux/files_config/crontab.go:458-479 | the rest stays exactly when no job-less marker stands directly above the removed block with a job directly below it; the name is gone in any case |
| `CrontabReadBack.RemovalCanCapture` | guest/packs/linux/files_config/crontab.go:458-479 | a concrete crontab, two markers above two jobs, in which removing the second entry changes the unmanaged lines |
| `CrontabReadBack.DesiredIsGood` | guest/packs/linux/files_config/crontab.go:215-250 | what a valid configuration asks for: a valid name and a line with trimmed fields or a lower-case @token, and a command on one line |
| `CrontabConfig.DesiredIsConfigured` | guest/packs/linux/files_config/crontab.go:215-350 | the accepted configurations are exactly the valid ones: a name of letters, digits and . _ -, a user and a command on one line, and one of the two schedule forms, complete and without white space inside a field; the job has minute, hour, day of month, month and day of week from their own values in that order, or the five words or the lower-case token of the schedule text, and the command |
| `CrontabConfig.ConfiguredLineIsPrinted` | guest/packs/linux/files_config/crontab.go:352-366 | the written line is those values and the command, one space between each two |
| `CrontabConfig.AssignmentsAreRead` | guest/sdk/crontab/crontab.go:24-27 | a line NAME=value, the name of letters, digits and underscores and not starting with a digit, is read as an assignment and printed as it stands, whatever the value |
| `CrontabConfig.TextIsPrinted` | guest/packs/linux/files_config/crontab.go:301-323 | a schedule text of five words with single spaces is written as it stands |
| `CrontabReadBack.DesiredLineReadsBack` | guest/packs/linux/files_config/crontab.go:352-366 | the printed job reads as itself exactly when its minute does not make it a comment, an @ line or an assignment |
| `CrontabReadBack.CommentMinuteIsNotReadBack` | guest/packs/linux/files_config/crontab.go:325-350 | a concrete valid configuration, with minute #5, whose line is not read back |
| `CrontabReadBack.CronMinutesReadBack` | guest/packs/linux/files_config/crontab.go:325-350 | minutes that start with a digit or '*', and all @tokens, read back |
| `CrontabReadBack.EditsReadBack` | guest/packs/linux/files_config/crontab.go:55-76 | after create, adopt or update, writing and reading again, the name is found with exactly the desired command and schedule, under that same exact condition and whatever else the crontab holds |
| `CrontabReadBack.ConfiguredEntryReadsBack` | guest/packs/linux/files_config/crontab.go:215-250 | the same from the configuration on |
| `HostsFile.Parse` | guest/sdk/hostsfile/hostsfile.go:11-50 | the loop parses line by line |
| `HostsFile.Serialize` | guest/sdk/hostsfile/hostsfile.go:52-87 | the loop prints entry by entry, a line feed between each two |
| `HostsFile.NormalForm` | guest/sdk/hostsfile/hostsfile.go:11-87 | for every content: parsing what was printed gives the same entries, the number of lines stays, and lines that are no host entry are reproduced byte for byte |
| `HostsFile.EntryReadsBack` | guest/sdk/hostsfile/hostsfile.go:26-46 | a printed host entry with its comment reads as itself |
| `HostsFile.ParsedEntry` | guest/sdk/hostsfile/hostsfile.go:32-46 | what every parsed entry is made of: words without white space or #, and a trimmed comment |
| `Pool.ConnectionPool.Find` | providers/shared/transport/pool.go:218-266 | waits for the attempt in flight, takes the cached session if it is trusted and notes its use, or starts the only connect of the key |
| `Pool.Session.ValidateTrust` | providers/shared/transport/pool.go:650-669 | a session is refused exactly if both fingerprints are known and differ; else it remembers the one asked for |
| `Pool.ConnectionPool.AfterWait` | providers/shared/transport/pool.go:224-248 | a waiter looks again after an error worth a retry, gets other errors, or a session of its key if that is trusted; it never ends up with neither |
| `Pool.ConnectionPool.Result` | providers/shared/transport/pool.go:104-111 | a waiter gets an error or a session with the cache key it asked for |
| `Pool.ConnectionPool.EvictLRU` | providers/shared/transport/pool.go:577-602 | the victim is idle and used no later than any other idle session; there is none only if all are in use |
| `Pool.ConnectionPool.FinishConnect` | providers/shared/transport/pool.go:552-573 | the attempt is always the current one; the new session overwrites none; the pool grows past its limit only when every cached session is in use |
| `Pool.ConnectionPool.StartReconnect` | providers/shared/transport/pool.go:344-362 | waits for the attempt in flight or starts one |
| `Pool.ConnectionPool.FinishReconnect` | providers/shared/transport/pool.go:406-420 | the attempt is always the current one; the session is cached again or dropped |
| `Pool.ConnectionPool.OneAttemptPerKey` | providers/shared/transport/pool.go:116-118 | at most one attempt per key is in flight, and during a connect its key has no cached session |
| `Pool.ConnectionPool.Remove` | providers/shared/transport/pool.go:290-303 | takes the session of the key out of the pool |
| `Pool.ConnectionPool.Close` | providers/shared/transport/pool.go:306-315 | empties the pool and hands out every session |
| `Upload.PushFile` | providers/shared/transport/ssh.go:413-439 | emits the upload commands in order and stops at the first that fails |
| `Upload.TokensOfQuoted` | providers/shared/transport/ssh.go:855-858 | the shell reads a quoted text, whatever its characters, as exactly that text |
| `Upload.PrintedIsData` | providers/shared/transport/ssh.go:860-870 | printf decodes the escaped bytes to the bytes |
| `Upload.UploadLeavesTheData` | providers/shared/transport/ssh.go:413-439 | run on any host, the commands leave exactly the data in the file, with exactly the mode asked for, and touch no other file, for all data and paths; a mode above 07777 fails in the last command |
| `Upload.ChmodRuns` | providers/shared/transport/ssh.go:434 | the four-digit text of a mode is read by chmod as that mode |
| `Upload.UploadPrefix` | providers/shared/transport/ssh.go:423-432 | after k chunks the file holds the first k times 16384 bytes of the data |
| `Upload.ShellEscapeBytesForPrintf` | providers/shared/transport/ssh.go:860-870 | the loop writes one three-digit octal escape per byte |
| `TailBuffer.BoundedTailBuffer.Write` | providers/shared/transport/ssh.go:781-805 | after any writes the buffer holds exactly the last min(max, total) bytes of the stream |
| `TailBuffer.BoundedTailBuffer.MakeRoom` | providers/shared/transport/ssh.go:794-802 | keeps the last bytes that leave room for the next ones; the branch that empties the buffer is never taken |
| `TailBuffer.BoundedTailBuffer.Snapshot` | providers/shared/transport/ssh.go:807-814 | returns that tail as text, without white space around it |
| `TailBuffer.LastOfAppended` | providers/shared/transport/ssh.go:781-805 | keeping the tail of a tail is keeping the tail of the whole stream |
| `Wildcard.WildcardMatch` | providers/shared/transport/hostkeys.go:391-422 | the loop with its recursion terminates and computes the recursive matching |
| `Wildcard.WildcardMatchesTheGlob` | providers/shared/transport/hostkeys.go:391-422 | a value matches exactly when it can be cut into pieces that fit the pattern, a final '*' reading as '?*' |

## Left out

What the members state less of than one might ask:

- AdmissionGrants.GrantedNeverConflict: only for runs that are clean at its level, because without that the claim is false (`AdmissionCrash.GrantedCanConflict`); the condition is exact for each event (`AdmissionGrants.CleanIsExact`).
- AdmissionGrants.AdmissionIsAllOrNothing: only for runs that are clean at its level, because otherwise it fails (`AdmissionLeaks.ClaimsCanBeHalf`, `AdmissionGrants.CutBreaksAllOrNothing`).
- AdmissionGrants.NothingInTheWay: only for runs that are clean at its level and while no claim of a dead owner passes for active, because otherwise it fails (`AdmissionLeaks.PollRefusedWhileNobodyRuns`, `AdmissionGrants.ReusedPidIsInTheWay`).
- AdmissionTrust.CleanIsExactForGrants: for operations with an index and a non-blank request; no lookup sees any other.
- AdmissionGrants.RestartExcludesGrants: only for runs that are clean at its level, for the same reason; `AdmissionSafety.RestartExcludesAll` needs no condition.
- AdmissionRetry.RetryFindsTheOpenOperation: for serialised calls of one request and request ids that are not shared between journal keys; the record is read in one section and written back in a later one (operation_journal.go:100-114), and the lookup removes the index of a record it cannot read (lines 494-498).
- Journal.OperationJournal.Acquire: one call that nobody disturbs between its two sections; interleaved calls are the runs of the machine.
- Journal.OperationJournal.Poll: one poll that nobody disturbs, under the conditions of `AdmissionGrants.NothingInTheWay`.
- RestartHost.Host.Restart: one run that nobody disturbs and whose journal calls are answered, except that the call that records a failure may not get through at all; other disturbed runs are those of the machine.
- RestartHost.Host.AwaitHost: the loop ends after a given number of passes, which stands for the deadline and for a cancelled wait between two passes.
- RestartHost.Host.FailReboot: a journal call that fails leaves both files as they were; one that fails half way is a run of the machine.
- SessionSafety.NoCallAtTeardown: safety only; a follower that holds BootstrapMu can wait for a leader that waits for BootstrapMu until its context ends.
- Tunnel.AcceptedIsAPrefix: a send that the base refuses delivers nothing; if the base delivers a record and then reports an error, the next record reuses its number.
- HandshakeAgreement.HandshakeCompletes: over a faithful base; what is kept when messages are changed on the way is `HandshakeAgreement.NoDowngrade`, where a finish message is one of the two sides and not forged.
- HandshakeAgreement.DirectionsAreSeparate: where the key derivation gives different bytes for the labels in question; no derivation into 32 bytes can do that for all labels, so it is asked of these only. The same goes for `OtherTranscriptOtherKeys` and `SidesThatDisagreeFail`, which ask it of the secrets in question.
- HandshakeAgreement.EveryScheduleIsTheScript: the two programs are functions of one message each, on values; that the source appends to one running hash is not shown.
- CrontabFile.ToLower: lowers ASCII letters only.
- Pool.ConnectionPool.FinishReconnect: a reconnected session is stored without an eviction check, so the size bound is stated for connects only.

What the models take for granted:

- Text is a sequence of Unicode code points; input that is not valid UTF-8 is not part of this model.
- One admission journal state is one host. Files of different hosts and operations have different names: the digest of a
  path component is injective, and operation ids hold no `|`.
- A file write is atomic and a remove succeeds; an I/O error ends the section it happens in. Claims and indexes are plain
  JSON that every process can read; a record is readable under the journal key that wrote it.
- An owner is live when its pid is running and the boot ids agree; an unreadable boot id agrees with any. Pids may be
  reused, and then a claim of a dead owner can count as live.
- Encryption is an ideal AEAD, key encapsulation, key derivation, the hash and JSON are functions with the laws stated in
  `Handshake.Lawful`, and gzip is a pair of functions of which the second undoes the first.
- The reboot journal holds the records of one request; one driver runs at a time and its journal key does not change.
- Sections under a mutex are single steps, and the done channel of a connection attempt closes with the section that
  records its result.
- The shell of `Shell` knows plain words, quotes, backslashes, `>` and `>>`; `mkdir -p` leaves files alone, and `chmod`
  takes octal modes only.

Not modelled at all:

- SSH and SFTP, process start, the WASM guest runtime, JSON-RPC, logging, retries and backoff around calls.
- The readiness check of the session runtime: clearReadiness drops its flag while a leader may still run.
- The restart journal (executor/runtime/restart_journal.go) and the reboot platform, including its own quoting function.
- Lock planners, destroy-safety guards, support policy, packages, identities and the resource schemas.
- The header lines that reading a crontab strips, and the removal of a crontab that becomes empty.
- Host key trust beyond the wildcard matcher.
