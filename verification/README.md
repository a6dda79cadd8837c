# Evidence runs, order ledger and mock dashboard: a Dafny model

This project models the parts of the repository's regression tooling that keep
promises across calls, crashes and processes, and proves those promises for all
inputs, all call sequences and all interleavings. `dafny verify dfyconfig.toml`
checks everything. Paths below are relative to the repository root.

## What is modelled

**Evidence runs** (`scripts/regression_common.py`, `scripts/run_p0_safety_gate.py`).
An evidence directory is shared by successive owner processes through one OS
lock and one `state.json`. An owner can die between any two steps, any write can
fail, PIDs are reused, and a later owner has only the disk and three-valued
probes to decide whether it may go on.

- `Processes.dfy`, `EvidenceState.dfy`: identities, probes, the stored state and
  the decisions taken from it (`acquire`, reuse, interruption).
- `EvidenceProtocol.dfy`: the run as a transition system of 21 kinds of step,
  with any number of owners and a history that no step reads.
- `ProtocolInvariant.dfy`, `AcquireFacts.dfy`, `ProtocolSteps.dfy`: the invariant
  and why each step keeps it.
- `AcquireRecords.dfy`: what an acquire does to each stored record, and what each
  of its refusals means.
- `ProtocolTheorems.dfy`, `EvidenceTheorems.dfy`, `ReuseTheorems.dfy`: what follows
  for every run.
- `StaleFlush.dfy`: why the protocol needs its assumption about threads.
- `ObservedRun.dfy`, `StepEffects.dfy`, `SafetyGate.dfy`: the class itself,
  method by method, and the gate that calls it. Constructor, `Start`, `RunChild`
  and `FinishRun` walk paths of the protocol. Between the stretches of a child run
  other owners may appear, be turned away and die, processes may start and end, and
  the owner's own threads may flush, so the theorems about runs are about it too.
- `AtomicWrite.dfy`, `Descendants.dfy`, `ProcessTree.dfy`, `ChildLogs.dfy`:
  the file replacement, the descendant search, the termination of a process
  tree, and the log names the run relies on.

**The order ledger** (`FakeOrderService` in
`scripts/run_bull_put_strategy_regression.py`): `OrderLedger.dfy` has the
operations as functions, `OrderService.dfy` the class proved against them,
`LedgerTheorems.dfy` and `LedgerWindow.dfy` the exactly-once contract,
`LedgerEffects.dfy` what each call does to the records.

**The mock dashboard** (`scripts/mock_dashboard_server.py`):
`MockDashboard.dfy`, `DashboardState.dfy`, `DashboardTheorems.dfy` and
`DashboardEffects.dfy` for orders, spreads and recovery; `Paging.dfy` and `AuditSummary.dfy` for its two list
algorithms.

**Two file algorithms**: `NotificationLog.dfy`
(`scripts/run_unattended_paper.py`) and `RetentionArchive.dfy`
(`scripts/run_data_hygiene_audit.py`). `Decimals.dfy` has the numerals that
generated ids, rotated names and cursors are made of.

## Assumptions

- The OS lock is exclusive and falls free when its holder dies.
- A (PID, start token) pair names one process ever; one PID runs one process at
  a time; what is dead stays dead. A probe that answers live or gone is right at
  the moment it is made, and may say "unknown" at any time.
- Replacing a file by rename is atomic.
- Threads of an owner stop writing once it has released the lock. The join in
  `run_child` (scripts/regression_common.py:1129-1130) is bounded in time, so
  this is a real assumption: `StaleFlush.OneStaleWriteGivesTwoChildren` shows a
  run that breaks the single-child guarantee without it. Owners that hold a
  `needs_review` child are exempt: their late writes are steps of the protocol.
  That a review asked for by the run itself is never withdrawn rests on the same
  assumption: a late write of an owner that saw no reason for one would undo it.
- An exception from `Popen` means that no process was spawned. It need not: a
  KeyboardInterrupt between fork and return reaches the same handler
  (scripts/regression_common.py:957) with the child alive and its record failed.
- After an exception from `run_child` a caller only finishes as failed, or exits.
  `SafetyGate.RunGate` proves that the gate loop behaves so.
- Hashes are injective, so a fingerprint stands for what was hashed.

## What the proofs brought to light

- A write by a lingering thread of an owner that has already finished can hide a
  later owner's launching record, after which two children run side by side
  (`StaleFlush.OneStaleWriteGivesTwoChildren`).
- `run_child` never attaches the start identity that the cleanup looks for, so a
  timed-out child is never signalled and always ends in review
  (`ObservedRuns.ObservedRun.AwaitChild`).
- The last wait after SIGKILL takes an unknown probe for death; its verdict is
  reliable exactly when no answer was of that kind
  (`ProcessTree.LastWaitIsTrueExactly`).
- Two children whose names render to one safe file name, such as "a b" and "a-b",
  overwrite each other's logs (`ChildLogs.OverwritesExactly`, `TwoNamesOneLog`).
- A client that uses the key the ledger would generate next turns every following
  keyless submission of that account and mode into a replay or a conflict, and
  the counter stands still (`LedgerTheorems.KeylessCollidesExactly`,
  `ClientKeyShadowsGenerated`).
- Both unresolved checks look at the first hundred intents only
  (`LedgerWindow.SeenExactly`, `HundredFillsHideAnUnknown`).
- The mock monitor closes a spread without looking at its close order: one that
  works, be it the seeded order or a recovery order, goes on working for a closed
  spread, and it does exactly when it worked before
  (`DashboardTheorems.ClosedWithAWorkingOrderExactly`, `WorkingCloseOrderIs`).
- Executing a bound spread ignores the one-active-spread cap: the cap breaks
  exactly when such an execution goes through while a spread is active
  (`DashboardTheorems.CapIsKeptExactly`, `CapIsKeptExactlyOverRuns`).
- Archiving resolves a symbolic link first: it moves the link's target, evidence
  or not, and leaves the link (`RetentionArchive.ArchivesExactly`,
  `LinkedFilesAreMoved`).
- An archive inside a scanned directory is found again by the next pass, file by
  file (`RetentionArchive.SecondPassExactly`); with a retention of no days so is
  the manifest.
- A negative cursor whose slice is empty is answered with an empty page and the
  same cursor again, for ever (`Paging.StallsExactly`,
  `StalledCursorNeverAdvances`).

## Model

| member | source | states |
|---|---|---|
| Processes.SoundProbeDecides | scripts/regression_common.py:194-225 | a gone or mismatched answer of a sound probe proves the named process dead, a live answer proves it alive, whoever owns the PID now |
| Processes.StateIsWhatIsProved | scripts/regression_common.py:209-225 | a stored identity is classified dead, or alive, exactly if the process is so in every process table the probe could have come from |
| Processes.IncompleteIsUnknown | scripts/regression_common.py:209-219 | without both halves of an identity nothing is said about a process |
| AcquireFacts.AcquireIsSafe | scripts/regression_common.py:617-816 | on a state the invariant allows, a successful acquire leaves no live record, no active child and no review request, and nothing alive behind; a refused one leaves the disk as trustworthy as before |
| AcquireFacts.SweepOne | scripts/regression_common.py:676-690 | with one running record, the walk over the children ends as that record's probe says, whatever the order of the dictionary |
| AcquireRecords.AcquireRecordsExactly | scripts/regression_common.py:617-816 | a successful acquire keeps the run id and every record, interrupts exactly the running ones, and turns a running run into an interrupted one; every refusal is for the reason it names and leaves the disk as that reason asks |
| AcquireRecords.SpawnWindowIsRefusedAgain | scripts/regression_common.py:627-661 | a child in the spawn window is refused by the later checks on their own, whatever the earlier ones let pass |
| ProtocolTheorems.AtMostOneLiveChild | scripts/regression_common.py:710-1163 | in every run, with any number of owners, crashes, failed writes and reused PIDs, at most one directly spawned child is alive |
| ProtocolTheorems.LiveChildIsOnRecord | scripts/regression_common.py:939-1001 | a spawned child that is alive is on disk as launching, as running with its own identity, or in review, at the attempt that spawned it |
| ProtocolTheorems.LiveRecordIsTheActiveOne | scripts/regression_common.py:939-945 | every launching or running record on disk is the single active child |
| ProtocolTheorems.DiskFollowsMemory | scripts/regression_common.py:516-525 | whatever a step puts on disk, acquire included, is the whole memory of the acting owner as it stands after that step |
| ProtocolTheorems.DisksAreASubsequence | scripts/regression_common.py:516-525 | over any run, through crashes and changes of owner, the successive contents of the disk are a subsequence of what owners held in memory |
| ProtocolTheorems.AcquireSucceedsExactly | scripts/regression_common.py:710-816 | acquire succeeds if and only if the run id fits, nothing asks for review, every live record has an identity, the probes of active child and owner say dead, and the writes it needs succeed |
| ProtocolTheorems.RefusalOnDisk | scripts/regression_common.py:617-708 | a live answer or a foreign run refuses without touching the disk; a missing identity or an unknown probe leaves needs_review on disk |
| ProtocolTheorems.AcquiredRunIsAtRest | scripts/regression_common.py:710-816 | in every run, a successful acquire interrupts exactly the running records; after it no record is launching, running or in review, no spawned child is alive, and every interrupted record names a dead process |
| ProtocolTheorems.DeadStaysDead | scripts/regression_common.py:175-225 | no step revives a process that has ended |
| ProtocolTheorems.TruthfulAnswersLast | scripts/regression_common.py:209-225 | a "dead" answer obtained earlier is still true at any later moment of the run, so acquire may collect its probes one after the other |
| ProtocolSteps.StepKeeps | scripts/regression_common.py:452-1201 | every step of the protocol keeps the whole invariant |
| ProtocolSteps.AcquireKeeps | scripts/regression_common.py:710-816 | acquire, in each of its branches, keeps the invariant |
| ProtocolSteps.BeginChildKeeps | scripts/regression_common.py:911-945 | the reuse and launching-record branches keep the invariant whether or not the write succeeds |
| ProtocolSteps.PopenKeeps | scripts/regression_common.py:947-956 | spawning keeps the invariant: the launching record already covers the new process |
| ProtocolSteps.WriteIdentityKeeps | scripts/regression_common.py:986-1001 | writing the identity keeps the invariant whether or not it reaches the disk |
| ProtocolSteps.CompleteKeeps | scripts/regression_common.py:1134-1152 | recording the exit keeps the invariant whether or not it reaches the disk |
| ProtocolSteps.WriteReviewKeeps | scripts/regression_common.py:1060-1075 | the review path keeps the invariant whether or not it reaches the disk |
| ProtocolSteps.FlushKeeps | scripts/regression_common.py:834-853 | a heartbeat or reader flush between any two steps keeps the invariant |
| ProtocolSteps.LateFlushKeeps | scripts/regression_common.py:1006-1052 | a late flush by an owner whose child is in review keeps the invariant |
| EvidenceTheorems.NeedsReviewIsAbsorbing | scripts/regression_common.py:735-745 | once disk asks for review no later owner starts, spawns or reuses anything, and a child's review survives every later step |
| EvidenceTheorems.PassedEvidenceIsReal | scripts/regression_common.py:1165-1193 | whenever disk says passed, every child record has an execution of that name, attempt and command that exited 0 and did not time out |
| EvidenceTheorems.ReusedResultsAreReal | scripts/regression_common.py:865-897 | every reused result stands on an execution of the same name, command, cwd, environment and source that exited 0, over any number of resumes; request and execution were both declared cacheable, and the logs were there |
| ReuseTheorems.CompletedResultIsReused | scripts/regression_common.py:865-913 | once a cacheable child has exited with 0 and its record is written, a later cacheable request for the same, with the logs there and no launch of that name in between, launches nothing and is answered by that very execution, over any number of crashes, resumes and other children |
| EvidenceTheorems.AttemptsIncrease | scripts/regression_common.py:915-918 | attempt numbers of one child strictly increase over its spawns, across crashes and resumes |
| EvidenceTheorems.LogsAreOpenedOnce | scripts/regression_common.py:1006-1009 | no (child, attempt) pair has its logs opened twice in any run |
| EvidenceTheorems.LoggedAttemptIsOnDisk | scripts/regression_common.py:915-1009 | every attempt whose logs were ever opened, the latest included, is on disk under its own or a later attempt number |
| EvidenceTheorems.AttemptIsOnDiskBeforeItsLogs | scripts/regression_common.py:941-1009 | at the moment before logs are opened, the attempt they belong to is on disk already |
| StaleFlush.OneStaleWriteGivesTwoChildren | scripts/regression_common.py:1129-1132 | a concrete run: one late write after the lock was released, and two children of one directory are alive |
| ObservedRuns.ObservedRun.constructor | scripts/regression_common.py:452-498 | the memory starts as the stored state if there is one, else as a new one, and the object is the fresh owner of the protocol |
| ObservedRuns.OpenRun | scripts/regression_common.py:481-503 | opening raises exactly when a run id is asked for and the stored one is another |
| ObservedRuns.ObservedRun.WriteState | scripts/regression_common.py:516-525 | a forced write that returns is on disk; an unforced one inside the interval changes nothing; a failed one leaves the old file |
| ObservedRuns.ObservedRun.AcquireRun | scripts/regression_common.py:710-816 | the method reaches exactly the memory, disk, lock and refusal of the decision function |
| ObservedRuns.ObservedRun.SettleActive | scripts/regression_common.py:757-803 | the same for the part from the active child on |
| ObservedRuns.ObservedRun.MarkInterrupted | scripts/regression_common.py:627-708 | the same for taking over from a dead owner, loop over the children included |
| ObservedRuns.ObservedRun.Start | scripts/regression_common.py:818-832 | start takes the acquire step and, unless refused, the start step of the protocol; it raises without the lock if refused, and with it if the write fails |
| ObservedRuns.ObservedRun.AwaitChild | scripts/regression_common.py:1051-1163 | each way the wait can end walks its protocol path, whatever others and its own threads do meanwhile; a result comes back only for an exit that was recorded; no signal is ever sent |
| ObservedRuns.ObservedRun.Launch | scripts/regression_common.py:947-1001 | from Popen on, the method walks its protocol path, gaps between its stages included, and returns exactly when every stage succeeded |
| ObservedRuns.ObservedRun.RunChild | scripts/regression_common.py:899-1163 | the world walks the protocol path of the call, with steps of others and flushes of its own threads in between; the call comes back exactly if the stored record answers the request or a child ran to its end, with that record; otherwise it raises, and record, run status and disk are those of the stage it reached |
| StepEffects.OthersLeaveMine | scripts/regression_common.py:710-734 | whatever steps the environment and other owners take while one owner holds the lock, its memory, its phase and the disk stay as they are, and so does its child while it does not end by itself |
| ObservedRuns.ObservedRun.FinishRun | scripts/regression_common.py:1165-1201 | a pass is refused, and nothing changed, exactly while a process is still active or a record is not passed; otherwise the status is on disk and the lock is free when it returns |
| SafetyGate.RunGate | scripts/run_p0_safety_gate.py:174-187 | the results are those of the requests up to the first that raises, each on the records as they stand by then; the gate passes if and only if all came back clean, every stored record is passed and the last write lands; an exception is followed by a failed finish and nothing else |
| SafetyGate.RunFromTheStart | scripts/run_p0_safety_gate.py:168-187 | the same from the first line of main: no child is run exactly if the acquire is refused or the start fails, and the gate passes if and only if it started, all came back clean, every stored record is passed and the last write lands |
| SafetyGate.ResultsAreDetermined | scripts/run_p0_safety_gate.py:174-181 | the stored records, the requests and what they meet decide all results of the loop |
| SafetyGate.ResultsAreStored | scripts/run_p0_safety_gate.py:177-181 | each result is the stored record of its child unless a later spec of the same name has replaced it |
| AtomicWrite.AtomicWriteJson | scripts/regression_common.py:420-441 | at every intermediate state the target holds the old document or, from one point on, the new one; success exactly when the rename lands in a process still alive; no other file changes, and only a process that died leaves a temporary file |
| AtomicWrite.WriteAll | scripts/regression_common.py:420-441 | over any number of writes, each of which may fail or be cut short at any file operation, the target passes through exactly the documents whose rename happened, whole and in order, and ends with the last |
| AtomicWrite.EveryCrashPointLoads | scripts/regression_common.py:505-514 | at whatever point of these writes a process dies, the next one finds the oldest document, or no file, or a whole document that landed |
| Descendants.OwnedDescendants | scripts/regression_common.py:1352-1363 | the worklist ends and returns exactly the transitive children of the root, each once |
| Descendants.CycleNeverEnds | scripts/regression_common.py:1352-1363 | with the root on a parent cycle the worklist never runs empty: the condition above is exact |
| ProcessTree.LiveTargets | scripts/regression_common.py:1448-1465 | without an unknown answer, a target not reported live is dead when the round ends |
| ProcessTree.SignalAll | scripts/regression_common.py:1434-1446 | each signal goes to a listed process whose identity was confirmed at the instant before, and unless kill is refused no confirmed process is passed over |
| ProcessTree.KillAndWait | scripts/regression_common.py:1466-1477 | every survivor is sent SIGKILL unless a probe did not confirm it; success means all are dead, provided the last wait did not guess |
| ProcessTree.LastWaitIsTrueExactly | scripts/regression_common.py:1473-1475 | a "gone" verdict of the last wait is compatible with a living process exactly when it rested on an unknown answer |
| ProcessTree.TerminateOwned | scripts/regression_common.py:1420-1477 | signals reach only the root and its recorded descendants under their own tokens, after a look at each, and an attempt passes none of them over unless a probe did not confirm it; nothing is attempted exactly for a missing token, an answer that does not fit, or a refused signal; "terminated" means all are dead, or that the last wait met an unknown answer; a longer wait or a failure means that one was seen alive after the signals |
| ChildLogs.SafeName | scripts/regression_common.py:444-446 | a safe name is never empty, at most 96 characters, free of separators and leading dots |
| ChildLogs.SafeNamesStay | scripts/regression_common.py:444-446 | a name is its own safe name exactly if it has 1 to 96 allowed characters and no dot or dash at either end |
| ChildLogs.RunsBecomeDashes | scripts/regression_common.py:444-446 | any run of other characters inside a name becomes one dash, and the rest stays |
| ChildLogs.LogsMeetExactly | scripts/regression_common.py:858-863 | two log paths are equal if and only if safe names and attempts are; output and error logs never share a file |
| ChildLogs.OverwritesExactly | scripts/regression_common.py:855-863 | in any run two openings of logs meet in one file exactly for different names with one safe name and one attempt |
| ChildLogs.TwoNamesOneLog | scripts/regression_common.py:444-446 | "a b" and "a-b" are such names |
| OrderLedger.SubmitKeeps | scripts/run_bull_put_strategy_regression.py:553-653 | submitting keeps the ledger's invariant in every branch, failed order construction included |
| OrderLedger.DoKeeps | scripts/run_bull_put_strategy_regression.py:382-687 | every call keeps the invariant |
| OrderServices.FakeOrderService.SubmitOrder | scripts/run_bull_put_strategy_regression.py:553-653 | the method reaches exactly the ledger and reply of the specification, and keeps the invariant |
| OrderServices.FakeOrderService.PlaceOrder | scripts/run_bull_put_strategy_regression.py:577-653 | for a new key the intent is recorded first and closed as persisted with its order, or as unknown without one |
| OrderServices.FakeOrderService.CancelOrder | scripts/run_bull_put_strategy_regression.py:677-687 | the named order, and no other, becomes canceled and is the answer; an unknown id changes nothing |
| OrderServices.FakeOrderService.PrepareTradeAction | scripts/run_bull_put_strategy_regression.py:382-420 | the same for parent actions |
| OrderServices.FakeOrderService.MarkTradeAction | scripts/run_bull_put_strategy_regression.py:425-457 | a mark changes the named action's state and nothing else |
| LedgerTheorems.AtMostOnePerKey | scripts/run_bull_put_strategy_regression.py:553-653 | after any calls each (account, mode, key) has at most one intent and at most one order, and at most one parent action |
| LedgerTheorems.OrdersMatchPersistedIntents | scripts/run_bull_put_strategy_regression.py:607-653 | orders and persisted intents correspond one to one; every other intent is of unknown outcome |
| LedgerTheorems.OrdersAreConserved | scripts/run_bull_put_strategy_regression.py:553-687 | there are as many orders as answers that placed one |
| LedgerTheorems.PlacedExactly | scripts/run_bull_put_strategy_regression.py:577-653 | an order is placed if and only if its key is new and it can be built; it is the request's, filled, under a fresh id, and its intent records it |
| LedgerTheorems.RunExtends | scripts/run_bull_put_strategy_regression.py:382-687 | no call takes back an intent, an index entry or an order; an order can only be canceled |
| LedgerTheorems.ReplayIsStable | scripts/run_bull_put_strategy_regression.py:565-575 | whatever is called in between, cancels included, the same payload gets the first order or the same unknown outcome again, any other payload a conflict, and nothing is created |
| LedgerTheorems.PrepareIsStable | scripts/run_bull_put_strategy_regression.py:393-399 | the same for parent actions, whatever they were marked with |
| LedgerTheorems.KeylessCollidesExactly | scripts/run_bull_put_strategy_regression.py:561-568 | a keyless submission meets an older intent if and only if a client had used the very string generated next |
| LedgerTheorems.GeneratedKeysDiffer | scripts/run_bull_put_strategy_regression.py:561-606 | a recorded generated key is never generated again |
| LedgerTheorems.ClientKeyShadowsGenerated | scripts/run_bull_put_strategy_regression.py:561-572 | a concrete run in which a keyless submission is taken for a replay and places no order |
| LedgerEffects.NewKeyIsRecorded | scripts/run_bull_put_strategy_regression.py:561-653 | a new key records one intent under the client's key or the generated one and below the parent given, closed as persisted with its order or as unknown without one, and nothing else |
| LedgerEffects.PricedExactly | scripts/run_bull_put_strategy_regression.py:607-612 | the price is the request's, and 0.30 exactly for an unpriced sale in the exit phase |
| LedgerEffects.PhaseDecidesThePrice | scripts/run_bull_put_strategy_regression.py:607-612 | the same over any calls after the phase was set |
| LedgerEffects.CancelMarksOne | scripts/run_bull_put_strategy_regression.py:677-687 | canceling marks the one order it names and answers with it, and leaves all else |
| LedgerEffects.CanceledExactly | scripts/run_bull_put_strategy_regression.py:677-687 | after any calls an order is canceled if and only if a cancel of it came while it existed |
| LedgerEffects.PreparedExactly | scripts/run_bull_put_strategy_regression.py:393-420 | an action is created exactly for a new key, prepared, under a new id; a known key changes nothing and conflicts exactly for another hash |
| LedgerEffects.MarkSetsState | scripts/run_bull_put_strategy_regression.py:425-457 | a mark sets the state of the one action it names; an unknown id changes nothing |
| LedgerEffects.StateIsTheLastMark | scripts/run_bull_put_strategy_regression.py:425-457 | over any calls an action has the state it was last marked with |
| LedgerWindow.ChecksAgree | scripts/run_bull_put_strategy_regression.py:487-551 | the unresolved check without exclusion is true exactly when the reconciliation counts something |
| LedgerWindow.SeenExactly | scripts/run_bull_put_strategy_regression.py:470-551 | an unresolved intent is seen exactly when fewer than a hundred of its account and mode were recorded before it and its parent is not the excluded one |
| LedgerWindow.ReconcileCountsExactly | scripts/run_bull_put_strategy_regression.py:487-512 | the reconciliation reports as many unresolved intents as can be seen so |
| LedgerWindow.HundredFillsHideAnUnknown | scripts/run_bull_put_strategy_regression.py:470-551 | a concrete run in which an unknown outcome is reported by neither check |
| DashboardTheorems.InitialIsOk | scripts/mock_dashboard_server.py:423-715 | the seeded state satisfies the invariant in every scenario |
| DashboardTheorems.DoKeeps | scripts/mock_dashboard_server.py:1499-2460 | every call keeps it |
| DashboardTheorems.IdsAreUnique | scripts/mock_dashboard_server.py:1499-1504 | order ids and spread ids stay unique over any calls |
| DashboardTheorems.RunGoesForward | scripts/mock_dashboard_server.py:1551-2460 | over any calls an order that is not working never changes again, spreads only move open, exit pending, closed, and none disappears |
| DashboardTheorems.CancelStopsOneOrder | scripts/mock_dashboard_server.py:1551-1561 | canceling succeeds if and only if the id names a working order, which is then canceled while all others stay |
| DashboardTheorems.AtMostOneRecovery | scripts/mock_dashboard_server.py:1902-1931 | at most one recovery order is ever placed, and only for the seeded spread |
| DashboardTheorems.OneWorkingCloseOrder | scripts/mock_dashboard_server.py:1854-1931 | a spread never has two working close orders |
| DashboardTheorems.ReasonsExplain | scripts/mock_dashboard_server.py:1854-1900 | the list of reasons has exactly those that apply, each once, in the source's order |
| DashboardTheorems.ExplanationIsUnique | scripts/mock_dashboard_server.py:1854-1900 | there is one such list only |
| DashboardTheorems.RecoverSucceedsExactly | scripts/mock_dashboard_server.py:1854-1911 | recovery is accepted if and only if it is confirmed, in paper mode, for the seeded spread, still open, asked to close, and its old close order has failed |
| DashboardTheorems.EligibleIsTheSeed | scripts/mock_dashboard_server.py:1854-1900 | an eligible spread is the seeded one, open, and never recovered before |
| DashboardTheorems.RecoverPlacesOneOrder | scripts/mock_dashboard_server.py:1902-1931 | an accepted recovery adds one working order in front of the old ones and points that spread, and no other, at it |
| DashboardTheorems.MonitorCloses | scripts/mock_dashboard_server.py:2407-2460 | every existing spread the monitor looks at is closed afterwards; orders and other spreads are untouched |
| DashboardTheorems.CapIsKeptExactly | scripts/mock_dashboard_server.py:2204-2216 | with at most one active spread before a call there is at most one after it if and only if the call is not a bound execution that goes through while a spread is active |
| DashboardTheorems.CapIsKeptExactlyOverRuns | scripts/mock_dashboard_server.py:2172-2352 | over any calls there is never more than one active spread if and only if no call is of that kind |
| DashboardTheorems.OneActiveFromTheStart | scripts/mock_dashboard_server.py:423-715 | the same from the seeded state of every scenario |
| DashboardTheorems.BoundExecutionAlwaysOpens | scripts/mock_dashboard_server.py:2300-2352 | a confirmed bound execution always opens one more spread, under a fresh id, however many are active |
| DashboardTheorems.ClosedWithAWorkingOrderExactly | scripts/mock_dashboard_server.py:2407-2460 | the monitor leaves a closed spread with an order still working to close it if and only if such an order was working before |
| DashboardTheorems.WorkingCloseOrderIs | scripts/mock_dashboard_server.py:1902-1931 | in every reached state such an order belongs to the seeded spread; it is the seeded close order before a recovery and the recovery order after one |
| DashboardTheorems.ClosedWithAWorkingOrder | scripts/mock_dashboard_server.py:2407-2460 | a concrete run: a closed spread whose recovery order still works |
| DashboardEffects.SubmitPlacesOneOrder | scripts/mock_dashboard_server.py:1499-1532 | a submitted order works, under an id no order has had, in front of all others |
| DashboardEffects.WorkingExactly | scripts/mock_dashboard_server.py:1534-1561 | an order is working, failed or filled, one of the three; a spread is active until it is closed |
| DashboardEffects.ReplaceChangesOneOrder | scripts/mock_dashboard_server.py:1534-1549 | replacing gives the one working order it names its new terms, and is refused for any other |
| DashboardEffects.ScanOpensExactly | scripts/mock_dashboard_server.py:2172-2298 | a scan opens one spread, under a new id, exactly for the account itself, with both switches off and every live spread closed |
| DashboardEffects.SwitchedOffStaysShut | scripts/mock_dashboard_server.py:2172-2203 | with the kill switch or the pause on, no scan opens anything after any calls that leave the switches alone |
| DashboardEffects.BoundOpensExactly | scripts/mock_dashboard_server.py:2300-2352 | a bound execution goes through exactly for a confirmed paper request on the readiness candidate, and appends one open spread with no close order |
| DashboardEffects.MonitorWrites | scripts/mock_dashboard_server.py:2407-2460 | an active row is closed under a new exit id and told to close, a closed one is told not to, and nothing else in it changes |
| DashboardEffects.FreshIsRecoverableExactly | scripts/mock_dashboard_server.py:1854-1911 | in a fresh dashboard recovery is accepted exactly if the seeded close order has failed and a close is asked for |
| DashboardEffects.FreshScanWaitsForTheMonitor | scripts/mock_dashboard_server.py:2204-2216 | the seeded spread keeps the scan out until the monitor has closed it |
| DashboardStates.MockDashboardState.constructor | scripts/mock_dashboard_server.py:423-715 | the constructor builds the seeded state, the 26 closed spreads included |
| DashboardStates.MockDashboardState.SubmitOrder | scripts/mock_dashboard_server.py:1499-1532 | a new working order under the next number goes to the front |
| DashboardStates.MockDashboardState.ReplaceOrder | scripts/mock_dashboard_server.py:1534-1549 | only a working order changes, and only its quantity, limit and stop price; other ids and finished orders are refused |
| DashboardStates.MockDashboardState.CancelOrder | scripts/mock_dashboard_server.py:1551-1561 | only a working order is canceled |
| DashboardStates.MockDashboardState.RecoverEligibility | scripts/mock_dashboard_server.py:1854-1900 | the answer lists a reason if and only if it speaks against the recovery: of three about the old close order the one that fits, each reason once, in the source's order |
| DashboardStates.MockDashboardState.RecoverClose | scripts/mock_dashboard_server.py:1902-1931 | the method reaches exactly the specified state and keeps the invariant |
| DashboardStates.MockDashboardState.MonitorSpread | scripts/mock_dashboard_server.py:2407-2460 | the same for the monitor |
| DashboardStates.MockDashboardState.RunEntryScan | scripts/mock_dashboard_server.py:2172-2298 | the same for the entry scan |
| DashboardStates.MockDashboardState.ExecuteBoundBullPut | scripts/mock_dashboard_server.py:2300-2352 | the same for the bound execution, with its checks of account, confirmation, mode, symbol, token and credit |
| DashboardStates.MockDashboardState.GetSpread | scripts/mock_dashboard_server.py:2394-2398 | the first row with the id, live rows before closed ones, or none |
| Paging.FollowCursors | scripts/mock_dashboard_server.py:1819-1839 | following the cursors from the first page ends, gives every row once and in order, in the expected number of pages |
| Paging.PageCountIsCeiling | scripts/mock_dashboard_server.py:1819-1839 | that number is max(1, ceil(n / limit)) |
| Paging.PrintParses | scripts/mock_dashboard_server.py:1828-1836 | a printed offset is read back as itself |
| Paging.InvalidExactly | scripts/mock_dashboard_server.py:1826-1833 | a cursor is refused exactly if it is given and is not one sign at most and then digits |
| Paging.SignsAreRead | scripts/mock_dashboard_server.py:1828-1831 | a plus changes nothing and a minus the sign |
| Paging.PastTheEnd | scripts/mock_dashboard_server.py:1834-1838 | an offset at the end or past it gives no rows and no further page |
| Paging.StallsExactly | scripts/mock_dashboard_server.py:1834-1839 | a page is empty with a cursor to come exactly for the negative offsets whose slice is empty, and that cursor is the offset itself |
| Paging.StalledCursorNeverAdvances | scripts/mock_dashboard_server.py:1826-1839 | a client that follows such a cursor gets the same page again |
| Paging.ForgedCursorNeverAdvances | scripts/mock_dashboard_server.py:1826-1839 | small negative cursors are examples |
| AuditSummary.Summarize | scripts/mock_dashboard_server.py:916-960 | groups have distinct keys, count exactly their events, carry their latest time, sum to the number shown, and come newest first, equally late ones in order of appearance; warnings are counted over the events shown |
| AuditSummary.ShowsTheFirst | scripts/mock_dashboard_server.py:916-922 | the events shown are the first kept ones, in order and with none passed over, up to the limit |
| AuditSummary.MatchingCounts | scripts/mock_dashboard_server.py:957-958 | the number of events kept is that of the places that hold one |
| NotificationLog.FreshName | scripts/run_unattended_paper.py:1247-1252 | the search for a free name ends, on the first one that is free |
| NotificationLog.Folder.RotateIfNeeded | scripts/run_unattended_paper.py:1238-1254 | the loop reaches exactly the specified rotation |
| NotificationLog.Folder.DispatchNotification | scripts/run_unattended_paper.py:1176-1235 | which channels and levels write, what is reported, and that a rotation never takes an existing name |
| NotificationLog.SendsExactly | scripts/run_unattended_paper.py:1176-1254 | a dispatch appends its line exactly if its level passes and its channel is the file, after a rotation exactly if the limit is reached; otherwise nothing changes |
| NotificationLog.SizeIsOfTheText | scripts/run_unattended_paper.py:1243-1246 | the size compared with the limit is that of the text in the file |
| NotificationLog.LogIsConserved | scripts/run_unattended_paper.py:1214-1254 | rotated files in rotation order and then the current file hold the old lines and exactly the emitted ones, in order; no other file is touched |
| NotificationLog.SizesStayBounded | scripts/run_unattended_paper.py:1238-1254 | with one limit every file rotated on the way held at least the limit, and less before its last line; the current file less before its last line |
| RetentionArchive.CountCategory | scripts/run_data_hygiene_audit.py:117-165 | a walk over the files counts exactly the stale ones of a category |
| RetentionArchive.RetentionReport | scripts/run_data_hygiene_audit.py:117-170 | the report's total is the number of distinct candidates plus the stale notification files |
| RetentionArchive.ExtensionExactly | scripts/run_data_hygiene_audit.py:117-198 | a file is of a kind exactly if its name ends in that extension, capitals or not, with something before it |
| RetentionArchive.OldExactly | scripts/run_data_hygiene_audit.py:112-114 | a file is stale from the moment its age reaches the given days of 24 hours; with no days to wait every file is |
| RetentionArchive.NotificationsExactly | scripts/run_data_hygiene_audit.py:126-146 | the stale notification files are the old .jsonl files in the artifacts directory |
| RetentionArchive.ScannedExactly | scripts/run_data_hygiene_audit.py:173-192 | the audit looks at everything in artifacts and at images in output/playwright, and at nothing else |
| RetentionArchive.Disk.ArchiveStaleGeneratedFiles | scripts/run_data_hygiene_audit.py:201-234 | the loop reaches exactly the specified files and verdict |
| RetentionArchive.ArchivesExactly | scripts/run_data_hygiene_audit.py:201-234 | in whatever order, archiving moves exactly the stale files, byte for byte, adds the manifest and touches nothing else, if and only if no candidate is a symbolic link |
| RetentionArchive.LinkedFilesAreMoved | scripts/run_data_hygiene_audit.py:213-221 | of every stale link in a pass that ends well the target is moved, and the link stays |
| RetentionArchive.SecondPassExactly | scripts/run_data_hygiene_audit.py:173-234 | a second pass at the same time finds exactly the moved files that lie in a scanned directory, and the manifest if it lies in one and the retention is not positive |
| RetentionArchive.SecondPassIsEmptyExactly | scripts/run_data_hygiene_audit.py:173-234 | it finds nothing if and only if no file was moved into a scanned directory and the manifest is not found either |
| RetentionArchive.SecondPassFindsNothing | scripts/run_data_hygiene_audit.py:173-198 | with the archive apart from the scanned directories a second pass at the same time finds no candidate |
| RetentionArchive.ArchiveInsideIsFoundAgain | scripts/run_data_hygiene_audit.py:173-198 | with the archive inside the artifacts directory every moved file is a candidate again |
| Decimals.RoundTrip | scripts/mock_dashboard_server.py:1828-1836 | a decimal numeral denotes the number it was printed from |
| Decimals.PrefixedInjective | scripts/mock_dashboard_server.py:1500-1504 | ids made of one prefix and a number are equal only for equal numbers |

## Left out

- Descendants.OwnedDescendants: asks that the root be on no parent cycle; on one the source's loop does not end, which CycleNeverEnds proves.
- ProcessTree.TerminateOwned: covers systems with `/proc`; the Windows path through `taskkill` is not part of this model.
- ProcessTree.TerminateOwned: between the last identity check and the signal the process may still end and its PID be reused; the contract speaks of the check.
- ObservedRuns.ObservedRun.RunChild: the `terminate` sent through the process handle to a child whose identity could not be read is not counted as a signal; a child not yet waited for keeps its PID.
- ObservedRuns.ObservedRun.RunChild: at most one flush of its own threads falls into each gap; a flush repeats what the one before it wrote.
- ObservedRuns.ObservedRun.AcquireRun: on a changed run id the source has already taken the foreign state into memory when it raises; here the memory stays.
- ProtocolSteps.LateFlushKeeps: speaks of owners whose child is in review; late writes of other owners are assumed away, as said under Assumptions.
- RetentionArchive.ArchivesExactly: links to links and linked directories are not modelled, and the archive directory is taken to be new.
- RetentionArchive.RetentionReport: total_bytes and the lists of oldest files per category are not modelled.
- Probing by ctypes, reading `/proc`, `fcntl` and `msvcrt` locks: abstracted to a probe and an exclusive lock.
- Fingerprints of sources, environments and requests: opaque values.
- Log bytes, events, timestamps, `next_action` texts and heartbeat fields: no decision reads them.
- An unreadable or foreign `state.json`: the constructor raises before anything else happens.
- The real order service, repositories, scheduler leases and strategy services: not part of this model.
- Ordering of the parent action marks: the source guards no state, so none is claimed.
- Quotes, watchlists, pre-open boards, routes, report envelopes and browser flows: data without state of their own.
- Cleaning project caches and the watchlist audit: simple filters.
- Whitespace and underscores that Python's int() accepts in a cursor.
