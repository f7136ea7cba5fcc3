# Verified model of the Mirna finance app and its sync service

The project models three connected state machines of the application and proves what they
keep over whole runs.

1. **The client sync engine.** Operations enter a causal log and are ordered by vector-clock
   frontiers (`Causal`, `CausalLog`, `CausalTheorems`, `HappensBefore`, `Merging`). Local edits are
   audited into intents (`MutationAudit`), prepared as hash-chained operation groups (`Outbox`,
   `PrepareTheorems`), staged, grouped, applied all-or-nothing or filed as conflicts (`Staging`,
   `StagingRuns`, `ReceivedGroups`, `RemoteApply`, `ApplyTheorems`), and two replicas converge
   (`Convergence`, `ConvergenceRuns`), also through the checks of staging (`StagedConvergence`), as
   long as edits are prepared in the order in which they were written; what any other order does is
   stated exactly (`Reordering`, `QueueOrder`, `QueueRuns`, `SameInstant`, `SameInstantRuns`). When
   a group is applied and when it is filed, what replicas that edit at the same time end with, and
   what a resolution does wherever it arrives are stated in values, versions and hashes
   (`Acceptance`, `Delivery`, `ConcurrentEdits`, `ConcurrencyWitnesses`, `Resolutions`,
   `ResolutionRuns`). `OperationRepository` and `ConflictRepository` hold the methods that update
   the tables.
2. **The server's step protocols.** A budget ledger of reservations (`BudgetLedger`,
   `BudgetTheorems`, `BudgetFlags`, `LedgerWitnesses`, `UsageBudget`), a storage inventory
   (`StorageInventory`), an operation log that is appended, paged, acknowledged, compacted and
   pruned (`OperationLog`, `OperationLogRuns`, `OperationProgress`, `PruningRuns`,
   `OperationStore`), and a compare-and-swap chain of snapshots (`Snapshots`, `SnapshotRuns`,
   `SnapshotRetention`). A D1 `batch` is one atomic step: a statement that matches no row undoes
   nothing, a failed constraint undoes the whole batch. Requests interleave between batches.
3. **The finance ledger.** The commands as transactions over several tables (`Ledger`, `FinanceDb`,
   `Commands`, `CommandTheorems`, `CommandEffects`, `RoundTrips`, `TopUps`, `EventWitnesses`,
   `FinanceCommands`), the integrity check of backups (`Integrity`), the cash forecast (`Forecast`,
   `ForecastSources`, `Forecaster`), the history of a debt (`Debts`) and planned occurrences with
   their keys (`Calendar`, `Recurrence`, `OccurrenceKeys`).

Objects whose methods update tables are classes with those tables as fields. Each method is
proved against a specification function over values (`View()` before and after), and the
theorems are about those functions and about runs of them. `Sums` holds the sums over table
rows, `Extrema` the least and greatest element of a set, `Wrappers` optional values and results.

## Assumptions

- Hashes are injective: a digest is the value it was computed from, or an opaque number that
  no operation of the model has. Signatures and encryption always succeed and always verify.
- Canonical texts of values (section 3.2 of RFC 8785) are compared by equality.
- Money and sequence numbers are unbounded integers; running out of safe integers is left out.
- Identifiers drawn at random are inputs, required to be new where a theorem needs it.
- The clock, the plan occurrences a command looks up, and the month's plans of a forecast are inputs.

## What the proofs found

Where a property one would expect does not hold of the code, the exact condition is proved, a
lemma shows an input that fails from a state the code reaches, and the code is modelled as it is.

- **Frontier sort.** `sortedFrontier` sorts by locale, the schema demands code-unit order. The parse
  succeeds exactly when the two orders agree on the devices and there are at most ten
  (`Causal.SortedFrontierOkIff`); this condition reappears in `CausalLog.AcceptedIff`. Where they
  disagree, the first operation of a second device is refused (`Merging.DisagreeingOrdersRefuse`).
- **Clock order and happened-before.** 'before' always follows a chain of claims, but an operation
  may drop a claim of its own predecessor, and then two hash-chained operations of one device
  compare 'concurrent' (`Merging.ChainedOperationsCanCompareConcurrent`). The two orders coincide
  exactly in logs that repeat their claims (`HappensBefore.ClockOrderIsHappenedBeforeIff`).
- **Order of the outbox.** The outbox sorts by time and then by random group id, so groups can be
  prepared in another order than they were written: those of one millisecond, and all of them when
  the clock goes back. Any number of queued groups are all prepared exactly when every entity that
  two of them share survives the order: whenever a group meets it live and recorded, the recorded
  value is the one the group was edited from. The sender's states then describe its tables exactly
  when every shared entity ends, in the order of the outbox, at its last written value
  (`QueueOrder.QueuePreparesIff`, and over runs of any recorded edits `QueueRuns.EditsPrepareIff`);
  queues in the order they were written are always safe (`QueueOrder.WrittenOrderIsSafe`). For two
  groups of one millisecond this comes down to the entities they share
  (`SameInstant.SameInstantPreparesIff`, `SameInstantRuns.TwoEditsPrepareIff`). Two edits of one
  account make preparation fail (`SameInstantCanBlockPreparation`); a row created and deleted again
  is prepared and uploaded without an error and stays recorded as live
  (`SameInstantCanLeaveALiveState`). With increasing times neither happens
  (`ConvergenceRuns.ReplicasConverge`).
- **An edit in flight.** A received group is checked against the recorded states, which follow an
  edit only when it is prepared. The group is applied exactly when each of its operations was
  written on what the states describe, or on what the group itself left before, or leaves just that,
  or resolves a pending conflict (`Acceptance.GroupAppliedIff`). With nothing waiting to be prepared
  the states describe the tables, and nothing is overwritten that its author had not seen
  (`Acceptance.SingleAppliedIff`, `NothingIsOverwrittenUnseen`, `ConcurrentEdits.BothSidesStand`). A
  synchronization prepares everything before it pulls
  (src/features/sync/operation-service.ts:178-242); an edit committed in between is overwritten by a
  group written on the value before it, without a conflict, and can then never be prepared
  (`ConcurrencyWitnesses.EditInFlightIsLost`).
- **Resolving a group.** A resolution is prepared exactly when it deletes no entity this device has
  never held (`Resolutions.ResolutionPreparesIff`). Keeping the local side of a filed group that
  creates a row records such a deletion, and every later preparation then fails
  (`ResolutionRuns.KeepingLocalCanBlock`). Once prepared, a resolution names both sides of each
  conflict and is accepted wherever they are pending (`Resolutions.ResolutionIsAccepted`).
- **Returned acknowledgement.** The stored acknowledgement never moves back, but the cursor that is
  returned to the caller can: it is at least the stored one exactly when nothing waits, nothing was
  acknowledged yet, or a record between the two is left (`Staging.ReturnedCursorKeepsUpIff`,
  `ReturnedCursorCanFallBack`).
- **Budget ledger.** A reservation batch keeps it balanced exactly when its id is new, its insert is
  granted and so fails, or it asks for nothing: a batch with a used id that is refused a grant
  charges without a row (`BudgetTheorems.ReserveConservesIff`). Request ids are drawn at random, so
  the failing input needs a repeated draw (`LedgerWitnesses.RepeatedIdUnbalances`). A settlement
  keeps it balanced exactly when its bucket is still there or nothing is to be corrected
  (`SettleRowConservesIff`; `LateSettlementUnbalances` settles after its day has expired), a second
  settlement of one reservation when its measured use is what it reserved
  (`RepeatedSettlementConservesIff`, `RepeatedSettlementUnbalances`), and maintenance when it
  subtracts what the bucket still holds (`StaleExpiryConservesIff`;
  `OverlappingMaintenanceUnbalances` lets two runs read one page).
- **Storage inventory.** A release on a row that was read before the batch is right exactly when the
  row was not replaced meanwhile (`StorageInventory.ReleaseConservesIff`,
  `ReleaseVaultConservesIff`). It goes wrong when an object key is used again for a larger object in
  between (`ReusedKeyUnbalances`), or an object joins a vault after its totals were read
  (`LateObjectUnbalances`).
- **Compaction stamps.** Whatever batch the clean-up takes, it removes a prefix exactly when the
  clean-up times are in log order (`OperationLog.PruneRemovesPrefixIff`). Over a run they stay in
  order, and every pruning stays a prefix, exactly when no compaction runs under an older clock than
  one whose rows are still there (`PruningRuns.StampsStayInOrderIff`, `PruningRemovesPrefixesIff`);
  two overlapping acknowledgements break this (`OverlapStampsOutOfOrder`).
- **Snapshot commit.** The pointer swap does not ask whether the uploaded row still exists, and the
  supersede statement does not ask whether the swap took place. Exactly the timely batches leave one
  committed, pointed-at snapshot (`Snapshots.CommitKeepsOneCommittedIff`). Commits are timely when
  the vault stays active, the clock does not go back, and each commit follows the insert of its own
  upload, not orphaned, before its clean-up time (`SnapshotRuns.OrderlyCommitsFormOneChain`). A
  clean-up that claims the row first leaves the vault pointing at it (`LateCommitDangles`), and a
  commit to an inactive vault supersedes the current snapshot (`RefusedCommitSupersedes`).
- **Saving a planned event** can drop the pointer to its paid transaction; that is the one way a
  command breaks a link (`CommandTheorems.SaveEventKeepsLinksIff`,
  `EventWitnesses.SavingCanDropPointer`).
- **Integrity check.** From a repayment the check follows the link to its transaction and back; from a
  transaction it only asks that the payment exists. What it accepts is linked both ways exactly when
  no transaction names an external payment (`Integrity.PassingIsPairedIff`); tables with one pass
  (`StrayRepaymentPasses`). No command leads to such tables (`CommandTheorems.ReachableIsSound`).
- **Undoing a payment.** Deleting the payment of a commitment or a debt restores the tables
  (`RoundTrips.PayThenDelete`, `RepayThenDelete`). Deleting the payment of an event restores them
  exactly when three things hold before it: it is paid from the event's own account, no top-up is
  left from an earlier payment, and the goal it completes is unused, or used on the very day of the
  payment if another paid event completes it too (`PayEventThenDeleteRestoresIff`). In states the
  commands reach no top-up is ever left over (`TopUps.ReachableTopUpsArePaid`), so that the account
  and the goal decide (`ReachablePaymentIsUndoneIff`); two events on one goal show it failing
  (`EventWitnesses.SecondPaymentStaysOnGoal`). Unlinking an expense restores it exactly when it was
  a manual one, because a quick-added one comes back as manual (`LinkThenUnlinkRestoresIff`).
- **Weekly occurrences.** A key such as `id:2024-99-01` passes the date pattern but names no month,
  and the weekly loop then never ends (`OccurrenceKeys.WeeklyLoopEndsIff`,
  `MonthNinetyNineNeverEnds`).

## Model

| member | source | states |
|---|---|---|
| Causal.SortedFrontierOkIff | src/domain/sync/causal.ts:113-119 | Sorting a frontier and parsing it succeeds if and only if it has at most ten devices and the locale order agrees with the code-unit order on them. |
| Causal.CompareCausalFrontiers | src/domain/sync/causal.ts:129-162 | The loop over both device sets with its two flags computes the comparison that the order lemmas are about, including the hash-mismatch error. |
| Causal.CompareEqualIff | src/domain/sync/causal.ts:129-162 | Two valid frontiers compare 'equal' if and only if they are identical. |
| Causal.CompareAntisymmetric | src/domain/sync/causal.ts:129-162 | Swapping the arguments swaps 'before' and 'after' and keeps every other outcome, errors included. |
| Causal.BeforeIff | src/domain/sync/causal.ts:129-162 | 'before' holds if and only if the left frontier is below the right on every device, not the reverse, and no shared event has two hashes. |
| Causal.CompareTransitive | src/domain/sync/causal.ts:129-162 | 'before' composes, and the composed comparison never throws. |
| CausalLog.ValidateClaimedFrontier | src/domain/sync/causal.ts:186-227 | Succeeds if and only if every claim is proven by the log, and returns the greatest Lamport time among the claimed operations; on failure the error of the first failing claim. |
| CausalLog.SequencesIncrease | src/domain/sync/causal.ts:263-308 | In a good log a device's later operation has the greater sequence. |
| CausalLog.SequencesComplete | src/domain/sync/causal.ts:288-308 | A device's accepted sequences have no gap: every number up to its last was accepted. |
| CausalLog.AcceptedIff | src/domain/sync/causal.ts:229-340 | An operation is accepted if and only if it continues its device's hash chain at the next cursor under a fresh id, proves all its claims at a greater Lamport time, and the new frontier sorts. |
| CausalLog.AcceptKeepsGood | src/domain/sync/causal.ts:229-340 | Acceptance keeps cursors 1..n, unbroken hash chains, proven claims with rising Lamport times, unique ids, and the frontier equal to each device's last operation. |
| CausalLog.AcceptedLogsAreGood | src/domain/sync/causal.ts:121-125 | Every log accepted from the empty state, under any deliveries, has those properties. |
| CausalTheorems.ExactDuplicateIff | src/domain/sync/causal.ts:239-261 | A delivery is an exact duplicate, changing nothing, if and only if it repeats an accepted operation at that operation's own cursor. |
| CausalTheorems.ClockOfAccepted | src/domain/sync/causal.ts:164-176 | The clock of an accepted operation always parses and reads as its claims with its own entry on top. |
| CausalTheorems.AcceptedClocksNeverClash | src/domain/sync/causal.ts:129-176 | Comparing the clocks of two accepted operations never throws. |
| CausalTheorems.CursorOrderExtendsCausalOrder | src/domain/sync/causal.ts:129-340 | In every accepted log two distinct operations never compare 'equal', and 'before' implies the smaller cursor: cursor order is a linear extension of causal order. |
| HappensBefore.BeforeImpliesReaches | src/domain/sync/causal.ts:164-227 | 'before' between accepted operations always follows a chain of claims. |
| HappensBefore.ClockOrderIsHappenedBeforeIff | src/domain/sync/causal.ts:164-227 | Clock comparison decides happened-before for all pairs of a log if and only if its operations repeat the claims of the operations they claim. |
| Merging.ReplayNeverIgnores | src/domain/sync/causal.ts:357-420 | Replaying an accepted log in cursor order never throws and never classifies a later operation as a duplicate or as older. |
| Merging.ConflictsAreSymmetric | src/domain/sync/causal.ts:357-420 | Both replicas of a concurrent pair see the same conflict, whichever arrived first. |
| Merging.ResolutionSettlesBoth | src/domain/sync/causal.ts:422-461 | A resolution that passes the check is never concurrent with either conflict, has the greater version, and applies over a conflict unless it would resurrect a deleted entity. |
| Merging.ChainedOperationsCanCompareConcurrent | src/domain/sync/causal.ts:164-227 | A concrete accepted log in which an operation and its hash-chained successor compare 'concurrent'. |
| Merging.DisagreeingOrdersRefuse | src/domain/sync/causal.ts:113-119 | A concrete accepted log and an operation that continues it, accepted under one collation and refused under one that disagrees with the code-unit order. |
| MutationAudit.SyncMutationAudit.Record | src/db/sync/mutation-audit.ts:169-213 | Appends one intent under the next drawn id when the audit is active and the value changes (or the record is forced), and otherwise nothing. |
| MutationAudit.SyncMutationAudit.Upsert | src/db/sync/mutation-audit.ts:124-133 | Refuses a changed identity; otherwise records an upsert only for a changed value. |
| MutationAudit.SyncMutationAudit.Delete | src/db/sync/mutation-audit.ts:135-141 | Records a delete exactly when there was a row. |
| MutationAudit.SyncMutationAudit.Resolve | src/db/sync/mutation-audit.ts:143-167 | Records a resolution even when it keeps the value, refuses a foreign identity, and needs an active audit. |
| MutationAudit.SyncMutationAudit.Finalize | src/db/sync/mutation-audit.ts:215-257 | Writes all pending intents as one group and clears them, or on an error changes nothing. |
| MutationAudit.SyncMutationAudit.AuditFinanceDataChanges | src/db/sync/mutation-audit.ts:320-352 | The loops over all tables record the difference of the two data sets, in table order. |
| MutationAudit.IntentsReplayEdit | src/db/sync/mutation-audit.ts:124-213 | The intents of an edit replay it exactly, and each of them changes its entity. |
| MutationAudit.DiffThenReplay | src/db/sync/mutation-audit.ts:320-352 | Replaying the recorded difference on the previous tables gives exactly the next tables. |
| MutationAudit.DiffSkipsUnchanged | src/db/sync/mutation-audit.ts:320-352 | Every recorded intent names an entity whose value differs; unchanged entities get none. |
| MutationAudit.FinalizedGroupIsComplete | src/db/sync/operation-repository.ts:153-167 | The group that finalizing writes is accepted as complete by preparation, has at most the permitted size, carries the pending intents in order, and leaves other records alone. |
| Replica.FrontierIsValid | src/db/sync/operation-repository.ts:187-201 | The frontier built from the device rows is a valid frontier and looks up each device's row. |
| Outbox.ChoosesFirstGroup | src/db/sync/operation-repository.ts:258-290 | With the oldest group in front, exactly that group is chosen for preparation. |
| PrepareTheorems.PrepareStep | src/db/sync/operation-repository.ts:306-472 | A record whose previous value is the table's value is prepared without a consistency error, and its operation passes every check on opening. |
| PrepareTheorems.PreparedInOrder | src/db/sync/operation-repository.ts:306-475 | The prepared records are the group's own, in order, with consecutive sequences of this device. |
| PrepareTheorems.LamportsRise | src/db/sync/operation-repository.ts:298-390 | A group is prepared at Lamport times above those of every state, one after another. |
| PrepareTheorems.GroupKeepsInStep | src/db/sync/operation-repository.ts:254-476 | Record by record, a group whose intents replay is prepared, and a receiver in the sender's state accepts each operation and stays in step. |
| OperationRepository.SyncOperationRepository.PrepareNextGroup | src/db/sync/operation-repository.ts:254-476 | Prepares the oldest group in full, or offers again a group that is already prepared, or fails with every write undone. What a prepared operation carries is stated by PrepareTheorems.PrepareStep and Resolutions.GroupPreparesIff. |
| OperationRepository.SyncOperationRepository.PrepareRecords | src/db/sync/operation-repository.ts:283-475 | The loop over a group advances states, frontier row and Lamport time record by record, and undoes all of it on an error. |
| OperationRepository.SyncOperationRepository.MarkUploadFailed | src/db/sync/operation-repository.ts:482-491 | The record of that id becomes failed with one attempt more and is otherwise unchanged; every other record stays as and where it was, and none appears or disappears. |
| OperationRepository.SyncOperationRepository.RecordAcceptedLocal | src/db/sync/operation-repository.ts:493-528 | Moves an uploaded record from the outbox to the inbox as applied at its cursor, and reports whether it was there. |
| OperationRepository.SyncOperationRepository.ApplyRemoteGroup | src/db/sync/operation-repository.ts:652-900 | Tables, states, conflicts, frontier and inbox change together to the specified outcome, or nothing changes. Which outcome it is, Acceptance.GroupAppliedIff states. |
| ReceivedGroups.GroupReceived | src/db/sync/operation-repository.ts:626-650 | The loops group the waiting records, refuse an incomplete group, and order groups and members as specified. |
| ReceivedGroups.IncompleteIff | src/db/sync/operation-repository.ts:640-642 | The read fails if and only if some group has not as many records as its first one says. |
| ReceivedGroups.OfferedAreGroups | src/db/sync/operation-repository.ts:643-650 | Each offered group is exactly the waiting records of one id, in index order, and the groups come in the order of their first cursors. |
| ReceivedGroups.EachIsOfferedOnce | src/db/sync/operation-repository.ts:626-650 | Every waiting record is offered, in exactly one group, and the offered groups have different ids. |
| ReceivedGroups.WaitingGroupComesBack | src/db/sync/operation-repository.ts:626-650 | A complete group waiting alone is offered as it was sent, in whatever order its records are read. |
| RemoteApply.AdvanceMovesFrontier | src/db/sync/operation-repository.ts:869-896 | A sender with a row moves on by exactly its number of operations; other rows and all acknowledgements stay. |
| RemoteApply.AdvanceRecordsLast | src/db/sync/operation-repository.ts:869-896 | A sender's row ends with the sequence and hash of its last operation in the group. |
| RemoteApply.ConflictedChangesNothing | src/db/sync/operation-repository.ts:652-900 | A conflicted group leaves tables and entity states unchanged and files one pending conflict with the local value for each operation. |
| RemoteApply.ConflictedKeepsOthers | src/db/sync/operation-repository.ts:652-900 | A conflicted group touches no other conflict and no other inbox record. |
| ApplyTheorems.KeptStateIsTheResult | src/db/sync/operation-repository.ts:721-778 | A state is kept as it is only when the operation repeats its version and value. |
| ApplyTheorems.AppliedStaysFaithful | src/db/sync/operation-repository.ts:652-900 | After an applied group the data is valid and every entity state is the hash of its table value, if it was so before. |
| ApplyTheorems.AppliedWritesLastValue | src/db/sync/operation-repository.ts:652-900 | Each entity of an applied group ends at its last operation's value. |
| ApplyTheorems.AppliedKeepsOthers | src/db/sync/operation-repository.ts:652-900 | An entity that no operation names keeps its value and state. |
| ApplyTheorems.VersionFallsIff | src/db/sync/operation-repository.ts:714-779 | An accepted operation lowers a version if and only if it was accepted only as a resolution and starts further back. |
| ApplyTheorems.AppliedVersionsRise | src/db/sync/operation-repository.ts:652-900 | No version falls in an applied group without such a resolution. |
| ApplyTheorems.ResolvedIff | src/db/sync/operation-repository.ts:726-823 | A pending conflict is closed if and only if some operation of the group resolves it, and names that operation. |
| Acceptance.AllAcceptedIff | src/db/sync/operation-repository.ts:690-779 | At a consistent device every operation of a group is accepted if and only if each was written on exactly the version, content and deletion it meets (the device's, or what an earlier operation of the group left), or leaves just that, or names a pending conflict on its entity. |
| Acceptance.GroupAppliedIff | src/db/sync/operation-repository.ts:690-900 | A whole group next in its sender's sequence is applied, each entity ending at its last operation's value, if and only if its operations fit what the recorded states describe; otherwise it is filed and tables and states stay. Invalid finance data fails the call. |
| Acceptance.SingleAppliedIff | src/db/sync/operation-repository.ts:714-779 | At a device with nothing waiting to be prepared, an operation of its own group that resolves no pending conflict is applied if and only if it was written on the device's own version, value and deletion, or leaves exactly those; otherwise the tables stay. |
| Acceptance.NothingIsOverwrittenUnseen | src/db/sync/operation-repository.ts:690-900 | Whatever an applied group changes in a consistent device's tables, some operation of it was written on the very value the device held, or resolves a pending conflict on that entity. |
| Acceptance.AppliedCloses | src/db/sync/operation-repository.ts:726-823 | An applied group closes exactly the pending conflicts whose entity and remote operation some operation of it names, each by such an operation, and leaves every other conflict as it is. |
| Acceptance.AppliedHolds | src/db/sync/operation-repository.ts:780-868 | After an applied group the device holds of each entity the version, value and deletion record that the group's last operation on it left, and of the others what it held. |
| Delivery.RefusedAreFiled | src/db/sync/operation-repository.ts:652-900 | Through any sequence of received groups: an entity that each operation on it was written past keeps its value and state, and each of those operations waits as a pending conflict with both sides. |
| Delivery.AllTurnedAway | src/db/sync/operation-repository.ts:652-900 | Groups of one sender that each name such an entity are all filed without an error; tables and states stay, and the sender's row reaches the last of them. |
| Convergence.PreparedGroupIsComplete | src/db/sync/operation-repository.ts:626-650 | A prepared group arrives as a complete group in order, continuing its sender's sequence. |
| Convergence.PreparedGroupIsApplied | src/db/sync/operation-repository.ts:254-900 | A receiver in step with the sender stages and applies the prepared group and ends with the edited tables, in step again. |
| ConvergenceRuns.ReplicasConverge | src/db/sync/operation-repository.ts:254-900 | From equal replicas, every plausible run of edits, preparations, failed and accepted uploads is free of errors, the receiver applies every group, and both hold the same states; once everything is prepared, the same tables. |
| ConcurrentEdits.GroupIsWritten | src/db/sync/operation-repository.ts:283-475 | A group is prepared into operations of which each was written on what the one before it on its entity left, the first on what a device in step holds. |
| ConcurrentEdits.RefusedIff | src/db/sync/operation-repository.ts:714-725 | Against an entity edited since the common start, every operation of the other side is refused if and only if none of them leaves just what is held. |
| ConcurrentEdits.MeetIff | src/db/sync/operation-repository.ts:721-725 | Operations of two devices leave the same if and only if they write the same live value at the same version; two deletions never do. |
| ConcurrentEdits.OneSideStands | src/db/sync/operation-repository.ts:254-900 | Two replicas run at the same time from one state, by any plausible runs. An entity one of them edited keeps its value however many of the other's groups arrive, and each of the other's operations on it waits as a conflict against the last own one, unless one of them leaves just what is held. |
| ConcurrentEdits.ContestedChangesNothing | src/db/sync/operation-repository.ts:254-900 | If every group of the other side names an entity this side has edited to something else, the other's whole run arrives without an error and changes no table and no state. |
| ConcurrentEdits.BothSidesStand | src/db/sync/operation-repository.ts:254-900 | Both replicas edit one entity, each as often and in whatever groups it likes, and no operation of one leaves what the other ends with: each keeps all its tables and files every operation of the other on the entity. |
| ConcurrencyWitnesses.OneAgainstTwo | src/db/sync/operation-repository.ts:254-900 | A concrete run for any distinct values: one device edits a row once, the other twice, each receives what the other sent; both rows stay, with two conflicts filed on the one side and one on the other. |
| ConcurrencyWitnesses.EditInFlightIsLost | src/features/sync/operation-service.ts:178-242 | A concrete run in which an edit committed after the last preparation is overwritten by a group written on the value before it: no conflict is filed, and the edit's record then fails every preparation. |
| StagedConvergence.PulledReplicasConverge | src/db/sync/operation-repository.ts:254-900 | The same when the receiver pulls: from a receiver that has applied what the sender's frontier names, with cursors rising in sending order and no operation pulled before, every prepared group passes the chain and causality checks of staging, is applied, and both replicas agree. |
| StagedConvergence.GroupIsStaged | src/db/sync/operation-repository.ts:530-624 | Every operation of a prepared group passes staging, one after another, at a device that has applied what the sender's frontier names. |
| StagedConvergence.PagesJoin | src/db/sync/operation-repository.ts:543-618 | Staging two pages one after the other is staging them as one page, errors included. |
| ConflictRepository.SyncConflictRepository.GroupInOrder | src/db/sync/conflict-repository.ts:106-126 | Finds the pending conflicts of a group in its order if and only if all of them are there and pending. |
| ConflictRepository.SyncConflictRepository.SettleOne | src/db/sync/conflict-repository.ts:129-161 | Writes the chosen value and records one intent that names both sides of the conflict. |
| ConflictRepository.SyncConflictRepository.ResolveOperationGroup | src/db/sync/conflict-repository.ts:95-166 | Settles all conflicts of a group the same way and leaves their resolving intents in the outbox as one group, or fails and changes nothing; it fails as incomplete if and only if no order of pending conflicts covers the group. |
| Resolutions.PreparesUnlessUnknown | src/db/sync/operation-repository.ts:283-475 | A record whose previous value is the table's, edit or resolution, is prepared into an operation with exactly its conflicts and value, unless it deletes an entity that has neither a state nor a row; then preparation fails. |
| Resolutions.GroupPreparesIff | src/db/sync/operation-repository.ts:254-476 | A group whose intents replay on the tables is prepared, each record as its own operation with what it resolves, if and only if none of them deletes an entity never held; the states then describe the tables they lead to. |
| Resolutions.ResolutionPreparesIff | src/db/sync/conflict-repository.ts:95-166 | A resolution written to an empty outbox is prepared into operations that carry the chosen values and name both sides of each conflict, if and only if it deletes no entity never held; otherwise preparation fails. |
| Resolutions.ResolutionIsAccepted | src/db/sync/operation-repository.ts:726-868 | Wherever each conflict of a resolved group has a pending counterpart, the resolution is accepted on whatever is held: the entities end at the settled values, others stay, and exactly the counterparts are closed; only invalid finance data stops it. |
| ResolutionRuns.ResolutionSettlesBoth | src/db/sync/operation-repository.ts:254-900 | One device resolves, prepares and sends; the other receives: both then hold the same version and value of every settled entity and exactly the counterparts are closed, unless the finance rules refuse the outcome there. |
| ResolutionRuns.KeepingLocalCanBlock | src/db/sync/conflict-repository.ts:129-161 | A concrete run in which keeping the local side of a filed group that creates a row records the deletion of a row never held, so that preparation fails from then on. |
| QueueOrder.QueuePreparesIff | src/db/sync/operation-repository.ts:148-476 | Any queue of groups, with any creation times and ids, is prepared and uploaded in full if and only if every entity that two groups share survives the order of the outbox; the states then describe the tables if and only if each shared entity ends at its last written value, and in any case stand for the value of the group prepared last. |
| QueueOrder.WrittenOrderIsSafe | src/db/sync/operation-repository.ts:148-476 | A queue that sorts as it was written is prepared in full, and the states then describe the tables. |
| QueueRuns.EditsPrepareIff | src/db/sync/operation-repository.ts:148-528 | The same equivalences over the run of any recorded edits followed by their preparations and uploads. |
| SameInstant.SameInstantPreparesIff | src/db/sync/operation-repository.ts:148-476 | Two queued groups of one creation time are both prepared if and only if their ids sort as written or every entity they share survives the swap; the states then still describe the tables if and only if the ids sort as written or the second group changed no shared entity, and otherwise each shared entity is recorded at its value between the two. |
| SameInstant.SameInstantIsSafeIff | src/db/sync/operation-repository.ts:148-476 | For groups that write each entity once: preparation succeeds and the states stay right if and only if the ids sort as written or no entity is shared; it succeeds and leaves wrong states if and only if otherwise every shared entity had no live recorded state before and is not live and different after. |
| SameInstantRuns.TwoEditsPrepareIff | src/db/sync/operation-repository.ts:148-528 | The same equivalences for the run of two recorded edits of one millisecond, both preparations and all uploads. |
| SameInstantRuns.SameInstantCanBlockPreparation | src/db/sync/operation-repository.ts:148-151 | A concrete run in which two edits of one millisecond make preparation fail. |
| SameInstantRuns.SameInstantCanLeaveALiveState | src/db/sync/operation-repository.ts:254-476 | A concrete run without an error, a row created and deleted in one millisecond, after which the states record as live a row that the tables no longer hold. |
| StagingRuns.WaitingStaysChained | src/db/sync/operation-repository.ts:530-900 | Over every run without forks, each waiting record of another device has its predecessor in the inbox or on the frontier row, and each of its causal references at or behind the frontier or staged at a smaller cursor. |
| Staging.StagingOnlyAdds | src/db/sync/operation-repository.ts:530-624 | Staging a page adds the page's new records to the inbox and changes nothing else. |
| Staging.SeedingRises | src/db/sync/snapshot-repository.ts:414-451 | Seeding lowers no row, keeps acknowledgements, and covers every device of the snapshot without a fork. |
| Staging.WaitingIsNeverAcknowledged | src/db/sync/operation-repository.ts:942-979 | Over every run no received, unapplied record lies at or below the stored acknowledgement. |
| Staging.CursorsNeverMoveBack | src/db/sync/operation-repository.ts:530-979 | Over every run the pull cursor, the frontier sequences and the acknowledgements never move back. |
| Staging.ReturnedCursorKeepsUpIff | src/db/sync/operation-repository.ts:942-979 | The returned cursor is at least the stored acknowledgement if and only if nothing waits, nothing was acknowledged yet, or an inbox record lies at or after the acknowledgement and before everything that waits. |
| Staging.ReturnedCursorCanFallBack | src/db/sync/operation-repository.ts:942-979 | A concrete run acknowledged at 10 that then returns 0. |
| OperationRepository.SyncOperationRepository.CheckCausality | src/db/sync/operation-repository.ts:574-596 | True if and only if every reference is on the frontier or staged at a smaller cursor with the same hash. |
| OperationRepository.SyncOperationRepository.StageRemoteOperations | src/db/sync/operation-repository.ts:530-624 | Stages the whole page and moves the pull cursor, or fails and changes nothing. |
| OperationRepository.SyncOperationRepository.AdvanceAcknowledgedCursor | src/db/sync/operation-repository.ts:942-979 | Stores and returns the greatest cursor below every waiting record, and never lowers it. |
| OperationRepository.SyncOperationRepository.SeedVerifiedFrontier | src/db/sync/snapshot-repository.ts:414-451 | Seeds all devices of the snapshot, or fails and changes nothing. |
| BudgetTheorems.ReserveConservesIff | services/sync-worker/src/budget.ts:442-634 | A reservation batch keeps totals, buckets and reservations in balance if and only if its id is new, its insert is granted (and so fails), or it asks for nothing. |
| BudgetTheorems.SettleRowConservesIff | services/sync-worker/src/budget.ts:724-892 | Settling one reservation keeps the balance if and only if its day's bucket is still there or there is nothing to correct. |
| BudgetTheorems.RepeatedSettlementConservesIff | services/sync-worker/src/budget.ts:724-892 | Settling a reservation that is settled already leaves its row alone, and keeps the balance if and only if its measured use equals what it reserved or there is no total to charge. |
| BudgetTheorems.SettleConserves | services/sync-worker/src/budget.ts:724-892 | A settlement in time keeps the balance for all its reservations. |
| BudgetTheorems.ExpireRowConserves | services/sync-worker/src/budget.ts:1438-1487 | Expiring a bucket subtracts exactly that bucket from its total; the clamp does not act. |
| BudgetTheorems.StaleExpiryConservesIff | services/sync-worker/src/budget.ts:1438-1487 | Maintenance on a page read earlier keeps the balance if and only if each counter still is what was read, or was over-read while being all of the total. |
| BudgetTheorems.LedgerConserves | services/sync-worker/src/budget.ts:442-1487 | Over every run of reserve, settle and expiry, each total is the sum of its retained buckets, each bucket the sum of its reservations' costs, and no ceiling is passed unless a reservation was underestimated and the fault flag is up. |
| BudgetFlags.ReservationMadeIff | services/sync-worker/src/budget.ts:164-182 | A new id gets its reservation, charged exactly once to its bucket and total, if and only if the flags and the database size admit its kind of access and no counter would pass a ceiling; otherwise nothing is charged and no row appears. |
| BudgetFlags.ReadsIgnoreFlags | services/sync-worker/src/budget.ts:164-182 | Whether a read or diagnostic reservation is made does not depend on any flag nor on the size of the database. |
| BudgetFlags.NotAdmittedIsRefused | services/sync-worker/src/budget.ts:442-634 | An access that the flags or the database size do not admit is refused under every id, used or new, and adds no reservation. |
| BudgetFlags.SettlementReportsIff | services/sync-worker/src/budget.ts:751-892 | A settlement that goes through reports an underestimate if and only if some counter was measured above its reservation; the fault goes up if and only if it does, or the settlement fails. |
| BudgetFlags.MaintenanceReportsIff | services/sync-worker/src/budget.ts:1487-1512 | Maintenance raises the fault if and only if a reservation older than an hour was never settled. |
| BudgetFlags.WritesStopAfterFault | services/sync-worker/src/budget.ts:724-892 | Over every run: once a settlement reports an underestimate or fails, no later write reservation of the run is made, whatever follows. |
| LedgerWitnesses.RepeatedIdUnbalances | services/sync-worker/src/budget.ts:442-634 | After a run of two reservations, a request that draws a used id at the ceiling unbalances the ledger. |
| LedgerWitnesses.LateSettlementUnbalances | services/sync-worker/src/budget.ts:724-892 | After a run that expired a day, settling a reservation of that day at more than it reserved unbalances the ledger. |
| LedgerWitnesses.RepeatedSettlementUnbalances | services/sync-worker/src/budget.ts:724-892 | After a run of two reservations, a settlement at more than was reserved keeps the balance and the same settlement again breaks it. |
| LedgerWitnesses.OverlappingMaintenanceUnbalances | services/sync-worker/src/budget.ts:1438-1487 | Two maintenance runs that read the same page unbalance the ledger. |
| UsageBudget.UsageBudgetController.Reserve | services/sync-worker/src/budget.ts:442-634 | A request that holds the reservation changes nothing; otherwise the batch has the specified effect or is undone. When a new id gets its reservation, BudgetFlags.ReservationMadeIff states. |
| UsageBudget.UsageBudgetController.Settle | services/sync-worker/src/budget.ts:724-892 | All reservations of the request are settled to their measured use in one batch, with the fault flag when one was underestimated, or nothing is. |
| UsageBudget.UsageBudgetController.ExpiredBuckets | services/sync-worker/src/budget.ts:1443-1457 | The page holds the oldest expired buckets, all of them unless the page is full. |
| UsageBudget.UsageBudgetController.RunBudgetWindowMaintenance | services/sync-worker/src/budget.ts:1438-1527 | Expires the page it read and updates the maintenance flags. |
| StorageInventory.ReserveKeepsBalance | services/sync-worker/src/budget.ts:1208-1325 | Reserving an object keeps bytes and counts equal to the sums over the rows and within both limits. |
| StorageInventory.ReleaseKeepsBalance | services/sync-worker/src/budget.ts:1347-1388 | Releasing an object takes exactly its row out of both totals; the clamps do not act. |
| StorageInventory.ReleaseTwiceIsOnce | services/sync-worker/src/budget.ts:1347-1388 | A second release of the same key changes nothing, whatever it had read. |
| StorageInventory.ReleaseConservesIff | services/sync-worker/src/budget.ts:1347-1388 | A release keeps the balance if and only if the row it read has the current vault and size, or the clamp hides an over-read size. |
| StorageInventory.ReleaseVaultConservesIff | services/sync-worker/src/budget.ts:1390-1436 | Emptying a vault keeps the balance if and only if its totals did not move since they were read, or the clamp hides it. |
| StorageInventory.ReusedKeyUnbalances | services/sync-worker/src/budget.ts:1347-1388 | A release that read its row before the key was released and used again for a larger object unbalances the totals. |
| StorageInventory.LateObjectUnbalances | services/sync-worker/src/budget.ts:1390-1436 | A vault release that read the totals before another object was reserved unbalances the service total. |
| StorageInventory.InventoryStaysSound | services/sync-worker/src/budget.ts:1208-1436 | Under any interleaving of reserve, commit and repeated release, totals equal the sums over the rows and no limit is passed. |
| StorageInventory.ResourceInventory.ReserveR2Object | services/sync-worker/src/budget.ts:1208-1325 | Adds the row and both totals, answers for an existing equal row, or fails without a change. |
| StorageInventory.ResourceInventory.CommitR2Object | services/sync-worker/src/budget.ts:1327-1345 | Succeeds if and only if the object ends up committed. |
| StorageInventory.ResourceInventory.ReleaseR2Object | services/sync-worker/src/budget.ts:1347-1388 | Releases on the row it has just read. |
| StorageInventory.ResourceInventory.ReleaseVaultR2Inventory | services/sync-worker/src/budget.ts:1390-1436 | Empties the vault by the totals it has just read. |
| OperationLog.PagesAreTheTail | services/sync-worker/src/operations.ts:229-266 | Paging from a cursor to the end delivers exactly the operations after it, once and in order. |
| OperationLog.CompactKeepsPrefix | services/sync-worker/src/operations.ts:320-373 | Compacted rows stay a prefix of the log. |
| OperationLog.StampsRiseIff | services/sync-worker/src/operations.ts:291-373 | A compaction keeps clean-up times in log order if and only if it marks nothing or its clock is not behind an earlier stamp. |
| OperationLog.PruneRemovesPrefixIff | services/sync-worker/src/cleanup.ts:427-444 | Every batch that pruning may take, at any time, removes a prefix of the log if and only if the clean-up times are in log order. |
| PruningRuns.StampsStayInOrderIff | services/sync-worker/src/operations.ts:268-373 | Over every run the clean-up times stay in log order if and only if no compaction runs under an older clock than one whose rows are still there. |
| PruningRuns.PruningRemovesPrefixesIff | services/sync-worker/src/cleanup.ts:427-444 | Every pruning possible at any moment of a run removes a prefix if and only if the same holds. |
| PruningRuns.OverlapStampsOutOfOrder | services/sync-worker/src/operations.ts:268-373 | A concrete run of two overlapping acknowledgements after which pruning can take a later row and leave an earlier one. |
| OperationLogRuns.JoiningIsSafe | services/sync-worker/src/operations.ts:268-373 | A device may join at any cursor that neither a compaction nor one under way has passed. |
| OperationLogRuns.NothingIsLost | services/sync-worker/src/operations.ts:115-373 | While a device stays active with a live grant, whatever the other requests interleave, nothing after its acknowledgement is compacted or pruned, and its pulls deliver every later operation once and in order. |
| OperationLogRuns.LastPageIsTheEnd | services/sync-worker/src/operations.ts:229-266 | A page that says nothing follows brings the device to the end of the log. |
| OperationLogRuns.AcknowledgementsRise | services/sync-worker/src/operations.ts:292-318 | Over every run a device's acknowledgement never moves back. |
| OperationProgress.MeasureIff | services/sync-worker/src/operations.ts:320-357 | The measured cursor covers a row if and only if some device is active with a grant not expired for longer than the grace period and each such device has acknowledged this snapshot at or past the row. |
| OperationProgress.AcknowledgementCompactsIff | services/sync-worker/src/operations.ts:268-373 | An acknowledgement is stored if and only if it names the current snapshot and a cursor some operation has reached, and does not go back; else nothing changes. It then compacts an uncompacted row if and only if there is a snapshot, some device counts, and each that counts has acknowledged it at or past the row; every other row stays. |
| OperationProgress.LaterOperationsAreUnacknowledged | services/sync-worker/src/operations.ts:268-318 | Over every run an operation accepted after an acknowledgement lies past it. |
| OperationStore.OperationStore.HandleUploadOperation | services/sync-worker/src/operations.ts:115-209 | Accepted if and only if it is an exact retry, or continues its device's sequence with fresh identities below the quota; the answer names the stored row. |
| OperationStore.OperationStore.HandleGetChanges | services/sync-worker/src/operations.ts:229-266 | Reads one row past the limit and returns the page, the next cursor and whether more follows. |
| OperationStore.OperationStore.HandleAcknowledgeChanges | services/sync-worker/src/operations.ts:268-373 | The request's statements, run one after another, are the four steps of the interleaving model, and the outcome names the refusal. Which rows they compact, OperationProgress.AcknowledgementCompactsIff states. |
| OperationStore.OperationStore.PruneChanges | services/sync-worker/src/cleanup.ts:427-444 | Deletes at most the limit of expired rows, the soonest first, and nothing else. |
| Snapshots.TimelyCommitKeepsChain | services/sync-worker/src/snapshots.ts:513-604 | A timely commit batch extends the chain by one revision or leaves it alone. |
| Snapshots.CommitKeepsOneCommittedIff | services/sync-worker/src/snapshots.ts:513-604 | A commit batch leaves exactly one committed, pointed-at snapshot if and only if it is timely. |
| SnapshotRuns.OrderlyCommitsFormOneChain | services/sync-worker/src/snapshots.ts:187-604 | While the vault stays active, the clock does not go back, and each commit follows the insert of its own upload, not orphaned, before its clean-up time: at most one snapshot is committed, the vault points at it, and commits have consecutive revisions, each with its predecessor's hash. |
| SnapshotRuns.LateCommitDangles | services/sync-worker/src/snapshots.ts:513-571 | A concrete run in which clean-up claims the upload first and the commit leaves the vault pointing at a row that is not committed. |
| SnapshotRuns.RefusedCommitSupersedes | services/sync-worker/src/snapshots.ts:513-571 | A concrete run in which a commit that is refused, the vault being inactive, supersedes the current snapshot. |
| SnapshotRetention.ReplacedSnapshotIsKept | services/sync-worker/src/snapshots.ts:541-571 | Over every run of timely commits: a replaced snapshot among the newest retained revisions keeps its row, superseded and due a retention time after its replacement, as long as no clean-up request runs that late. |
| SnapshotRetention.NewestSnapshotIsKept | services/sync-worker/src/cleanup.ts:269-320 | After every run of timely commits the newest snapshot has its row, and it is never due for clean-up. |
| SnapshotRetention.OldSnapshotsAreDue | services/sync-worker/src/snapshots.ts:559-570 | Over every run of timely commits: a superseded snapshot that is no longer among the newest retained revisions is due for clean-up at once. |
| SnapshotRetention.UploadIsDueIff | services/sync-worker/src/snapshots.ts:303-372 | An inserted upload is due for clean-up exactly from the end of its lifetime on, and one that is given up from that moment on. |
| Snapshots.SnapshotStore.InsertTemporarySnapshot | services/sync-worker/src/snapshots.ts:303-348 | Inserts the temporary row when its constraints allow it, and otherwise changes nothing. |
| Snapshots.SnapshotStore.CommitStatements | services/sync-worker/src/snapshots.ts:513-571 | The statements one after another have the effect of the batch, and report which of them matched a row. |
| Snapshots.SnapshotStore.CommitSnapshot | services/sync-worker/src/snapshots.ts:513-604 | Succeeds if and only if the swap and the promotion matched; a conflict orphans the upload. |
| Snapshots.SnapshotStore.CleanupSnapshots | services/sync-worker/src/cleanup.ts:269-320 | Exactly the candidates that are still due are deleted; a committed row never is. |
| Ledger.CalculateAccountBalances | src/domain/calculations.ts:18-43 | The loop computes, for every listed account, its opening balance plus the effects of all transactions. |
| Ledger.DifferenceIsOneSidedTransfers | src/domain/calculations.ts:62-98 | The reconciliation difference is exactly what transfers with one unknown side leave over. |
| Ledger.ReferentialReconciles | src/domain/calculations.ts:62-98 | With all accounts known the difference is zero. |
| CommandTheorems.SaveAccountKeepsSound | src/db/commands.ts:75-103 | Saving an account keeps the tables sound: no balance negative, every account known, every cross-link and every debt status right. |
| CommandTheorems.DeleteAccountKeepsSound | src/db/commands.ts:105-132 | Deleting an account that nothing names keeps the tables sound. |
| CommandTheorems.AdjustKeepsSound | src/db/commands.ts:323-358 | An adjustment sets the balance to exactly its target and keeps the tables sound. |
| CommandTheorems.SaveTransactionKeepsSound | src/db/commands.ts:162-226 | Saving a manual transaction keeps the tables sound. |
| CommandTheorems.MarkCommitmentPaidKeepsSound | src/db/commands.ts:376-459 | Paying a commitment keeps the tables sound; a transfer from savings is paired with a payment of equal amount, date and account. |
| CommandTheorems.LinkKeepsSound | src/db/commands.ts:461-488 | Linking an expense to a plan keeps the tables sound. |
| CommandTheorems.UnlinkKeepsSound | src/db/commands.ts:491-509 | Unlinking a payment that no transfer funds keeps the tables sound. |
| CommandTheorems.WithdrawKeepsSound | src/db/commands.ts:511-548 | A withdrawal from a goal keeps the tables sound. |
| CommandTheorems.IncomeKeepsSound | src/db/commands.ts:550-609 | Receiving a planned income keeps the tables sound. |
| CommandTheorems.MarkEventPaidKeepsSound | src/db/commands.ts:611-731 | Paying an event keeps the tables sound: the event points at its transaction and the transaction at the event. |
| CommandTheorems.ContributeKeepsSound | src/db/commands.ts:733-785 | A contribution keeps the tables sound and never lifts the goal's account past its target. |
| CommandTheorems.RecordDebtPaymentKeepsSound | src/db/commands.ts:787-858 | A repayment keeps the tables sound: the debt is paid if and only if its payments sum to the original amount, and never more. |
| CommandTheorems.SaveDebtKeepsSound | src/db/commands.ts:921-939 | Saving a debt keeps the tables sound. |
| CommandTheorems.SaveEventKeepsLinksIff | src/db/commands.ts:941-970 | Saving an event keeps the links if and only if it does not drop the pointer to a paid transaction. |
| EventWitnesses.SavingCanDropPointer | src/db/commands.ts:941-970 | A concrete run after which an accepted save of a paid event breaks its link. |
| CommandTheorems.DeleteTransactionKeepsSound | src/db/commands.ts:228-321 | Deleting a transaction removes what hangs on it, or is refused, and keeps the tables sound. |
| CommandTheorems.FundingIsNeverDeletedAlone | src/db/commands.ts:228-239 | Deleting a funding transfer is refused while its payment exists. |
| CommandEffects.SaveTransactionIff | src/db/commands.ts:162-226 | A transaction is saved if and only if it is a valid independent entry on known accounts with a category of its kind, replaces no linked row, and no account that the old or new row names would fall below zero by its balance less the old effect plus the new. |
| CommandEffects.SavedTransactionStands | src/db/commands.ts:162-226 | The saved row stands in the table, no other row and no other table differs, and each balance moves by the new effect less the old. |
| CommandEffects.SaveThenDelete | src/db/commands.ts:162-321 | A new entry that is deleted again leaves solvent tables exactly as they were. |
| CommandEffects.PlainDeletionTakesOneRow | src/db/commands.ts:228-321 | An entry without links is deleted if and only if every balance less its effect stays non-negative; it goes alone, and each balance gives its effect back. |
| CommandEffects.SavedAccountStands | src/db/commands.ts:75-103 | The account stands in the table, its balance moves by the change of its opening amount, no other balance moves, and it changes between savings and spendable only while no transaction and no goal names it. |
| CommandEffects.DeletedAccountIsUnnamed | src/db/commands.ts:105-132 | A deleted account goes alone, and no transaction, goal or event that stays names it. |
| CommandEffects.AdjustmentMovesOne | src/db/commands.ts:323-358 | An adjustment brings one account to its target, moves no other, and writes nothing when the target is already there. |
| CommandEffects.IncomeArrivesOnce | src/db/commands.ts:550-609 | A planned income is received at most once: its amount, given or else planned, arrives on the chosen account and nowhere else, and its key is then used. |
| CommandEffects.LinkedEntryPays | src/db/commands.ts:461-489 | Linking moves no balance: an entry of the occurrence's amount, or one confirmed to differ, carries its key, which was free before. |
| CommandEffects.ContributionTakenIff | src/db/commands.ts:733-785 | A contribution is taken if and only if its goal is open, it goes from a spendable to the goal's savings account, the giving account holds it, and the goal's balance stays within the target. |
| CommandEffects.WithdrawalTakenIff | src/db/commands.ts:511-548 | A withdrawal is taken if and only if its goal is open and unused, both accounts are in use, and the savings hold it. |
| CommandEffects.RepaymentTakenIff | src/db/commands.ts:787-858 | A repayment is taken if and only if the debt's payments and it together stay within the original amount and, if it is personal, its account holds it under an expense category. |
| CommandEffects.CommitmentPaidIff | src/db/commands.ts:376-459 | A commitment not paid yet is paid if and only if the current plan still has it as given, its account is in use, its category is one of expenses, and the account, or else the savings it is funded from, holds the amount. |
| CommandEffects.EventPaidIff | src/db/commands.ts:611-731 | An unpaid event is paid if and only if its plan still stands on a known account and expense category, and the account holds the amount or, being savings, a spendable account brings what is missing. |
| CommandEffects.IncomeReceivedIff | src/db/commands.ts:550-609 | An income not received yet is received if and only if the plan has it under this key, on a known account and income category, in a positive amount. |
| CommandEffects.SavedEventStands | src/db/commands.ts:941-970 | A saved event stands in the table on a known account under an expense category; one that is paid keeps its account and goal. |
| CommandEffects.SavedDebtStands | src/db/commands.ts:921-939 | A debt is saved if and only if its payments stay within it and its status says whether anything remains; nothing else changes. |
| CommandEffects.UnusedPlansGo | src/db/commands.ts:1036-1057 | An event is deleted if and only if it is unpaid, a debt if and only if it has no payments, and each goes alone. |
| CommandTheorems.ReachableIsSound | src/db/commands.ts:75-1057 | In every state the commands reach from an empty database no balance is negative, the ledger reconciles, and every cross-link holds. |
| RoundTrips.CommitmentIsPaidOnce | src/db/commands.ts:376-459 | Paying a commitment takes its amount out of exactly one account, the savings that fund it or its own, and moves nothing else. |
| RoundTrips.ContributionMoves | src/db/commands.ts:733-785 | A contribution moves its positive amount from the chosen account to the goal's, and nothing else. |
| RoundTrips.WithdrawalMoves | src/db/commands.ts:511-548 | A withdrawal moves its positive amount from the goal's account to the chosen one, and nothing else. |
| RoundTrips.ContributeThenWithdraw | src/db/commands.ts:511-785 | Withdrawing what was contributed leaves every balance as it was. |
| RoundTrips.EventIsPaidOnce | src/db/commands.ts:611-731 | An event takes its amount from its account; a top-up brings just what is missing, so that nothing is left over. |
| RoundTrips.RepaymentMoves | src/db/commands.ts:787-858 | A repayment takes its amount off the debt, marks it paid when nothing remains, and takes it off the account when it is personal. |
| RoundTrips.PayThenDelete | src/db/commands.ts:228-459 | Deleting the payment of a commitment takes its funding transfer along and restores the tables. |
| RoundTrips.RepayThenDelete | src/db/commands.ts:228-858 | Deleting a personal repayment restores the tables, the debt's status included. |
| RoundTrips.PayEventThenDeleteRestoresIff | src/db/commands.ts:228-731 | Over every sound state, deleting the payment of an event restores the tables if and only if it is paid from the event's own account, no top-up of the event is there before, and the goal it completes is unused, or used on the day of the payment when another paid event completes it too. |
| RoundTrips.PayEventThenDeleteReopens | src/db/commands.ts:228-731 | Without a left-over top-up the deletion succeeds, and but for the goal everything is as before, with the event open at the account it was paid from. |
| TopUps.ReachableTopUpsArePaid | src/db/commands.ts:228-731 | In every state the commands reach, a top-up exists only while its event is paid. |
| TopUps.ReachablePaymentIsUndoneIff | src/db/commands.ts:228-731 | In states the commands reach, the deletion restores the tables if and only if account and goal allow it. |
| EventWitnesses.SecondPaymentStaysOnGoal | src/db/commands.ts:228-731 | A concrete run and an event paid from its own account whose deletion leaves the goal used on another day. |
| RoundTrips.LinkThenUnlinkRestoresIff | src/db/commands.ts:461-509 | Unlinking gives back the expense as a manual one, and restores the tables if and only if it was manual. |
| FinanceCommands.FinanceDatabase.SaveAccount | src/db/commands.ts:75-103 | The method ends in the state of the account specification, or with its error and no change. |
| FinanceCommands.FinanceDatabase.SaveTransaction | src/db/commands.ts:162-226 | The method refuses a negative balance on any touched account, and ends in the specified state, or with the error and no change. |
| FinanceCommands.FinanceDatabase.DeleteTransaction | src/db/commands.ts:228-321 | The deletions one after another end as specified; when a balance would turn negative all of them are undone. |
| FinanceCommands.FinanceDatabase.MarkCommitmentPaid | src/db/commands.ts:376-459 | The method ends in the specified state with or without the funding transfer, or with the error and no change. |
| FinanceCommands.FinanceDatabase.MarkPlannedEventPaid | src/db/commands.ts:611-731 | The method ends as specified; a stray payment of the event is adopted before a new one is made. |
| FinanceCommands.FinanceDatabase.ContributeToGoal | src/db/commands.ts:733-785 | The method ends in the specified state, or with the error and no change. |
| FinanceCommands.FinanceDatabase.RecordDebtPayment | src/db/commands.ts:787-858 | The method writes payment, transaction and debt status together as specified, or nothing. |
| FinanceCommands.FinanceDatabase.DeleteAccount | src/db/commands.ts:105-132 | The account goes as specified, or stays with the error. |
| FinanceCommands.FinanceDatabase.AdjustAccountBalance | src/db/commands.ts:323-358 | The adjustment is written as specified, or nothing is, with the error. |
| FinanceCommands.FinanceDatabase.LinkTransactionToCommitment | src/db/commands.ts:461-489 | The entry is relabelled as specified, or stays with the error. |
| FinanceCommands.FinanceDatabase.UnlinkCommitmentPayment | src/db/commands.ts:491-509 | The payment is relabelled as specified, or stays with the error. |
| FinanceCommands.FinanceDatabase.WithdrawFromGoal | src/db/commands.ts:511-548 | The method ends in the specified state, or unchanged with the error. |
| FinanceCommands.FinanceDatabase.MarkPlannedIncomeReceived | src/db/commands.ts:550-609 | The method ends in the specified state, unchanged when the key is used, or unchanged with the error. |
| FinanceCommands.FinanceDatabase.SaveDebt | src/db/commands.ts:921-939 | The debt is stored as specified, or stays with the error. |
| FinanceCommands.FinanceDatabase.SavePlannedEvent | src/db/commands.ts:941-970 | The event is stored as specified, or stays with the error. |
| Integrity.AssertFinanceDataIntegrity | src/domain/integrity.ts:52-276 | The loops over accounts, transactions, debts, payments and events, with their sets of seen keys, accept if and only if each of these rows and its links passes. |
| Integrity.SoundPasses | src/domain/integrity.ts:52-276 | Solvent, linked tables with rows in shape pass the check of accounts, transactions, debts, payments and events. |
| Integrity.PassesIff | src/domain/integrity.ts:21-315 | Where each row by itself has its shape, the check accepts exactly the tables in which no key, event or payment is named twice, funding transfers have their payments, events and their transactions point at each other, payments pair with transactions, and no debt is overpaid. |
| Integrity.PassingIsPairedIff | src/domain/integrity.ts:169-248 | What passes has repayments and transactions linked both ways if and only if no transaction names a payment that does not name it. |
| Integrity.StrayRepaymentPasses | src/domain/integrity.ts:169-248 | Concrete tables with an external payment that a transaction names: the check accepts them. |
| Integrity.ReachablePasses | src/domain/integrity.ts:21-276 | Every state the commands reach from an empty database passes that check. |
| Forecast.ReceiveConserves | src/domain/forecast.ts:117-143 | Money received raises total cash by its amount and keeps goals equal to their accounts. |
| Forecast.PayConserves | src/domain/forecast.ts:117-143 | A payment lowers total cash by its amount, leaves no protected balance below zero, and keeps goals equal to their accounts. |
| ForecastSources.PayDraws | src/domain/forecast.ts:124-143 | A payment of x from a protected account that holds v leaves max(0, v - x) on it and takes max(0, x - v) from spendable cash; no other protected balance moves, and a payment from any other account is spendable cash. |
| ForecastSources.ReceiveFills | src/domain/forecast.ts:124-143 | A receipt goes wholly to the account it names, protected or spendable. |
| ForecastSources.PayAllDraws | src/domain/forecast.ts:179-181 | In whatever order payments come, each protected account gives all it can up to what they ask of it, and spendable cash pays the rest of them and what is missing. |
| ForecastSources.ContributionIs | src/domain/calculations.ts:213-247 | A goal still saved for gets its month's plan, but no more than takes it to its target; a goal that is not gets nothing. |
| ForecastSources.UsedIff | src/domain/forecast.ts:257-262 | A goal counts as used if and only if it was before, or an event of a positive amount on the sinking goal's own account is made for it. |
| ForecastSources.MonthDraws | src/domain/forecast.ts:145-342 | Over a month each protected account takes its receipts and savings and pays what it can of its own flows; spendable cash moves only by receipts and payments outside of them, budgets, contributions, repayments and what protected accounts could not pay. |
| ForecastSources.MonthReportAddsUp | src/domain/forecast.ts:145-342 | The reported income is what all accounts receive, the reported expenses what commitments and events take from all accounts, budgets and repayments, and the reported balances are those the month ends with. |
| Forecast.ContributionIsNeutral | src/domain/calculations.ts:213-247 | A contribution leaves total cash alone, raises its goal by exactly its amount, and never lifts it past its target. |
| Forecast.RepayConserves | src/domain/forecast.ts:265-278 | A debt falls by exactly its repayment, never below zero, and other debts stay. |
| Forecast.MonthConserves | src/domain/forecast.ts:145-342 | A month changes total cash by exactly planned income less planned expenses, and reports that total. |
| Forecast.DebtsFallByRepayments | src/domain/forecast.ts:265-278 | All debts together fall by exactly the reported repayments. |
| Forecast.HorizonConserves | src/domain/forecast.ts:87-342 | Over the whole horizon cash moves by the planned net, protected balances stay non-negative, each goal equals its account, and no debt is negative. |
| Forecast.EachDebtFallsByItsPlan | src/domain/forecast.ts:265-278 | Over the horizon each debt by itself falls by exactly its own planned repayments until nothing is left. |
| Forecaster.CashForecast.ApplyToAccount | src/domain/forecast.ts:117-143 | Applies a positive or negative amount as receiving or paying; whose cash that moves, ForecastSources.PayDraws and ForecastSources.ReceiveFills state. |
| Forecaster.CashForecast.SimulateMonth | src/domain/forecast.ts:145-342 | The month's loops end in the specified state and report the specified figures. |
| Forecaster.CashForecast.CalculateForecast | src/domain/forecast.ts:87-342 | Every month's report is the specified one for the state the earlier months left. |
| Debts.GetDebtStateAtMonth | src/domain/calculations.ts:261-312 | The loops compute the debt's state: payoff month from the chronological scan, the rest from sums by month. |
| Debts.ScanAgreesWithSums | src/domain/calculations.ts:266-294 | The sums before a month reach the original amount if and only if the scan puts the payoff before that month. |
| Debts.MonthsJoin | src/domain/calculations.ts:284-294 | What remains at the end of a month is what remains at the start of the next. |
| Debts.ZeroFromPayoffOn | src/domain/calculations.ts:261-312 | The debt is zero exactly from its payoff month on. |
| Debts.PlanFitsDebt | src/domain/calculations.ts:293-312 | The remaining plan never exceeds the remaining debt, and completes the month's plan when it can. |
| Debts.OverrideBeatsMonthly | src/domain/calculations.ts:295-299 | An override sets its own month's plan, capped by what remains, whatever the monthly amount; every other month's state stays. |
| Debts.MonthlyFillsTheRest | src/domain/calculations.ts:295-299 | The monthly amount is the plan of exactly the months without an override; without either nothing is planned. |
| Debts.ActualIsWhatWasPaid | src/domain/calculations.ts:284-294 | A month's actual payments are those of the unsorted table in that month, split by who paid them, and what remains at its start is the original less all earlier ones. |
| Debts.TimelineEndsAtProgress | src/domain/calculations.ts:773-789 | After the last payment the history agrees with the debt's progress over the unsorted payments. |
| Recurrence.GetCommitmentOccurrences | src/domain/recurrence.ts:47-97 | The dates of a month are exactly those that the commitment's frequency and range pick out, in order, each once. |
| Recurrence.GetNextCommitmentOccurrence | src/domain/recurrence.ts:109-126 | Finds the first unpaid occurrence on or after a day, if and only if there is one within 120 months. |
| Recurrence.MonthsTogether | src/domain/recurrence.ts:47-97 | Successive months together hold every occurrence of their span once, in order. |
| Recurrence.WeeklyIsEverySeventhDay | src/domain/recurrence.ts:69-76 | The months of a weekly commitment together are exactly start, start + 7, and so on up to the end. |
| Recurrence.FallsOnDueDayIff | src/domain/recurrence.ts:24-27 | A monthly commitment falls on a day if and only if it is its due day or the last day of a month too short for it; a yearly one only in its start's month of the year. |
| Recurrence.OneDueDayAMonth | src/domain/recurrence.ts:24-27 | Every month holds exactly one due day. |
| Recurrence.MonthlyIsOnceAMonth | src/domain/recurrence.ts:47-97 | An active monthly commitment is due at most once a month, and once in every month that lies inside its range. |
| OccurrenceKeys.KeySplits | src/domain/recurrence.ts:36-37 | A key falls apart at its last colon into its own id and date, even when the id holds colons. |
| OccurrenceKeys.KeysDiffer | src/domain/recurrence.ts:36-37 | Two keys are equal if and only if id and date are. |
| OccurrenceKeys.WeeklyLoopEndsIff | src/domain/recurrence.ts:69-76 | The weekly loop ends if and only if the key names a month from 1 to 12. |
| OccurrenceKeys.MonthNinetyNineNeverEnds | src/domain/recurrence.ts:69-76 | The key id:2024-99-01 passes every check, and the loop on it never ends. |
| OccurrenceKeys.RequireCommitmentOccurrence | src/db/commands.ts:360-374 | Finds an occurrence if and only if the key is that occurrence's own, and says exactly when the key is malformed, the commitment is unknown, or the call never returns. |

## Left out

- Cryptography (signatures, AES-GCM, HKDF, hashing) and canonical JSON text: symbolic, see the assumptions.
- Zod value schemas beyond the fields modelled here, HTTP, authentication, pairing, recovery, diagnostics, routing and the user interface.
- Settings records in the sync model: local-only fields are stripped on one path and merged on others.
- Exhaustion of safe integers (sequence numbers, cursors, Lamport times, money) and the errors it raises.
- `updatedAt` timestamps, and the check that an outbox row's metadata repeats its stored intent: the model stores the intent once.
- The snapshot's acknowledgement check (`requireCurrentSnapshotAcknowledged`) and the device and manifest fields of its context check: only base revision, previous hash and epoch are modelled.
- Pruning of settled reservations, and the measuring of a request's real use, which is an input.
- R2 and IndexedDB as services: no listing cursors, network failures or storage limits.
- Imports and raw edits of goals and categories: in a run of commands, goals and categories may change arbitrarily, so the integrity checks that compare transactions and events with categories and goals, and those on budgets, plans, presets and settings, are not part of `Integrity`.
- Dates before the year 100, which the date library reads as the twentieth century; months and days are numbered from year 0.
- Percentages, rounding, 'tight' status thresholds, goal lifecycles, funding details and deprecated fields of the forecast.
- OperationLogRuns.NothingIsLost: starts from a state in which no compaction has passed, or is about to pass, the device; it does not speak about a device whose grant lapses in between, nor about uploads continued after all of a device's rows were pruned.
- OperationStore.OperationStore.HandleAcknowledgeChanges: states the request without interleaving; the interleavings are those of `OperationLogRuns`.
- ConvergenceRuns.ReplicasConverge: edits have increasing creation times and fresh ids, and no remote edits come in between; the receiver holds the groups in its inbox without the checks of staging, which `StagedConvergence.PulledReplicasConverge` adds. That a prepared operation's Lamport time exceeds those of operations received only in a conflicted group is not stated.
- StagedConvergence.PulledReplicasConverge: the receiver applies each group before it pulls the next.
- QueueOrder.QueuePreparesIff: the queued groups sort before everything else in the outbox, and nothing else is written while they are prepared.
- QueueRuns.EditsPrepareIff: the edits meet an empty outbox, and all of them are written before the first is prepared.
- SameInstantRuns.TwoEditsPrepareIff: the two edits meet an empty outbox.
- BudgetTheorems.LedgerConserves: reservation ids are new, each request settles once before its day expires, and expiry runs on current rows; the exact effect of breaking each of these on one batch is stated separately (`ReserveConservesIff`, `SettleRowConservesIff`, `RepeatedSettlementConservesIff`, `StaleExpiryConservesIff`).
- Staging.WaitingIsNeverAcknowledged: page cursors lie above the last pull cursor and at most at the next one.
- SnapshotRuns.OrderlyCommitsFormOneChain: the key epoch is fixed over the run.
- StagingRuns.WaitingStaysChained: assumes that no two records of another device carry one sequence, that pages hold no unknown operation of the device itself, that a group that is applied was read from the inbox, and that an accepted local operation is new to the inbox.
- Staging.CursorsNeverMoveBack: seeding models only the frontier rows; applying a remote snapshot also writes the caller's `lastServerCursor` (src/db/sync/snapshot-repository.ts:374, from src/features/sync/snapshot-service.ts:787) without a maximum, which is not an event of the run.
- Integrity.AssertFinanceDataIntegrity: does not check categories, goals, plans, budgets, presets and settings, nor the comparisons of transactions and events with them.
- Integrity.SoundPasses: speaks about the modelled part of the check, without categories, goals and plans.
- Integrity.ReachablePasses: speaks about the modelled part of the check, without categories, goals and plans.
- Forecast.HorizonConserves: which occurrences and plans fall in a month is an input.
- Forecaster.CashForecast.CalculateForecast: the month's occurrences and plans are inputs.
- Debts.GetDebtStateAtMonth: payments are sorted by a stable insertion, and identifiers are compared as numbers.
- ConcurrentEdits.OneSideStands: both devices have prepared everything they wrote; operation ids of one side are distinct; a device's own uploads, once accepted, are not added to its inbox. The finance rules may stop a delivery, and it then speaks about those before.
- ConcurrentEdits.BothSidesStand: under the same conditions.
- Acceptance.NothingIsOverwrittenUnseen: speaks about a device with nothing waiting to be prepared; for an edit in flight it is false, and `Acceptance.GroupAppliedIff` and `ConcurrencyWitnesses.EditInFlightIsLost` say what happens.
- ConflictRepository.SyncConflictRepository.ResolveOperationGroup: settings are resolved without merging local-only fields, and the closing time of a conflict is left out.
- Resolutions.ResolutionPreparesIff: the outbox is empty before the conflicts are resolved.
- SnapshotRetention.ReplacedSnapshotIsKept: every commit works with the same limit of retained snapshots.
- CommandEffects.DeletedAccountIsUnnamed: whether a commitment, planned income, preset or the settings name the account is an input.
- CommandEffects.RepaymentTakenIff: asks that every transaction of a payment row exists, as it does in every reached state.
- Integrity.PassesIff: speaks about the modelled part of the check, without categories, goals and plans, and about tables whose rows have their shape one by one.
- OperationProgress.AcknowledgementCompactsIff: a device without an unrevoked grant counts as one whose grant ended at time 0.
- ResolutionRuns.ResolutionSettlesBoth: speaks about the entities of the resolved conflicts; what else the two devices hold may differ.
