# Verified model of the bounty escrow platform

A Dafny 4.11 model of the parts of the platform that are protocols, state machines or algorithms, with proofs about every run of them. Run `dafny verify dfyconfig.toml`.

- **Money on chain.** `EscrowContract` is the Solidity contract: transactions, token balance, everything ever received and sent. `EscrowAuthority` says who may do what: when each transaction succeeds, and whose transactions a reward, a payout or a withdrawal goes back to.
- **Money in the database.** `RewardSettlement` is the settlement ledger (the SQL procedures), `SettlementProcedures` what each of them does in closed form, `SettlementDrivers` any number of concurrent `reconcile` calls over it, `SettlementReferences` the two unique columns; `SettlementFencing` says which provider submissions may pay, `SettlementFate` and `SettlementRecovery` whether a payout is ever settled, `SettlementApprovals` whether an approval is ever confirmed, `SettlementWitnesses` the runs in which each goes wrong, built from the pieces in `SettlementRuns`; `SettlementCall` and `SettlementApprovalCall` what one undisturbed call achieves from any reachable world. `FundingReconciliation` is concurrent `reconcileFunding` over one intent row with its lease, `FundingReconciliationLease` who holds that lease and which writes need it, `FundingReconciliationRecovery` and `FundingReconciliationCall` what one undisturbed call achieves after any crash; `LateFundingScan` and `FundingLedger` are the late-funding scan and the pool ledger it shares with reconciliation, `FundingLedgerCalls` its procedures in closed form, `FundingLedgerGaps` the transfers the pool never sees. `…Safety` modules hold the invariants.
- **The acceptance runner.** `AcceptanceRunner` is the 30-step runner object, `AcceptanceRunnerSafety` what every sequence of calls keeps, `AcceptanceRunnerProgress` what moves it on, `StateFile` the lock, compare, write, rename protocol between processes.
- **The AI review queue.** `AiQueue` is workers, leases, results and operator retries, `AiQueueOutcome` how a review ends and why.
- **Bounded and cached things.** `KeyCache` (webhook keys and lookup budget), `GatewaySubscription` (remote reconciler, retries, lease), `BoundedView` (which operation recovery follows).
- **Algorithms.** `LikeSearch`, `EnvLines`, `EnvRewrite`, `EnvSecrets`, `BytecodeMask`, `CanonicalJson`, `ReportHash`, `Redaction`, `DuplicateRanking`.

Code that works step by step is a class or a method with loops, proved equal to a specification function; the theorems are about that function. Processes are state machines: one action is the code between two awaits, a database procedure is one atomic action (it runs under a row lock), and a crash can happen between any two actions. Network, clock and randomness are the answers an action carries. Money is an integer number of USDC base units.

Conventions: hashes, signatures and addresses are numbers; `Sha256` keeps its input, so equal digests mean equal contents. What an undisturbed call achieves is stated for a `Given`: the keys, transactions and events the outside world hands it. Histories the database does not keep (credited transfers, drawn keys, lookups charged) are extra fields, named as history where they are declared.

## What the code does that its documentation does not say

Each of these is a theorem: the exact condition, and where it is a failure also a run from the initial state, or a file, in which it happens.

1. A funding reconciliation credits a transfer twice exactly when the first matching transfer of the destination transaction is empty and a later one is already recorded as late funding, because only the first one is looked up (`FundingLedgerSafety.DoubleCreditIff`, `DoubleCreditHappens`).
2. A funding reconciliation that resumes after a crash between "mark as syncing" and "store" reads `syncing_pool` before its own claim puts the row back to `verifying_destination`, skips the mark, submits, and is refused by the store (`FundingReconciliationSafety.StoreAcceptedIffMarked`). So an undisturbed call ends with a stored transaction exactly if there was one already or the status it first read was not `syncing_pool`, and the call after a refused one gets through (`FundingReconciliationRecovery.AttemptStoresIff`, `NextAttemptStores`, `RefusedStoreHappens`). The second look at the row that the code takes after a refused store is never reached (`FundingReconciliationLease.RecheckUnreachable`).
3. A payout made on chain may never be settled in the database, although the researcher is paid. The two calls that settle it go through exactly when the transaction is nobody else's, no failed attempt of the intent carries it, and the counters of its block are consistent and match the pools of that very moment (`RewardSettlement.ExternalPayoutCommitsIff`). The counters stay those of the payout's block while the pools move on, so some continuation settles it exactly when, besides, no deposit or settlement those counters do not include has been booked, and the intents that can no longer be cancelled are no more than they account for (`SettlementRecovery.EverSettlesIff`); otherwise it stays unsettled for ever (`SettlementFate.StrandedForever`). Three runs get there: the attempt is recorded failed after its hash was attached (`SettlementWitnesses.StrandingHappens`), somebody deposits before the confirmation (`LateDepositStrands`), a later payout is confirmed first (`LaterFirstStrands`).
4. Recording a failure names no attempt and holds no lease: it closes whatever attempt is open. An attempt that may still pay is recorded failed exactly by a process that heard of the failure of another attempt, by a verification that gave up on it, or by a payout of somebody else's (`SettlementFencing.ClosesIff`); every run in which no step does so, nor submits a key whose attempt was closed meanwhile, has at most one submission per intent that may pay, and the condition is exact (`NoneSupersededIff`, `AtMostOneLiveSubmission`). Otherwise two submissions can be live at once (`SettlementWitnesses.TwoLiveSubmissionsHappen`).
5. The same failure can close a newer approval together with its transaction, which no other attempt can carry again. An approval made on chain can still be confirmed exactly when its transaction is nobody else's and no failed attempt's (`SettlementApprovals.EverConfirmedIff`, `LostForever`, `SettlementWitnesses.LostApprovalHappens`).
6. The accounting test on a payout passes exactly when every deposit up to that block had been synced; failing it is one way into 3 (`EscrowContract.PayoutAccountingAcceptedIffSynced`).
7. Every scan leaves a transfer in an intent's destination transaction to the intent, also one the intent cannot be completed with. Such a transfer can still be credited exactly when it comes from the expected sender, what arrived is within the intent's bounds and the pool's, and its first matching transfer was not recorded as late funding before (`FundingLedgerGaps.EverCreditedIff`); otherwise it never is (`LostForever`), as happens whenever a wallet sends more than the quoted amount (`LosingHappens`). When the scans have caught up, the pool is everything received exactly when no transfer is withheld in this way (`PoolIsEverythingIff`).
8. The state file can be saved again exactly as long as the lock file is not orphaned, that is, left by a process that crashed under it or whose removal of it failed, which the code swallows (`StateFile.SavesGoOnIff`, `OrphanedLockHappens`).
9. A review run whose worker gives it up while it is `running` (a crash, a failing fetch, a failing write in the catch block) stays so for ever exactly in the fifth attempt, and blocks its program's queue; the operator's retry does not help (`AiQueueOutcome.GivesUpIff`, `AiQueueSafety.AbandonedRunSticksIff`, `StuckForever`, `StuckHappens`).
10. An operator's retry of a review run, whether it reopens the run or inserts one for an old revision that never had any, keeps the program's order exactly when no later run of the program has been attempted; otherwise two runs of one program can run at once (`AiQueueSafety.RetryKeepsOrderIff`, `EveryRunIsInOrder`, `TwoRunningHappens`, `TwoRunningAfterInsert`).
11. A reconciler that lost its lease still changes the funding intent in exactly one case: it records a reverted destination, which is not guarded by the lease and clears the lease of whoever holds it by then (`FundingReconciliationSafety.StaleProcessWritesIff`, `StaleProcessClearsALease`).
12. The environment rewriter damages the file exactly when a managed setting before the last line ends in a lone carriage return (`EnvRewriteSafety.CorrectIff`, `DamageHappens`).
13. The subscription lease covers the worst case exactly for request timeouts of up to 60 seconds; the configuration allows 58 (`GatewaySubscription.LeaseSufficesIff`).

Some rows below are corollaries, whose proof is one step from a main result or a definition: `BytecodeMask.MaskedEqualIff`, `OnlyTheCoverMatters`, `MaskingTwiceIsOnce`, `CopiesAgree` and `DriverDiffersIff` (the result is `BytecodeMask.Normalise`), `GatewaySubscription.RequestIsBounded` (the result is `LeaseSufficesIff`), `StateFile.AcceptedSaveIsCurrent` (the result is `NoLostUpdate`), `AiQueueSafety.StaleWorkerChangesNoRun` (a case analysis of one step), and, as the same for one call each, `EscrowAuthority.CloseSucceedsIff`, `SwitchSucceedsIff`, `DeactivateSucceedsIff`, `ExtendSucceedsIff`, `AcceptanceRunnerProgress.CompleteMovesIff`, `OperatorMovesIff`, `RetryIff` and `SettlementCall.VerifiedIsConfirmedNext`, `FoundIsRecordedNext` (the results are the ones over runs and whole calls beside them).

## Model

| member | source | states |
|---|---|---|
| EscrowContract.BountyEscrow.PayRewardTx | packages/contracts/src/BountyEscrow.sol:192-203 | a payout takes the specified step, or reverts leaving every field as it was, also when the token transfer fails after the counters were written |
| EscrowContract.BountyEscrow.ApproveRewardTx | packages/contracts/src/BountyEscrow.sol:165-190 | an approval takes the specified step or changes nothing, with each refusal of the contract |
| EscrowContract.BountyEscrow.WithdrawRemainingTx | packages/contracts/src/BountyEscrow.sol:241-260 | a withdrawal takes the specified step or changes nothing |
| EscrowContract.BountyEscrow.SyncFunding | packages/contracts/src/BountyEscrow.sol:156-163 | a sync takes the specified step or changes nothing; the recorded total never drops and covers everything observed |
| EscrowContract.BountyEscrow.CloseTx | packages/contracts/src/BountyEscrow.sol:212-217 | closing takes the specified step or changes nothing; it is final and never happens before the unlock time |
| EscrowContract.BountyEscrow.SetPausedTx | packages/contracts/src/BountyEscrow.sol:219-230 | pausing and unpausing take the specified step or change nothing, and in a deactivated escrow neither succeeds |
| EscrowContract.BountyEscrow.DeactivateTx | packages/contracts/src/BountyEscrow.sol:232-239 | deactivation takes the specified step or changes nothing; only the admin can, and it is final |
| EscrowContract.BountyEscrow.ExtendRefundUnlockAtTx | packages/contracts/src/BountyEscrow.sol:205-210 | the unlock time only moves forward |
| EscrowContract.StepKeepsSolvent | packages/contracts/src/BountyEscrow.sol:156-260 | any transaction by anyone keeps the counters equal to the sums they stand for, the approved rewards covered by the balance, and each reward sent at most once, to its researcher, for its amount |
| EscrowContract.EveryRunIsSolvent | packages/contracts/src/BountyEscrow.sol:103-260 | the same for every sequence of transactions from deployment |
| EscrowContract.PayRewardSucceedsIff | packages/contracts/src/BountyEscrow.sol:192-203 | in a reachable contract, with a token that refuses only for lack of balance, a payout succeeds if and only if the reward is approved and the lifetime counter does not overflow |
| EscrowContract.ApprovedRewardsAreFullyFunded | packages/contracts/src/BountyEscrow.sol:165-203 | any approved rewards can be paid one after another in any order without a further deposit |
| EscrowContract.RunExtends | packages/contracts/src/BountyEscrow.sol:165-260 | reward terms are frozen at approval, payment is final, lifetime counters and the outgoing log only grow |
| EscrowContract.SyncObservesEverything | packages/contracts/src/BountyEscrow.sol:156-163 | after a sync the recorded total is everything ever received |
| EscrowContract.SyncedTotalCoversNet | apps/api/src/escrow/arc-rpc.adapter.ts:577-624 | once `net` arrived after the snapshot, every total read after a later sync is at least snapshot plus net |
| EscrowContract.PayoutAccountingAcceptedIffSynced | apps/api/src/escrow/arc-rpc.adapter.ts:841-853 | for a paid reward the accounting test passes if and only if nothing had arrived unsynced |
| EscrowAuthority.ApproveSucceedsIff | packages/contracts/src/BountyEscrow.sol:165-190 | in a reachable contract an approval succeeds if and only if the sender is the owner or the admin, the escrow is neither closed, paused nor deactivated, all four arguments are legal, the key is new and the amount fits in what is received but neither owed nor sent; then exactly this reward is added |
| EscrowAuthority.WithdrawSucceedsIff | packages/contracts/src/BountyEscrow.sol:241-260 | a withdrawal succeeds if and only if the sender is the owner, the escrow is closed and unlocked, no reward is outstanding and the positive amount is there; then exactly it goes to the owner |
| EscrowAuthority.CloseSucceedsIff | packages/contracts/src/BountyEscrow.sol:212-217 | closing succeeds if and only if the sender is the owner or the admin, it is not closed and the unlock time has come |
| EscrowAuthority.SwitchSucceedsIff | packages/contracts/src/BountyEscrow.sol:219-230 | pausing and unpausing succeed if and only if the sender is the owner or the admin and the escrow is not deactivated |
| EscrowAuthority.DeactivateSucceedsIff | packages/contracts/src/BountyEscrow.sol:232-239 | deactivation succeeds if and only if the sender is the admin |
| EscrowAuthority.ExtendSucceedsIff | packages/contracts/src/BountyEscrow.sol:205-210 | the unlock time moves if and only if the sender is the owner or the admin and the new one is later |
| EscrowAuthority.RefusalIsReasoned | packages/contracts/src/BountyEscrow.sol:156-260 | every refusal carries the error of a condition that fails, an authorisation error only for a sender without the role |
| EscrowAuthority.EveryRewardWasApproved | packages/contracts/src/BountyEscrow.sol:88-190 | in every run, each reward was approved by a transaction of the owner or the admin with exactly its hash, researcher and amount |
| EscrowAuthority.EveryPayoutWasApproved | packages/contracts/src/BountyEscrow.sol:165-203 | in every run, so was each payout made |
| EscrowAuthority.EveryWithdrawalWasOwners | packages/contracts/src/BountyEscrow.sol:241-260 | in every run, each withdrawal was made by a transaction of the owner, after closing and the unlock time |
| EscrowAuthority.SwitchesAreJustified | packages/contracts/src/BountyEscrow.sol:205-239 | in every run, an escrow that is closed, paused or deactivated, or whose unlock time has moved, was made so by a transaction of somebody entitled to it |
| EscrowAuthority.OutsidersChangeNothing | packages/contracts/src/BountyEscrow.sol:88-260 | a transaction by anybody else changes nothing but by depositing, syncing or paying out an approved reward |
| AcceptanceRunner.ArcAcceptanceRunner.AdvanceCall | apps/api/scripts/arc-acceptance/runner.ts:294-397 | the object's step equals the specification in state and thrown error, for every driver answer |
| AcceptanceRunner.ArcAcceptanceRunner.RecordSignatureEvidence | apps/api/scripts/arc-acceptance/runner.ts:399-435 | recording is idempotent for a known operation and refuses different evidence for it |
| AcceptanceRunner.ArcAcceptanceRunner.CompleteSignatureBoundary | apps/api/scripts/arc-acceptance/runner.ts:437-452 | a signature step passes only with durable evidence |
| AcceptanceRunner.ArcAcceptanceRunner.AcknowledgeReloadCall | apps/api/scripts/arc-acceptance/runner.ts:454-510 | a reload step passes only when the hydrated fingerprint equals the frozen one |
| AcceptanceRunner.ArcAcceptanceRunner.AcknowledgeOperatorAction | apps/api/scripts/arc-acceptance/runner.ts:512-524 | the operator step appends exactly one item of evidence and moves on one step, or throws and changes nothing |
| AcceptanceRunner.ArcAcceptanceRunner.RetryFailedAssertion | apps/api/scripts/arc-acceptance/runner.ts:526-540 | only a failed current step goes back to pending; evidence, diagnostics and every other step stay |
| AcceptanceRunner.ArcAcceptanceRunner.AppendItems | apps/api/scripts/arc-acceptance/runner.ts:567-578 | items are appended in order up to the first malformed one or the 256 limit |
| AcceptanceRunnerSafety.CallKeepsInvariant | apps/api/scripts/arc-acceptance/runner.ts:294-594 | any call, with any driver answer, keeps the invariant, appends evidence only for the current step, moves at most one step on, and raises the revision whenever it changes anything |
| AcceptanceRunnerSafety.EveryRunKeepsInvariant | apps/api/scripts/arc-acceptance/runner.ts:253-594 | in every run: steps before the index passed, after it pending, evidence within 256 and diagnostics within 32, each passed signature step with durable evidence, each passed reload step with equal fingerprints |
| AcceptanceRunnerSafety.RunOnlyAppends | apps/api/scripts/arc-acceptance/runner.ts:567-593 | the evidence is an append-only log and an unchanged revision means an unchanged state |
| AcceptanceRunnerSafety.FrozenForever | apps/api/scripts/arc-acceptance/runner.ts:319-334 | the fingerprint frozen on entering a reload checkpoint stays that of its source step's evidence for the rest of the run |
| AcceptanceRunnerSafety.SkipBranchUnreachable | apps/api/scripts/arc-acceptance/runner.ts:298-302 | the current step is never already passed |
| AcceptanceRunnerSafety.FingerprintDecidesContents | apps/api/scripts/arc-acceptance/runner.ts:740-751 | equal fingerprints mean the same public contents, item by item |
| AcceptanceRunnerProgress.AdvanceMovesIff | apps/api/scripts/arc-acceptance/runner.ts:294-397 | at an automatic step that has not failed, a call moves on if and only if the driver verified it and its evidence is well-formed and fits, and then records precisely that evidence; otherwise the step is failed and the newest diagnostic carries the step, the code and whether a retry may help |
| AcceptanceRunnerProgress.AdvanceWaits | apps/api/scripts/arc-acceptance/runner.ts:294-345 | at any other step a call only waits, and at a failed one it is refused |
| AcceptanceRunnerProgress.AcknowledgeMovesIff | apps/api/scripts/arc-acceptance/runner.ts:454-510 | an acknowledged reload moves on if and only if the driver finds the frozen fingerprint again and its evidence is well-formed and fits; otherwise the step is failed with the reason |
| AcceptanceRunnerProgress.RecordAddsIff | apps/api/scripts/arc-acceptance/runner.ts:399-435 | signature evidence is added if and only if the wallet is waited for and it is well-formed, new and fits |
| AcceptanceRunnerProgress.CompleteMovesIff | apps/api/scripts/arc-acceptance/runner.ts:437-452 | a signature step is left if and only if there is durable evidence for it |
| AcceptanceRunnerProgress.OperatorMovesIff | apps/api/scripts/arc-acceptance/runner.ts:512-524 | the operator step is left if and only if the acknowledgement can be recorded |
| AcceptanceRunnerProgress.RetryIff | apps/api/scripts/arc-acceptance/runner.ts:526-540 | a retry is accepted if and only if the current step is failed, and makes it pending |
| AcceptanceRunnerProgress.AppendAllIff | apps/api/scripts/arc-acceptance/runner.ts:567-578 | all items are recorded if and only if each is well-formed and they fit; otherwise those before the first refused one, with the reason for that one |
| AcceptanceRunnerProgress.EveryStepWasEarned | apps/api/scripts/arc-acceptance/runner.ts:294-540 | in every run, each passed step was passed by a call that earned it: a driver that verified it, durable evidence, the frozen fingerprint, the operator |
| AcceptanceRunnerProgress.SignedStepsAreReferenced | apps/api/scripts/arc-acceptance/runner.ts:437-452 | in every run, each passed signature step has recorded its intent with a transaction or operation, a deposit where it makes one, and the challenge and address of the ownership proof |
| AcceptanceRunnerProgress.OperationsAreRecordedOnce | apps/api/scripts/arc-acceptance/runner.ts:399-435 | in every run, no transaction or operation is recorded twice for a signature step |
| AcceptanceRunnerProgress.PlanShape | apps/api/scripts/arc-acceptance/runner.ts:7-66 | ten signatures, each followed by the automatic step that checks it, five reloads, each freezing the step right before it, and the operator once |
| StateFile.NoLostUpdate | apps/api/scripts/arc-acceptance/runner.ts:600-662 | for any number of processes, interleaved and crashing anywhere, the states the path ever held form one chain, each derived from its predecessor by runner calls, with one run id, and equal revisions mean equal states |
| StateFile.AcceptedSaveIsCurrent | apps/api/scripts/arc-acceptance.ts:40-158 | a save that is accepted was computed from what the path holds |
| StateFile.SaveWritesIff | apps/api/scripts/arc-acceptance/runner.ts:600-662 | in every reachable world with a free lock, a save nobody disturbs puts its state into the file if and only if the file is still at the revision it was computed from, or not there yet for a new one; the lock is gone either way |
| StateFile.SavesGoOnIff | apps/api/scripts/arc-acceptance/runner.ts:600-662 | in every reachable world some continuation saves again if and only if the lock file is not left by a process that will not remove it |
| StateFile.OrphanedLockFreezesTheFile | apps/api/scripts/arc-acceptance/runner.ts:613-621 | an orphaned lock stays and the file keeps its contents under every continuation |
| StateFile.OrphanedLockHappens | apps/api/scripts/arc-acceptance/runner.ts:657-661 | runs from the empty directory that orphan the lock, by a crash and by a swallowed error |
| StateFile.OrphansIff | apps/api/scripts/arc-acceptance/runner.ts:645-661 | in every run the lock is orphaned by exactly two steps of its holder: a crash and a failure to remove the file |
| RewardSettlement.CallKeepsLedger | packages/database/migrations/20260729000600_cp13_reward_settlement.sql:443-1008 | every committed procedure keeps reserved and paid pools equal to the sums over live and paid intents and, in each row, at most one active attempt of a kind, the newest, with keys and payout hashes never reused |
| SettlementReferences.CallKeepsReferences | packages/database/migrations/20260729000600_cp13_reward_settlement.sql:112-115 | every committed procedure keeps transaction hashes and provider transactions unique over all attempts of all intents |
| SettlementReferences.EveryRunKeepsReferences | packages/database/migrations/20260729000600_cp13_reward_settlement.sql:443-1008 | the same for every interleaving of reconcilers, owner calls and answers |
| RewardSettlement.RowEffect | packages/database/migrations/20260729000600_cp13_reward_settlement.sql:443-898 | a procedure touches one row, keeps its closed attempts, and adds a key only when no attempt is open |
| RewardSettlement.PoolEffect | packages/database/migrations/20260729000600_cp13_reward_settlement.sql:686-724 | the amount is reserved once, then either released once or paid once |
| RewardSettlement.NewKeysArePrepared | packages/database/migrations/20260729000600_cp13_reward_settlement.sql:725-767 | a provider key enters a row only by preparing an attempt for it |
| RewardSettlement.ExternalPayoutSettlesIff | packages/database/migrations/20260729000600_cp13_reward_settlement.sql:839-1008 | on the row, recording an on-chain payout and confirming it goes through if and only if no failed attempt carries its hash |
| RewardSettlement.ExternalPayoutCommitsIff | packages/database/migrations/20260729000800_cp13_completion_gaps.sql:501-704 | the two calls commit if and only if the transaction is nobody else's, no failed attempt carries it, and the counters are consistent and match the pools |
| SettlementProcedures.ReportApprovalIs | packages/database/migrations/20260729000600_cp13_reward_settlement.sql:443-535 | on a good row, reporting a transaction makes it that of the newest attempt, or of a new one, while the intent waits and nobody has it; later only the same one again is accepted, to no effect |
| SettlementProcedures.ReportUncertainIs | packages/database/migrations/20260729000600_cp13_reward_settlement.sql:443-535 | an attempt without a transaction is opened if and only if none is open |
| SettlementProcedures.ConfirmApprovalIs | packages/database/migrations/20260729000600_cp13_reward_settlement.sql:536-634 | an approval is confirmed if and only if its transaction is that of the newest attempt; again only at the same place, to no effect |
| SettlementProcedures.FailIs | packages/database/migrations/20260729000600_cp13_reward_settlement.sql:635-684 | a failure is recorded if and only if the newest attempt is open, and only changes that attempt and the status |
| SettlementProcedures.CancelIs | packages/database/migrations/20260729000600_cp13_reward_settlement.sql:686-724 | an intent is cancelled if and only if it waits without an open attempt; its amount is released |
| SettlementProcedures.PrepareIs | packages/database/migrations/20260729000600_cp13_reward_settlement.sql:725-767 | a key is added if and only if the intent is ready and no attempt is open; a known one has no effect |
| SettlementProcedures.AcceptIs | packages/database/migrations/20260729000600_cp13_reward_settlement.sql:768-815 | a provider transaction is accepted if and only if the newest attempt was prepared under this key and nobody has the transaction |
| SettlementProcedures.AttachIs | packages/database/migrations/20260729000600_cp13_reward_settlement.sql:816-838 | a hash is attached if and only if the newest attempt was accepted under this transaction and nobody has the hash |
| SettlementProcedures.ObserveExternalIs | packages/database/migrations/20260729000600_cp13_reward_settlement.sql:839-898 | a payout found on chain is recorded if and only if the intent can be paid and nobody has its transaction, closing an open attempt; a known one has no effect |
| SettlementProcedures.ConfirmPayoutIs | packages/database/migrations/20260729000800_cp13_completion_gaps.sql:501-704 | a payout is confirmed if and only if the counters add up, it is the newest attempt's submitted transaction and the pools are where the counters say; again only at the same place, to no effect |
| SettlementProcedures.CallTwiceIsOnce | packages/database/migrations/20260729000600_cp13_reward_settlement.sql:443-1008 | a procedure that has committed, repeated: reporting, confirming and preparing change nothing more, every other one is refused |
| SettlementDrivers.EveryRunIsSafe | apps/api/src/escrow/reward-settlement.service.ts:120-394 | over all interleavings of reconcile calls stopped or crashed at any await: the ledger holds, the provider only ever sees persisted keys, and a paid row has chain evidence for its own recipient and amount |
| SettlementCall.CallPaysIff | apps/api/src/escrow/reward-settlement.service.ts:199-347 | in every reachable world, an undisturbed call for a payable intent ends with it paid, under the hash the chain shows, if and only if: when the chain has paid already, the transaction is free and no failed attempt's; when it has not, the open or the new attempt goes out under that hash and nobody else has it or the provider's transaction; and the event is the intent's own, with consistent counters that match the pools |
| SettlementApprovalCall.ApprovingCallPaysIff | apps/api/src/escrow/reward-settlement.service.ts:120-347 | for an intent that waits for its approval, the same call ends with it paid if and only if the chain has the approval, under the submitted hash or, for an attempt never heard of, under one nobody has, and the payout the chain has made or makes when relayed has a free hash, is the intent's own and matches the pools |
| SettlementCall.VerifiedIsConfirmedNext | apps/api/src/escrow/reward-settlement.service.ts:319-337 | a call at the verification of a submitted payout makes its confirmation, with exactly what the chain shows, its next request if and only if the chain shows it under the attempt's hash and it is the intent's own |
| SettlementCall.FoundIsRecordedNext | apps/api/src/escrow/reward-settlement.service.ts:199-267 | a call that searches the chain makes recording the payout its next request if and only if it finds it and it is the intent's own, with counters that add up and include it |
| SettlementCall.FailureIsNextIff | apps/api/src/escrow/reward-settlement.service.ts:160-189 | a call makes the failure of an attempt its next request if and only if its verification failed for good or the provider says its transaction failed; an error that may pass never does |
| SettlementCall.RefutedIsRecorded | apps/api/src/escrow/reward-settlement.service.ts:319-342 | and then the newest attempt is recorded failed and the intent is ready to be paid again |
| SettlementApprovalCall.CancelEndsIff | apps/api/src/escrow/reward-settlement.service.ts:350-394 | in every reachable world, cancelling ends an intent if and only if the chain has no approval and it waits without an open attempt; an approval that is there is reported instead |
| SettlementCall.WholeCallIsARun | apps/api/src/escrow/reward-settlement.service.ts:120-347 | such a call is one of the runs all other results are about |
| SettlementFencing.ClosesIff | packages/database/migrations/20260729000600_cp13_reward_settlement.sql:635-684 | an open attempt whose submission may still pay is recorded failed by a step if and only if the step heard of another attempt's failure, only failed to verify this one, or found a payout made by somebody else |
| SettlementFencing.NoneSupersededIff | apps/api/src/escrow/reward-settlement.service.ts:269-342 | at every moment of a run, every attempt recorded failed was never submitted or its transaction has failed, if and only if no step closed an attempt in that way or submitted a key whose attempt was closed before |
| SettlementFencing.AtMostOneLiveSubmission | apps/api/src/escrow/reward-settlement.service.ts:269-342 | in such a run at most one submission of an intent may pay |
| SettlementWitnesses.TwoLiveSubmissionsHappen | apps/api/src/escrow/reward-settlement.service.ts:294-306 | a run in which two processes hear one failure, and afterwards two submissions of one intent may both pay |
| SettlementDrivers.SubmittedKeyHasOneOwner | apps/api/src/escrow/reward-settlement.service.ts:269-292 | a submitted key is stored with exactly one intent, the one it was drawn for |
| SettlementRecovery.EverSettlesIff | apps/api/src/escrow/reward-settlement.service.ts:120-394 | in every reachable world, a payout made on chain for an intent with a confirmed approval is settled by some continuation if and only if `CanSettle` holds: free transaction, no failed attempt with it, consistent counters, nothing booked since that they do not include, and no more uncancellable intents than they account for |
| SettlementFate.StrandedForever | apps/api/src/escrow/reward-settlement.service.ts:231-267 | once that fails, the payout stays unsettled under every continuation |
| SettlementDrivers.FailingAfterAttachStrands | apps/api/src/escrow/reward-settlement.service.ts:294-342 | failing an attempt after its hash was attached leads there |
| SettlementWitnesses.StrandingHappens | apps/api/src/escrow/reward-settlement.service.ts:319-342 | a run from the empty database whose last step, recording a failure, makes a payout on chain unsettleable |
| SettlementWitnesses.LateDepositStrands | packages/database/migrations/20260729000800_cp13_completion_gaps.sql:501-704 | the same by a deposit between the payout and its confirmation |
| SettlementWitnesses.LaterFirstStrands | packages/database/migrations/20260729000800_cp13_completion_gaps.sql:501-704 | the same by confirming a later payout first |
| SettlementApprovals.EverConfirmedIff | apps/api/src/escrow/reward-settlement.service.ts:131-197 | in every reachable world, an approval made on chain for an intent that waits for it is confirmed by some continuation if and only if its transaction is nobody else's and no failed attempt's |
| SettlementApprovals.LostForever | packages/database/migrations/20260729000600_cp13_reward_settlement.sql:635-684 | once that fails, the intent never gets past its approval |
| SettlementWitnesses.LostApprovalHappens | apps/api/src/escrow/reward-settlement.service.ts:160-189 | a run whose last step, a late failure of an older attempt, does that |
| LateFundingScan.AdjacentRanges | apps/api/src/escrow/arc-rpc.adapter.ts:1075-1083 | adjacent windows concatenate to the whole range: no gap, no overlap |
| LateFundingScan.CollectWindow | apps/api/src/escrow/arc-rpc.adapter.ts:1084-1118 | one window yields its non-zero transfers in order, or fails exactly when some log is incomplete or its block no longer canonical |
| LateFundingScan.FindLateFunding | apps/api/src/escrow/arc-rpc.adapter.ts:1066-1122 | the windowed scan equals one pass over the range up to the latest block, and fails exactly when some log in the range cannot be trusted |
| LateFundingScan.ScanFinds | apps/api/src/escrow/arc-rpc.adapter.ts:1084-1118 | every non-zero transfer in the range is found, right after what precedes it |
| LateFundingScan.ScanIsFromChain | apps/api/src/escrow/arc-rpc.adapter.ts:1084-1118 | nothing else is found, and in chain order |
| LateFundingScan.ScanStable | apps/api/src/escrow/escrow.service.ts:1445-1453 | later blocks do not change what an earlier range contains |
| FundingLedger.RecordLateFunding | apps/api/src/escrow/escrow.service.ts:1454-1471 | the batches of 500 and the cursor call leave what one call for the whole list would leave, succeed exactly when it would, and a failure leaves a recorded prefix with the cursor unmoved |
| FundingLedgerCalls.LateBatchIs | packages/database/migrations/20260729000100_cp13_arc_escrow_intents.sql:1439-1559 | a batch of distinct transfers goes through if and only if range and size are right, each can be read and the pool holds what is new; then the transfers nobody recorded or claims, and no others, are recorded and credited |
| FundingLedgerCalls.ReconcileIs | packages/database/migrations/20260729000100_cp13_arc_escrow_intents.sql:1272-1437 | a reconciliation is refused if and only if the intent is unknown, or open with amounts or a first transfer that are not in order; it completes the intent if and only if it is open, not refused, and the sync transaction new |
| FundingLedgerCalls.CompletesIff | apps/api/src/escrow/escrow.service.ts:1173-1243 | in every run that `FundingLedgerSafety.EveryRunIsSafe` covers, a reconciliation completes an open intent if and only if transfers from the expected sender are in its transaction, one unless it is a unified balance, their sum is positive and within the quotation, the total grew by it, the pool holds it, a first transfer recorded before was recorded with all of it, and the sync transaction is new |
| FundingLedgerCalls.ScanListsIff | apps/api/src/escrow/escrow.service.ts:1445-1453 | a scan lists every transfer of value from the block before the cursor to the head, and nothing else |
| FundingLedgerSafety.EveryRunIsSafe | packages/database/migrations/20260729000100_cp13_arc_escrow_intents.sql:1272-1559 | over any run of scans crashing between batches, on a growing chain, interleaved with intents and reconciliations: no transfer credited twice, the pool the sum of the credited transfers, and no transfer up to the cursor unaccounted for, as long as no reconciled destination starts with an empty transfer while a later one is recorded |
| FundingLedgerSafety.DoubleCreditIff | packages/database/migrations/20260729000100_cp13_arc_escrow_intents.sql:1326-1347 | a reconciliation that credits the pool credits a transfer twice if and only if that condition fails |
| FundingLedgerSafety.DoubleCreditHappens | packages/database/migrations/20260729000100_cp13_arc_escrow_intents.sql:1326-1347 | a run in which a transfer of 5 leaves 10 in the pool |
| FundingLedgerSafety.CursorPassesNothing | apps/api/src/escrow/escrow.service.ts:1445-1471 | every transfer up to the cursor that no intent claims is recorded and credited once |
| FundingLedgerSafety.PoolIsBacked | packages/database/migrations/20260729000100_cp13_arc_escrow_intents.sql:1272-1559 | the pool never exceeds what the escrow received |
| FundingLedgerGaps.EverCreditedIff | packages/database/migrations/20260729000100_cp13_arc_escrow_intents.sql:1497-1501 | an uncredited transfer in an intent's destination transaction is credited by some continuation if and only if it matches the intent, the intent can still be completed with what arrived, and its first matching transfer is not recorded |
| FundingLedgerGaps.LostForever | packages/database/migrations/20260729000100_cp13_arc_escrow_intents.sql:1497-1501 | otherwise it stays uncredited under every continuation |
| FundingLedgerGaps.PoolIsEverythingIff | apps/api/src/escrow/escrow.service.ts:1445-1471 | when the cursor is at the head, the pool is everything the escrow received if and only if no transfer is left to an intent that has not completed with it |
| FundingLedgerGaps.LosingHappens | packages/database/migrations/20260729000100_cp13_arc_escrow_intents.sql:1309-1311 | for every transfer above the quoted gross amount, a run in which the scan passes it, the pool stays empty and no continuation credits it |
| FundingLedgerSafety.CompletedIntentIsFunded | apps/api/src/escrow/escrow.service.ts:1173-1182 | a completed intent's net is the sum of its matching transfers, between max(gross - fee, 0) and gross, and the total had grown by at least it |
| FundingLedgerSafety.FirstDecides | apps/api/src/escrow/arc-rpc.adapter.ts:533-567 | if the first matching transfer carries value and is not recorded, none of the others is |
| FundingReconciliationSafety.EveryRunIsSafe | apps/api/src/escrow/escrow.service.ts:1127-1267 | the invariant below holds for any interleaving of reconcilers, crashes, lease expiries and provider outcomes |
| FundingReconciliationSafety.CompleteIsFinal | packages/database/migrations/20260729000100_cp13_arc_escrow_intents.sql:1296-1305 | an intent is completed at most once and never changes afterwards |
| FundingReconciliationSafety.AtMostOneLiveSync | packages/database/migrations/20260729000100_cp13_arc_escrow_intents.sql:1012-1058 | the provider only ever sees keys the row stored, and a key other than the current one only has failed transactions |
| FundingReconciliationSafety.LeaseIsExclusive | packages/database/migrations/20260729000100_cp13_arc_escrow_intents.sql:920-956 | two processes never hold the row at once |
| FundingReconciliationSafety.StaleProcessWritesIff | packages/database/migrations/20260729000100_cp13_arc_escrow_intents.sql:1226-1270 | a process whose lease was taken over changes the row if and only if it is recording a reverted destination that is still the row's, and then clears the destination and the current lease |
| FundingReconciliationSafety.StaleProcessClearsALease | apps/api/src/escrow/escrow.service.ts:1244-1250 | a run in which it clears the valid lease of another process |
| FundingReconciliationSafety.CompletionIsProven | apps/api/src/escrow/escrow.service.ts:1187-1243 | a completed row carries the evidence of its own stored sync transaction, which succeeded, and a net within the bounds |
| FundingReconciliationSafety.StoreAcceptedIffMarked | apps/api/src/escrow/escrow.service.ts:1183-1207 | under a valid lease the store succeeds if and only if this call marked the row as syncing |
| FundingReconciliationRecovery.AttemptStoresIff | apps/api/src/escrow/escrow.service.ts:1127-1207 | from every reachable world with a free lease, an undisturbed call ends with a stored sync transaction if and only if there was one or the status it first read was not `syncing_pool` |
| FundingReconciliationRecovery.NextAttemptStores | apps/api/src/escrow/escrow.service.ts:1183-1207 | the call after a refused one gets through |
| FundingReconciliationRecovery.RefusedStoreHappens | apps/api/src/escrow/escrow.service.ts:1183-1207 | a run in which a call under a valid lease submits without having marked the row and is refused |
| FundingReconciliationCall.CallCompletesIff | apps/api/src/escrow/escrow.service.ts:1127-1267 | in every reachable world with a free lease, an undisturbed call completes the intent, with this net and this transaction, if and only if the destination stands with a net within the quotation, the sync gets through and succeeded, the total grew by the net and the ledger accepts |
| FundingReconciliationCall.CallFailsIff | apps/api/src/escrow/escrow.service.ts:1208-1250 | it records the sync as failed, with a fresh key, if and only if it got that far and the sync failed or reverted; and gives the destination up if and only if the chain reverted it |
| FundingReconciliationCall.WholeCallIsARun | apps/api/src/escrow/escrow.service.ts:1127-1267 | such a call is one of the runs all other results are about |
| FundingReconciliationLease.ClaimerHoldsIff | packages/database/migrations/20260729000100_cp13_arc_escrow_intents.sql:920-956 | in every run, a process that claims gets the row under its lease if and only if the intent is open and has not lapsed, and nobody holds it |
| FundingReconciliationLease.ValidLeaseGuardsIff | packages/database/migrations/20260729000100_cp13_arc_escrow_intents.sql:920-1270 | in every run, while a lease is valid nobody but its holder changes the row, except by recording a reverted destination, cancelling a lapsed intent or attaching a missing destination; only the first takes the lease away |
| FundingReconciliationLease.StoringGoesOnIff | apps/api/src/escrow/escrow.service.ts:1183-1207 | in every run, a call that comes to store its submission goes on if and only if it marked the row itself and still holds it under a valid lease |
| FundingReconciliationLease.RecheckUnreachable | apps/api/src/escrow/escrow.service.ts:1197-1207 | no run reaches the second look at the row after a refused store |
| FundingReconciliationLease.FailureNeedsLeaseIff | packages/database/migrations/20260729000100_cp13_arc_escrow_intents.sql:1012-1058 | in every run, a failed sync is recorded if and only if the process still holds the row under a valid lease |
| FundingReconciliationLease.LeaseOutlastsIff | apps/api/src/escrow/escrow.service.ts:1138-1142 | the lease outlasts polling, two requests and a minute if and only if they fit in fourteen minutes, and is never too long to be granted |
| AiQueueSafety.EveryRunIsSafe | apps/api/src/reports/ai-review.repository.ts:487-639 | over all interleavings of workers, crashes, expired leases and operator retries: one result per run with the run's own revision and hash, completed implies a result, at most five attempts |
| AiQueueSafety.FinishedStaysFinished | packages/ai/src/orchestrator.ts:82-195 | no worker step leaves completed or failed, or changes a result |
| AiQueueSafety.StaleWorkerChangesNoRun | apps/api/src/reports/ai-review.repository.ts:617-639 | a worker that lost its lease cannot change any run; all it may still do is insert a missing result |
| AiQueueSafety.LeaseIsExclusive | packages/database/migrations/20260731000100_ai_revisions_queue.sql:680-741 | two workers never hold the same run |
| AiQueueSafety.FailureRequeuesIff | apps/api/src/reports/ai-review.repository.ts:600-612 | a failure requeues the run if and only if it is retryable and fewer than five attempts were made |
| AiQueueOutcome.ReviewCompletesIff | packages/ai/src/orchestrator.ts:82-195 | in every reachable world, a worker that claims a run and is not disturbed completes it, with a result of the run's own source, if and only if the report is read, both provider calls succeed and no write fails |
| AiQueueOutcome.HeldComparisonCompletes | apps/api/src/reports/ai-review.repository.ts:559-598 | whatever happened before, a worker at the comparison that still holds its run completes it with three good answers |
| AiQueueOutcome.ProviderFailureEnds | packages/ai/src/orchestrator.ts:183-195 | a provider call that fails puts the run back, due a second later, if and only if the failure is retryable and attempts are left; otherwise the run fails; no result appears |
| AiQueueOutcome.FailedWriteEnds | apps/api/src/reports/ai-review.repository.ts:600-639 | a write that fails, the last one included, ends with the run recorded failed |
| AiQueueOutcome.LostWorkerStops | apps/api/src/reports/ai-review.repository.ts:541-557 | a worker that has lost its run by the time it saves the fingerprint changes nothing any more, whatever it is answered |
| AiQueueOutcome.GivesUpIff | packages/ai/src/orchestrator.ts:82-195 | in every run, a worker leaves a run it holds running if and only if the report cannot be read or recording a failure fails in its turn |
| AiQueueOutcome.OutcomeWasHeard | packages/ai/src/orchestrator.ts:82-195 | a run becomes failed only by a worker of that very attempt that got an answer other than success, and completed only by one whose comparison succeeded |
| AiQueueOutcome.CanClaimIff | packages/database/migrations/20260731000100_ai_revisions_queue.sql:699-723 | a run can be claimed if and only if it heads its program's queue and is queued and due, or running with attempts left and its lease of five minutes over |
| AiQueueOutcome.ClaimTakesIff | packages/database/migrations/20260731000100_ai_revisions_queue.sql:680-741 | a claim gives an idle worker the run, one attempt up, if and only if it can be claimed |
| AiQueueOutcome.TakenOverIff | packages/database/migrations/20260731000100_ai_revisions_queue.sql:699-704 | a running run is taken from its worker if and only if a claim comes after its lease and attempts are left |
| AiQueueOutcome.NobodyHurries | apps/api/src/reports/ai-review.repository.ts:617-639 | in every run, nobody claims a run that was put back before its second is over |
| AiQueueOutcome.SubmitQueuesIff | packages/database/migrations/20260731000100_ai_revisions_queue.sql:300-367 | a submission is queued with all its attempts if and only if it is new and has the next number of its program |
| AiQueueOutcome.RetryQueuesIff | packages/database/migrations/20260810000500_fix_ai_manual_review_retry.sql:40-118 | an operator's retry queues a run with all its attempts and no result if and only if it failed or the revision has no run |
| AiQueueSafety.RetryKeepsOrderIff | packages/database/migrations/20260810000500_fix_ai_manual_review_retry.sql:66-118 | an operator's retry that reopens a run, or inserts one for a revision without any, keeps the order if and only if no later run of the program has been attempted |
| AiQueueSafety.EveryRunIsInOrder | packages/database/migrations/20260731000100_ai_revisions_queue.sql:708-723 | at every moment of a run each attempted run has everything submitted earlier in its program finished, if and only if every retry met that condition |
| AiQueueSafety.OneRunningPerProgram | packages/database/migrations/20260731000100_ai_revisions_queue.sql:708-723 | if every retry met it, at most one run of a program is running |
| AiQueueSafety.TwoRunningHappens | packages/database/migrations/20260810000500_fix_ai_manual_review_retry.sql:66-104 | a run with a retry out of turn after which two runs of one program are running |
| AiQueueSafety.TwoRunningAfterInsert | packages/database/migrations/20260810000500_fix_ai_manual_review_retry.sql:106-118 | the same after a retry that inserts a run for a backfilled revision |
| AiQueueSafety.AbandonedRunSticksIff | packages/database/migrations/20260731000100_ai_revisions_queue.sql:699-704 | whatever step makes a worker give up a run that keeps running under it leaves the run stuck if and only if it was the fifth attempt |
| AiQueueSafety.StuckForever | packages/database/migrations/20260810000500_fix_ai_manual_review_retry.sql:52-67 | a stuck run stays running and what is queued behind it waits for ever, operator retries included |
| AiQueueSafety.StuckHappens | packages/database/migrations/20260731000100_ai_revisions_queue.sql:699-704 | five crashes from the empty queue lead there |
| KeyCache.CircleGatewayWebhookVerifier.Lookup | apps/api/src/escrow/circle-gateway-webhook.verifier.ts:59-73 | the part of getKey before its fetch takes the specified step and answers hit, known unknown, unconfigured, exhausted or fetch; a hit is an unexpired entry for the id, a fetch is configured and charged to the budget |
| KeyCache.CircleGatewayWebhookVerifier.Receive | apps/api/src/escrow/circle-gateway-webhook.verifier.ts:88-121 | the part after the fetch stores a key for ten minutes or an unknown id for one |
| KeyCache.CircleGatewayWebhookVerifier.ConsumeBudget | apps/api/src/escrow/circle-gateway-webhook.verifier.ts:133-143 | the fixed window restarts when it is over and admits sixteen lookups; within a window each admitted one is counted once |
| KeyCache.SetBounded | apps/api/src/escrow/circle-gateway-webhook.verifier.ts:145-152 | the entry is inserted last and the oldest are dropped down to 128 |
| KeyCacheSafety.EveryRunIsSafe | apps/api/src/escrow/circle-gateway-webhook.verifier.ts:59-153 | in every run both caches hold at most 128 distinct ids, every cached key was received for its id, and the window accounting is exact |
| KeyCacheSafety.PutKeepsNewest | apps/api/src/escrow/circle-gateway-webhook.verifier.ts:145-152 | the newest entry survives the eviction it causes |
| KeyCacheSafety.HitIsFresh | apps/api/src/escrow/circle-gateway-webhook.verifier.ts:59-62 | a hit returns what a fetch for that id returned less than ten minutes ago |
| KeyCacheSafety.LookupAnswersIff | apps/api/src/escrow/circle-gateway-webhook.verifier.ts:59-72 | in every run a lookup hits if and only if an unexpired key is cached for the id, is refused without a fetch if and only if none is and an unexpired failure is, and fetches if and only if neither, it is configured and the budget is not spent |
| KeyCacheSafety.ReceivedKeyAnswers | apps/api/src/escrow/circle-gateway-webhook.verifier.ts:116-121 | in every run a key that was fetched answers every lookup of the next ten minutes while fewer than 128 other keys arrive and none for the id |
| KeyCacheSafety.UnknownIdIsRefused | apps/api/src/escrow/circle-gateway-webhook.verifier.ts:89-95 | an id the service did not know is refused without a fetch for the next minute |
| KeyCacheSafety.RefusalIsFresh | apps/api/src/escrow/circle-gateway-webhook.verifier.ts:63-67 | and only such an id is |
| KeyCacheSafety.LookupKeeps | apps/api/src/escrow/circle-gateway-webhook.verifier.ts:59-72 | a lookup leaves in the caches exactly what has not expired, and on its way to a fetch forgets a failure of the id that expired meanwhile |
| KeyCacheSafety.AtMostThirtyTwoAMinute | apps/api/src/escrow/circle-gateway-webhook.verifier.ts:133-143 | no half-open minute sees more than 32 fetches |
| GatewaySubscription.Reconcile | apps/api/src/escrow/circle-gateway-subscription.client.ts:57-140 | returns normally exactly when the input is acceptable, the requests get through and the second read shows what was asked for; patches at most once, and only when needed |
| GatewaySubscription.AcceptableIff | apps/api/src/escrow/circle-gateway-subscription.client.ts:57-85 | a call is acceptable if and only if it names between one and fifty different addresses and at least one domain, each of the four supported |
| GatewaySubscription.UpToDateMeansSameSets | apps/api/src/escrow/circle-gateway-subscription.client.ts:86-100 | comparing sorted copies without duplicates decides equality of the address and domain sets |
| GatewaySubscription.ReconcileTwice | apps/api/src/escrow/circle-gateway-subscription.client.ts:57-140 | one patch converges and an immediately repeated call sends none |
| GatewaySubscription.Request | apps/api/src/escrow/circle-gateway-subscription.client.ts:204-255 | the retry loop: which attempts are made, how long it takes and whether it succeeds |
| GatewaySubscription.RequestSucceedsIff | apps/api/src/escrow/circle-gateway-subscription.client.ts:204-255 | a request succeeds if and only if one of three attempts is answered as expected and every earlier one invited a retry; the time it took is that of these attempts and the pauses between them |
| GatewaySubscription.RequestIsBounded | apps/api/src/escrow/circle-gateway-subscription.client.ts:204-255 | three attempts and two pauses take at most 3t + max(350, t) + max(600, t) |
| GatewaySubscription.WorstIsReached | apps/api/src/escrow/circle-gateway-subscription.client.ts:213-247 | that bound is reached |
| GatewaySubscription.LeaseSufficesIff | apps/api/src/escrow/gateway-subscription-lifecycle.service.ts:24-36 | the three requests of a reconciliation end within the lease whatever the network does, if and only if the timeout is at most 60,000 ms |
| BoundedView.AttachBounded | apps/api/src/escrow/escrow.repository.ts:1285-1302 | the merge of the two query results keeps what it has and stops at 64 |
| BoundedView.BoundedViewRefines | apps/api/src/escrow/escrow.repository.ts:349-384 | if attempt numbers never decrease with creation time and something is live, the capped view selects the same operation as the whole history |
| BoundedView.SameSelectionIff | apps/api/src/escrow/escrow.repository.ts:1240-1333 | for every history it does if and only if the operation the whole history selects is live with fewer than 8 newer live ones, or has fewer than 64 newer ones |
| BoundedView.SelectionIgnoresOrderAndPolling | apps/api/src/escrow/escrow.repository.ts:362-384 | neither row order nor update times change the choice |
| BoundedView.LiveSelectionIff | apps/api/src/escrow/escrow.repository.ts:364-375 | while something is live, the selected operation is the live one of the latest attempt, the one created last in it |
| BoundedView.DeadSelectionIff | apps/api/src/escrow/escrow.repository.ts:376-384 | otherwise it is the operation of the latest attempt, the one updated last in it |
| LikeSearch.ChainIsOnePass | apps/api/src/reports/report.repository.ts:1152-1154 | the three chained replacements equal one escaping pass |
| LikeSearch.ReportSearchIsLiteral | apps/api/src/reports/report.repository.ts:615-626 | under PostgreSQL pattern matching, with any case folding, the pattern matches exactly the titles that contain the search string |
| LikeSearch.ProgramSearchIsLiteral | apps/api/src/programs/program.repository.ts:35-37 | the same for program names |
| LikeSearch.NoDanglingEscape | apps/api/src/programs/program.repository.ts:35-37 | neither escaper leaves a dangling escape |
| EnvLines.SplitIsProper | deploy/upsert_circle_phase2_env.py:58-58 | splitting keeps every byte and yields plain lines with one terminator |
| EnvLines.SplitJoin | deploy/upsert_circle_phase2_env.py:58-58 | splitting gives back lines that were joined, if each stays separate from the next |
| EnvRewrite.RenderUpdatedEnvironment | deploy/upsert_circle_phase2_env.py:51-86 | fails exactly when a managed key is assigned twice, never with the ambiguity error, and otherwise writes the specified bytes |
| EnvRewriteSafety.CorrectIff | deploy/upsert_circle_phase2_env.py:51-86 | the output has every managed key once with its value and every other line byte for byte in order if and only if no managed line before the last ends in a lone CR |
| EnvRewriteSafety.DamageHappens | deploy/upsert_circle_phase2_env.py:51-86 | a file of two settings that comes out as one |
| EnvRewriteSafety.RewritingTwiceIsOnce | deploy/upsert_circle_phase2_env.py:51-86 | rewriting the output changes nothing |
| EnvRewriteSafety.EndingsStayUniform | deploy/upsert_circle_phase2_env.py:51-86 | a file whose lines all end alike, in LF or in CR LF, still does after the rewriting |
| EnvRewriteSafety.AssignsIff | deploy/upsert_circle_phase2_env.py:33-36 | a line assigns a key if and only if it reads, up to blanks, the key and an equals sign, with or without `export` before it |
| EnvSecrets.ValidateRequiredSecrets | deploy/upsert_circle_phase2_env.py:89-114 | the loops compute the verdict on the first required key that is missing, repeated or blank after unquoting |
| EnvSecrets.AcceptedIff | deploy/upsert_circle_phase2_env.py:89-114 | a file is accepted if and only if every required secret is assigned in exactly one line to something that is not blank, also between quotes; otherwise the first that is not is named, with which of the two it is |
| EnvSecrets.RewriteKeepsVerdict | deploy/upsert_circle_phase2_env.py:51-114 | the rewritten file gets the verdict of the original |
| EnvSecrets.ProductionIsOk | deploy/upsert_circle_phase2_env.py:21-32 | the deployed keys and values meet the assumptions of these theorems |
| BytecodeMask.Normalise | apps/api/src/escrow/arc-rpc.adapter.ts:94-105 | the nested fill loops leave zero inside any range and the original byte elsewhere, and fail exactly when a range is refused |
| BytecodeMask.MaskedEqualIff | apps/api/src/escrow/escrow-artifact.ts:43-63 | two runtimes normalise equally if and only if they agree outside the ranges |
| BytecodeMask.OnlyTheCoverMatters | apps/api/src/escrow/escrow-artifact.ts:43-63 | order, repetition and overlap of the ranges do not matter |
| BytecodeMask.MaskingTwiceIsOnce | apps/api/src/escrow/escrow-artifact.ts:43-63 | masking is idempotent |
| BytecodeMask.CopiesAgree | apps/api/scripts/arc-acceptance/live-driver.ts:1882-1904 | on every range list the artifact schema admits the three copies do the same |
| BytecodeMask.DriverDiffersIff | apps/api/scripts/arc-acceptance/live-driver.ts:1889-1897 | beyond the schema, only an empty range separates the live driver from the others |
| CanonicalJson.SortDecidesSame | apps/api/src/openapi/openapi.ts:125-143 | two documents have the same sorted form if and only if they are equal up to key order at every depth |
| CanonicalJson.SortingTwiceIsOnce | apps/api/src/openapi/openapi.ts:125-139 | sorting is idempotent |
| ReportHash.CanonicalDecides | apps/api/src/reports/report-content-hash.ts:24-38 | two reports have the same canonical record if and only if their scalar fields agree and their impacts and trimmed custom impacts are equal as multisets |
| Redaction.RedactSensitiveData | apps/api/src/logging/redaction.ts:38-78 | the recursive walk with its shared seen set terminates on every finite graph and computes the specified copy |
| Redaction.RedactIsClean | apps/api/src/logging/redaction.ts:38-74 | nothing but the marker under a sensitive key, and no signed URL in any string |
| Redaction.RedactShows | apps/api/src/logging/redaction.ts:38-74 | what is not sensitive, not signed and not seen before is in the copy, at its place and under its key |
| Redaction.SensitiveIff | apps/api/src/logging/redaction.ts:29-35 | a key is sensitive if and only if its letters and digits alone, in lower case, are a listed one |
| Redaction.TextIsReplacedIff | apps/api/src/logging/redaction.ts:27-41 | a text is replaced by the marker if and only if a question mark or ampersand and then, in any case, a signing parameter stand in it |
| Redaction.RedactIsLinear | apps/api/src/logging/redaction.ts:57-61 | each object is copied at most once |
| Redaction.RedactingTwiceIsOnce | apps/api/src/logging/redaction.ts:38-78 | redacting the copy changes nothing |
| DuplicateRanking.JaccardFacts | packages/ai/src/providers.ts:109-116 | similarity is symmetric, lies in [0,1] and is 1 exactly for equal sets |
| DuplicateRanking.JaccardIsShare | packages/ai/src/providers.ts:109-116 | similarity is the share of common elements among those of either set, and zero exactly for sets with nothing in common that are not both empty |
| DuplicateRanking.CommonElementCounts | packages/ai/src/providers.ts:109-116 | one more common element brings two different sets closer |
| DuplicateRanking.AgreementDecides | packages/ai/src/providers.ts:203-212 | where each signal agrees or has nothing in common: functions or classes alone make a candidate, impacts and components only together, and at least three agreeing signals make it likely |
| DuplicateRanking.ScoreFacts | packages/ai/src/providers.ts:203-209 | scores lie in [0,1], so the clamp does nothing, and are 1 exactly for equal fingerprints |
| DuplicateRanking.RankingIsTop | packages/ai/src/providers.ts:199-214 | the result is the descending top twenty: nothing left out beats anything kept |
| DuplicateRanking.StoredCandidatesWereRetrieved | packages/ai/src/orchestrator.ts:149-163 | whatever a provider answers, only retrieved candidates are stored and the verdict is that of the first |
| DuplicateRanking.FilterKeepsOwnAnswer | packages/ai/src/orchestrator.ts:149-163 | the built-in provider's answer passes the filter unchanged |

## Left out

- FundingLedger.RecordLateFunding: the overflow test of a single call is modelled on the pool after the call, as the procedure computes it; several programs sharing one database are not, since every transfer and row named here belongs to one escrow.
- FundingLedgerGaps.EverCreditedIff: intents that were cancelled or failed are not kept apart from open ones.
- FundingReconciliationSafety.EveryRunIsSafe: one intent row; that `now` in the database and in the service are one clock is assumed, and the destination operation rows, the `failed` status and the telemetry columns are not kept.
- SettlementDrivers.EveryRunIsSafe: the approval transaction is found or verified by an answer of the chain, a provider transaction is fresh when it is assigned, and timestamps, audit rows and notifications are not kept.
- SettlementRecovery.EverSettlesIff: a continuation lets the outside world answer as it may, so it may contain deposits, new intents and verifications that fail.
- SettlementCall.CallPaysIff: while an undisturbed call is under way, searches find what is on chain, the provider sends what it accepted and no error occurs; what errors, crashes and other processes lead to is in the results over all runs.
- AiQueueSafety.OneRunningPerProgram: the claim's row locks are one atomic action.
- LikeSearch.ReportSearchIsLiteral: PostgREST's `*` alias for `%` and multi-character case folding.
- CanonicalJson.SortDecidesSame: keys are ranks, so keys that compare equal under `localeCompare` and integer-like keys, which JavaScript moves to the front, are not modelled; neither is the text `JSON.stringify` makes of the sorted value.
- DuplicateRanking.ScoreFacts: exact arithmetic instead of floating point; case folding and trimming happen before the sets are formed.
- GatewaySubscription.RequestIsBounded: reading the response body is not timed, as the code does not time it either; the deadline loop around the reconciler is not modelled.
- KeyCacheSafety.HitIsFresh: key parsing and signature verification.
- Redaction.RedactSensitiveData: functions and symbols, and non-enumerable properties.
- BytecodeMask.Normalise: hexadecimal parsing and the checksum that is taken of the result.
- EscrowContract.PayRewardSucceedsIff: the token refuses a transfer only for lack of balance; a pause or a blacklisted researcher, which also revert a payout, are not modelled.
- StateFile.NoLostUpdate: creating the directory and closing the lock handle are not modelled; a process that fails there behaves like one that crashes.
- Reentrancy of a hostile token, gas, and events of the contract; the contract's `nonReentrant` guard is taken at its word.
- Withdrawal intents and their replacements, escrow deployment with its retry loop, Gateway deposit readiness, and webhook delivery: each follows the claim, submit, verify pattern of the two protocols modelled here.
- Schemas, status tables, mappers, controllers, prompts, the web application and logging setup: finite tables or plumbing.
- USDC parsing and formatting, hashing, signatures and ABI decoding.
- File locking by `flock`, `fsync` and metadata checks of the environment updater; only its two pure passes are modelled.
