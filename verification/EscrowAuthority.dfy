/** Who can make the escrow do what: the exact condition under which each transaction of a role goes through,
    and what that means for every sequence of transactions. */
module EscrowAuthority {
  import opened EscrowContract

  // ---------------------------------------------------------------- one transaction

  predicate WellFormed(key: Bytes32, contentHash: Bytes32, researcher: Address, amount: nat) {
    key != 0 && contentHash != 0 && researcher != 0 && 0 < amount <= UINT128_MAX
  }

  predicate AcceptsApprovals(e: Escrow) {
    !e.closed && !e.paused && !e.deactivated
  }

  /** An approval goes through exactly for the owner or the admin of an open contract, for a well-formed reward
      under a new key that the balance left over by the rewards already approved covers. */
  lemma ApproveSucceedsIff(e: Escrow, tx: Tx)
    requires tx.call.ApproveReward?
    ensures var c := tx.call;
            Execute(e, tx).Done? <==>
              && (tx.sender == e.owner || tx.sender == e.admin) && AcceptsApprovals(e)
              && WellFormed(c.key, c.contentHash, c.researcher, c.amount) && c.key !in e.rewards
              && e.totalApprovedOutstanding + c.amount <= e.balance
              && e.totalApprovedOutstanding + c.amount < UINT256_LIMIT
  {
  }

  /** A withdrawal goes through exactly for the owner, of a closed contract past its unlock time with nothing
      outstanding, for a positive amount that is there; it sends that amount to the owner. */
  lemma WithdrawSucceedsIff(e: Escrow, tx: Tx)
    requires tx.call.WithdrawRemaining?
    ensures var amount := tx.call.expectedAmount;
            Execute(e, tx).Done? <==>
              && tx.sender == e.owner && e.closed && tx.now >= e.refundUnlockAt && e.totalApprovedOutstanding == 0
              && 0 < amount <= e.balance && e.totalWithdrawn + amount < UINT256_LIMIT
    ensures Execute(e, tx).Done? ==>
              var e' := Execute(e, tx).escrow;
              && e' == e.(balance := e'.balance, totalWithdrawn := e.totalWithdrawn + tx.call.expectedAmount)
              && e'.balance + (if e.owner == e.self then 0 else tx.call.expectedAmount) == e.balance
  {
  }

  /** Closing goes through exactly for the owner or the admin of a contract that is not closed, at or after its
      unlock time; it changes nothing else. */
  lemma CloseSucceedsIff(e: Escrow, tx: Tx)
    requires tx.call.Close?
    ensures Execute(e, tx).Done? <==> OwnerOrAdmin(e, tx.sender) && !e.closed && tx.now >= e.refundUnlockAt
    ensures Execute(e, tx).Done? ==> Execute(e, tx).escrow == e.(closed := true)
  {
  }

  /** The pause switch works exactly for the owner or the admin, and not after deactivation. */
  lemma SwitchSucceedsIff(e: Escrow, tx: Tx)
    requires tx.call.Pause? || tx.call.Unpause?
    ensures Execute(e, tx).Done? <==> OwnerOrAdmin(e, tx.sender) && !e.deactivated
    ensures Execute(e, tx).Done? ==> Execute(e, tx).escrow == e.(paused := tx.call.Pause?)
  {
  }

  lemma DeactivateSucceedsIff(e: Escrow, tx: Tx)
    requires tx.call.Deactivate?
    ensures Execute(e, tx).Done? <==> tx.sender == e.admin
    ensures Execute(e, tx).Done? ==> Execute(e, tx).escrow == e.(deactivated := true, paused := true)
  {
  }

  lemma ExtendSucceedsIff(e: Escrow, tx: Tx)
    requires tx.call.ExtendRefundUnlockAt?
    ensures Execute(e, tx).Done? <==> OwnerOrAdmin(e, tx.sender) && tx.call.newUnlockAt > e.refundUnlockAt
    ensures Execute(e, tx).Done? ==> Execute(e, tx).escrow == e.(refundUnlockAt := tx.call.newUnlockAt)
  {
  }

  // The caller has the role the transaction needs; deposits, syncs and payouts need none.
  predicate HasRole(e: Escrow, tx: Tx) {
    match tx.call
    case Deposit(_) => true
    case SyncExternalFunding => true
    case PayReward(_) => true
    case Deactivate => tx.sender == e.admin
    case WithdrawRemaining(_) => tx.sender == e.owner
    case _ => tx.sender == e.owner || tx.sender == e.admin
  }

  // What each refusal claims.
  predicate Reason(e: Escrow, tx: Tx, error: Revert) {
    match error
    case Unauthorized => !HasRole(e, tx)
    case EscrowAlreadyClosed => e.closed && (tx.call.ApproveReward? || tx.call.Close?)
    case EscrowNotClosed => !e.closed && tx.call.WithdrawRemaining?
    case EscrowLocked => tx.now < e.refundUnlockAt && (tx.call.Close? || tx.call.WithdrawRemaining?)
    case EscrowIsPaused => e.paused && tx.call.ApproveReward?
    case EscrowIsDeactivated => e.deactivated && (tx.call.ApproveReward? || tx.call.Pause? || tx.call.Unpause?)
    case InvalidReward =>
      tx.call.ApproveReward? && !WellFormed(tx.call.key, tx.call.contentHash, tx.call.researcher, tx.call.amount)
    case RewardAlreadyExists => tx.call.ApproveReward? && tx.call.key in e.rewards
    case RewardNotApproved => tx.call.PayReward? && !(tx.call.key in e.rewards && e.rewards[tx.call.key].status == Approved)
    case InsufficientAvailableBalance => tx.call.ApproveReward? && e.totalApprovedOutstanding + tx.call.amount > e.balance
    case OutstandingRewards => tx.call.WithdrawRemaining? && e.totalApprovedOutstanding > 0
    case NoRemainingFunds => tx.call.WithdrawRemaining? && tx.call.expectedAmount == 0
    case WithdrawalBalanceBelowExpected => tx.call.WithdrawRemaining? && e.balance < tx.call.expectedAmount
    case InvalidUnlockTime => tx.call.ExtendRefundUnlockAt? && tx.call.newUnlockAt <= e.refundUnlockAt
    case ArithmeticPanic => tx.call.SyncExternalFunding? || tx.call.ApproveReward? || tx.call.PayReward? || tx.call.WithdrawRemaining?
    case TokenTransferFailed => tx.call.PayReward? && tx.call.key in e.rewards && e.balance < e.rewards[tx.call.key].amount
  }

  /** Every refusal names a reason that holds, and a missing role is always the reason named. */
  lemma RefusalIsReasoned(e: Escrow, tx: Tx)
    ensures Execute(e, tx).Reverted? ==> Reason(e, tx, Execute(e, tx).error)
    ensures Execute(e, tx) == Reverted(Unauthorized) <==> !HasRole(e, tx)
  {
  }

  // ---------------------------------------------------------------- the state along a run

  // The escrow as it stood before transaction `i` of the run.
  function Before(w: World, txs: seq<Tx>, i: nat): Escrow
    requires i <= |txs|
  {
    Run(w, txs[..i]).e
  }

  lemma BeforeFront(w: World, txs: seq<Tx>, i: nat)
    requires txs != [] && i < |txs|
    ensures Before(w, txs, i) == Before(w, txs[..|txs| - 1], i)
  {
    assert txs[..|txs| - 1][..i] == txs[..i];
  }

  lemma ExecuteKeepsRoles(e: Escrow, tx: Tx)
    requires Execute(e, tx).Done?
    ensures Execute(e, tx).escrow.owner == e.owner && Execute(e, tx).escrow.admin == e.admin
  {
  }

  lemma StepShape(w: World, tx: Tx)
    ensures Step(w, tx) == w || (Execute(w.e, tx).Done? && Step(w, tx).e == Execute(w.e, tx).escrow)
  {
  }

  lemma StepKeepsRoles(w: World, tx: Tx)
    ensures Step(w, tx).e.owner == w.e.owner && Step(w, tx).e.admin == w.e.admin
  {
    StepShape(w, tx);
    if Execute(w.e, tx).Done? { ExecuteKeepsRoles(w.e, tx); }
  }

  lemma {:induction false} RunKeepsRoles(w: World, txs: seq<Tx>)
    ensures Run(w, txs).e.owner == w.e.owner && Run(w, txs).e.admin == w.e.admin
  {
    if txs != [] {
      RunKeepsRoles(w, txs[..|txs| - 1]);
      StepKeepsRoles(Run(w, txs[..|txs| - 1]), txs[|txs| - 1]);
    }
  }

  // ---------------------------------------------------------------- every reward was approved by a role

  // Transaction `i` approved this reward, and might.
  ghost predicate ApprovedAt(w: World, txs: seq<Tx>, i: nat, key: Bytes32, reward: Reward)
    requires i < |txs|
  {
    && (txs[i].sender == w.e.owner || txs[i].sender == w.e.admin)
    && txs[i].call == ApproveReward(key, reward.contentHash, reward.researcher, reward.amount)
    && WellFormed(key, reward.contentHash, reward.researcher, reward.amount)
    && AcceptsApprovals(Before(w, txs, i)) && key !in Before(w, txs, i).rewards
  }

  ghost predicate WasApproved(w: World, txs: seq<Tx>, key: Bytes32, reward: Reward) {
    exists i :: 0 <= i < |txs| && ApprovedAt(w, txs, i, key, reward)
  }

  lemma EarlierApproval(w: World, txs: seq<Tx>, key: Bytes32, before: Reward, reward: Reward)
    requires txs != [] && WasApproved(w, txs[..|txs| - 1], key, before) && reward.(status := Paid) == before.(status := Paid)
    ensures WasApproved(w, txs, key, reward)
  {
    var front := txs[..|txs| - 1];
    var i :| 0 <= i < |front| && ApprovedAt(w, front, i, key, before);
    BeforeFront(w, txs, i);
    assert ApprovedAt(w, txs, i, key, reward);
  }

  lemma RewardsStep(w: World, tx: Tx, key: Bytes32)
    requires key in Step(w, tx).e.rewards && key !in w.e.rewards
    ensures tx.call.ApproveReward? && Execute(w.e, tx).Done?
    ensures var r := Step(w, tx).e.rewards[key]; tx.call == ApproveReward(key, r.contentHash, r.researcher, r.amount)
  {
  }

  lemma TermsStay(w: World, tx: Tx, key: Bytes32)
    requires key in w.e.rewards
    ensures key in Step(w, tx).e.rewards
    ensures Step(w, tx).e.rewards[key].(status := Paid) == w.e.rewards[key].(status := Paid)
  {
    StepExtends(w, tx);
  }

  /** In every run, every reward of the contract was approved by the owner or the admin while the contract took
      approvals, with exactly the hash, researcher and amount it has. */
  lemma {:induction false} EveryRewardWasApproved(w: World, txs: seq<Tx>, key: Bytes32)
    requires w.e.rewards == map[] && key in Run(w, txs).e.rewards
    ensures WasApproved(w, txs, key, Run(w, txs).e.rewards[key])
  {
    if txs != [] {
      var (front, last) := (txs[..|txs| - 1], txs[|txs| - 1]);
      var mid := Run(w, front);
      if key in mid.e.rewards {
        EveryRewardWasApproved(w, front, key);
        TermsStay(mid, last, key);
        EarlierApproval(w, txs, key, mid.e.rewards[key], Run(w, txs).e.rewards[key]);
      } else {
        RewardsStep(mid, last, key);
        ApproveSucceedsIff(mid.e, last);
        RunKeepsRoles(w, front);
        assert txs[..|txs| - 1] == front;
        assert ApprovedAt(w, txs, |txs| - 1, key, Run(w, txs).e.rewards[key]);
      }
    }
  }

  /** And so was everything ever paid out. */
  lemma EveryPayoutWasApproved(w: World, txs: seq<Tx>, i: nat)
    requires w.e.rewards == map[] && Solvent(w)
    requires var o := Run(w, txs).outflows; i < |o| && o[i].Payout?
    ensures var o := Run(w, txs).outflows[i];
            exists r: Reward :: r.researcher == o.to && r.amount == o.amount && WasApproved(w, txs, o.key, r)
  {
    RunKeepsSolvent(w, txs);
    var o := Run(w, txs).outflows[i];
    assert Justified(Run(w, txs).e, o);
    EveryRewardWasApproved(w, txs, o.key);
    assert WasApproved(w, txs, o.key, Run(w, txs).e.rewards[o.key]);
  }

  // ---------------------------------------------------------------- every withdrawal was the owner's

  ghost predicate WithdrawnAt(w: World, txs: seq<Tx>, i: nat, amount: nat)
    requires i < |txs|
  {
    var e := Before(w, txs, i);
    && txs[i].sender == w.e.owner && txs[i].call == WithdrawRemaining(amount)
    && e.closed && txs[i].now >= e.refundUnlockAt && e.totalApprovedOutstanding == 0 && amount <= e.balance
  }

  ghost predicate WasWithdrawn(w: World, txs: seq<Tx>, amount: nat) {
    exists i :: 0 <= i < |txs| && WithdrawnAt(w, txs, i, amount)
  }

  lemma OutflowsStep(w: World, tx: Tx)
    ensures w.outflows <= Step(w, tx).outflows && |Step(w, tx).outflows| <= |w.outflows| + 1
    ensures var o := Step(w, tx).outflows;
            |o| > |w.outflows| && o[|w.outflows|].Withdrawal? ==>
              && tx.call.WithdrawRemaining? && Execute(w.e, tx).Done? && o[|w.outflows|] == Withdrawal(w.e.owner, tx.call.expectedAmount)
  {
  }

  lemma EarlierWithdrawal(w: World, txs: seq<Tx>, amount: nat)
    requires txs != [] && WasWithdrawn(w, txs[..|txs| - 1], amount)
    ensures WasWithdrawn(w, txs, amount)
  {
    var front := txs[..|txs| - 1];
    var i :| 0 <= i < |front| && WithdrawnAt(w, front, i, amount);
    BeforeFront(w, txs, i);
    assert WithdrawnAt(w, txs, i, amount);
  }

  /** In every run, every withdrawal was made by the owner, of the amount asked for, from a closed contract past
      its unlock time in which nothing was outstanding. */
  lemma {:induction false} EveryWithdrawalWasOwners(w: World, txs: seq<Tx>, k: nat)
    requires w.outflows == [] && k < |Run(w, txs).outflows| && Run(w, txs).outflows[k].Withdrawal?
    ensures Run(w, txs).outflows[k].to == w.e.owner && WasWithdrawn(w, txs, Run(w, txs).outflows[k].amount)
  {
    if txs != [] {
      var (front, last) := (txs[..|txs| - 1], txs[|txs| - 1]);
      var mid := Run(w, front);
      OutflowsStep(mid, last);
      if k < |mid.outflows| {
        EveryWithdrawalWasOwners(w, front, k);
        EarlierWithdrawal(w, txs, mid.outflows[k].amount);
      } else {
        WithdrawSucceedsIff(mid.e, last);
        RunKeepsRoles(w, front);
        assert WithdrawnAt(w, txs, |txs| - 1, Run(w, txs).outflows[k].amount);
      }
    }
  }

  // ---------------------------------------------------------------- the switches

  // What transaction `i` does to a switch, as the contract stands then.
  predicate Closes(w: World, txs: seq<Tx>, i: nat)
    requires i < |txs|
  {
    txs[i].call.Close? && (txs[i].sender == w.e.owner || txs[i].sender == w.e.admin) && txs[i].now >= Before(w, txs, i).refundUnlockAt
  }

  predicate Deactivates(w: World, txs: seq<Tx>, i: nat)
    requires i < |txs|
  {
    txs[i].call.Deactivate? && txs[i].sender == w.e.admin
  }

  predicate Switches(w: World, txs: seq<Tx>, i: nat, on: bool)
    requires i < |txs|
  {
    && (if on then txs[i].call.Pause? else txs[i].call.Unpause?)
    && (txs[i].sender == w.e.owner || txs[i].sender == w.e.admin) && !Before(w, txs, i).deactivated
  }

  predicate Pauses(w: World, txs: seq<Tx>, i: nat)
    requires i < |txs|
  {
    Switches(w, txs, i, true) || Deactivates(w, txs, i)
  }

  ghost predicate SomeCloses(w: World, txs: seq<Tx>) {
    exists i :: 0 <= i < |txs| && Closes(w, txs, i)
  }

  ghost predicate SomeDeactivates(w: World, txs: seq<Tx>) {
    exists i :: 0 <= i < |txs| && Deactivates(w, txs, i)
  }

  // Some transaction paused the contract and none since has unpaused it.
  ghost predicate LeftPaused(w: World, txs: seq<Tx>) {
    exists i :: 0 <= i < |txs| && Pauses(w, txs, i) && forall j :: i < j < |txs| ==> !Switches(w, txs, j, false)
  }

  lemma SomeClosesStep(w: World, txs: seq<Tx>)
    requires txs != []
    ensures SomeCloses(w, txs) <==> SomeCloses(w, txs[..|txs| - 1]) || Closes(w, txs, |txs| - 1)
  {
    var front := txs[..|txs| - 1];
    forall i | 0 <= i < |front| ensures Closes(w, front, i) <==> Closes(w, txs, i) { BeforeFront(w, txs, i); }
    if SomeCloses(w, front) {
      var i :| 0 <= i < |front| && Closes(w, front, i);
      assert Closes(w, txs, i);
    }
  }

  lemma SomeDeactivatesStep(w: World, txs: seq<Tx>)
    requires txs != []
    ensures SomeDeactivates(w, txs) <==> SomeDeactivates(w, txs[..|txs| - 1]) || Deactivates(w, txs, |txs| - 1)
  {
    var front := txs[..|txs| - 1];
    if SomeDeactivates(w, front) {
      var i :| 0 <= i < |front| && Deactivates(w, front, i);
      assert Deactivates(w, txs, i);
    }
    if SomeDeactivates(w, txs) {
      var i :| 0 <= i < |txs| && Deactivates(w, txs, i);
      assert i < |front| ==> Deactivates(w, front, i);
    }
  }

  lemma SwitchesBefore(w: World, txs: seq<Tx>, i: nat)
    requires i < |txs| - 1
    ensures Pauses(w, txs[..|txs| - 1], i) <==> Pauses(w, txs, i)
    ensures Switches(w, txs[..|txs| - 1], i, false) <==> Switches(w, txs, i, false)
  {
    BeforeFront(w, txs, i);
  }

  lemma StaysPaused(w: World, txs: seq<Tx>)
    requires txs != [] && LeftPaused(w, txs[..|txs| - 1]) && !Switches(w, txs, |txs| - 1, false)
    ensures LeftPaused(w, txs)
  {
    var front := txs[..|txs| - 1];
    var i :| 0 <= i < |front| && Pauses(w, front, i) && forall j :: i < j < |front| ==> !Switches(w, front, j, false);
    SwitchesBefore(w, txs, i);
    forall j | i < j < |txs| ensures !Switches(w, txs, j, false) {
      if j < |front| { SwitchesBefore(w, txs, j); }
    }
  }

  lemma WasPaused(w: World, txs: seq<Tx>)
    requires txs != [] && LeftPaused(w, txs) && !Pauses(w, txs, |txs| - 1)
    ensures LeftPaused(w, txs[..|txs| - 1]) && !Switches(w, txs, |txs| - 1, false)
  {
    var front := txs[..|txs| - 1];
    var i :| 0 <= i < |txs| && Pauses(w, txs, i) && forall j :: i < j < |txs| ==> !Switches(w, txs, j, false);
    SwitchesBefore(w, txs, i);
    forall j | i < j < |front| ensures !Switches(w, front, j, false) { SwitchesBefore(w, txs, j); }
  }

  lemma LeftPausedStep(w: World, txs: seq<Tx>)
    requires txs != []
    ensures LeftPaused(w, txs) <==> Pauses(w, txs, |txs| - 1) || (LeftPaused(w, txs[..|txs| - 1]) && !Switches(w, txs, |txs| - 1, false))
  {
    if LeftPaused(w, txs[..|txs| - 1]) && !Switches(w, txs, |txs| - 1, false) { StaysPaused(w, txs); }
    if LeftPaused(w, txs) && !Pauses(w, txs, |txs| - 1) { WasPaused(w, txs); }
  }

  lemma ClosedStep(w: World, tx: Tx)
    ensures Step(w, tx).e.closed <==>
              w.e.closed || (tx.call.Close? && (tx.sender == w.e.owner || tx.sender == w.e.admin) && tx.now >= w.e.refundUnlockAt)
  {
  }

  lemma DeactivatedStep(w: World, tx: Tx)
    ensures Step(w, tx).e.deactivated <==> w.e.deactivated || (tx.call.Deactivate? && tx.sender == w.e.admin)
  {
  }

  lemma PausedStep(w: World, tx: Tx)
    ensures var (role, e) := (tx.sender == w.e.owner || tx.sender == w.e.admin, w.e);
            Step(w, tx).e.paused <==>
              || (tx.call.Deactivate? && tx.sender == e.admin) || (tx.call.Pause? && role && !e.deactivated)
              || (e.paused && !(tx.call.Unpause? && role && !e.deactivated))
  {
  }

  /** The contract is closed exactly when the owner or the admin closed it at or after the unlock time of that
      moment, deactivated exactly when the admin deactivated it, and paused exactly when somebody entitled
      paused it, or the admin deactivated it, and nobody entitled has unpaused it since. */
  lemma {:induction false} SwitchesAreJustified(w: World, txs: seq<Tx>)
    requires AcceptsApprovals(w.e)
    ensures var e := Run(w, txs).e;
            && (e.closed <==> SomeCloses(w, txs)) && (e.deactivated <==> SomeDeactivates(w, txs)) && (e.paused <==> LeftPaused(w, txs))
  {
    if txs != [] {
      var (front, last) := (txs[..|txs| - 1], txs[|txs| - 1]);
      SwitchesAreJustified(w, front);
      RunKeepsRoles(w, front);
      ClosedStep(Run(w, front), last);
      DeactivatedStep(Run(w, front), last);
      PausedStep(Run(w, front), last);
      SomeClosesStep(w, txs);
      SomeDeactivatesStep(w, txs);
      LeftPausedStep(w, txs);
    }
  }

  // ---------------------------------------------------------------- outsiders

  // What nobody but the owner and the admin can change.
  ghost predicate SameTerms(w: World, w': World) {
    && w'.e.closed == w.e.closed && w'.e.paused == w.e.paused && w'.e.deactivated == w.e.deactivated
    && w'.e.refundUnlockAt == w.e.refundUnlockAt && w'.e.totalWithdrawn == w.e.totalWithdrawn
    && w'.e.rewards.Keys == w.e.rewards.Keys
    && forall k :: k in w.e.rewards ==> w'.e.rewards[k].(status := Paid) == w.e.rewards[k].(status := Paid)
  }

  lemma OutsiderStep(w: World, tx: Tx)
    requires tx.sender != w.e.owner && tx.sender != w.e.admin
    ensures SameTerms(w, Step(w, tx))
  {
    RefusalIsReasoned(w.e, tx);
    if Execute(w.e, tx).Done? && tx.call.PayReward? { assert Step(w, tx).e.rewards.Keys == w.e.rewards.Keys; }
  }

  /** Whatever anybody else sends, in any order: no switch moves, no reward is added or altered, nothing is
      withdrawn. All they can do is deposit, sync, and execute payouts that were approved. */
  lemma {:induction false} OutsidersChangeNothing(w: World, txs: seq<Tx>)
    requires forall i :: 0 <= i < |txs| ==> txs[i].sender != w.e.owner && txs[i].sender != w.e.admin
    ensures SameTerms(w, Run(w, txs))
  {
    if txs != [] {
      OutsidersChangeNothing(w, txs[..|txs| - 1]);
      RunKeepsRoles(w, txs[..|txs| - 1]);
      OutsiderStep(Run(w, txs[..|txs| - 1]), txs[|txs| - 1]);
    }
  }
}
