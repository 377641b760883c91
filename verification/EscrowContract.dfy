/** The on-chain escrow of one program (BountyEscrow): a pure transition function, the contract
    object that refines it, and the money laws that hold after every sequence of transactions.

    USDC is the token's balance of the contract plus arbitrary third-party deposits; a transfer
    the contract makes to itself is both an outflow and an inflow, as the token's log shows it. */
module EscrowContract {
  import opened Sums

  type Address = nat
  type Bytes32 = nat

  const UINT128_MAX: nat := 0xFFFF_FFFF_FFFF_FFFF_FFFF_FFFF_FFFF_FFFF
  const UINT256_LIMIT: nat :=
    0x1_0000_0000_0000_0000_0000_0000_0000_0000_0000_0000_0000_0000_0000_0000_0000_0000

  datatype RewardStatus = Approved | Paid

  // A missing key is the contract's RewardStatus.None.
  datatype Reward = Reward(contentHash: Bytes32, researcher: Address, amount: nat, status: RewardStatus)

  datatype Escrow = Escrow(
    self: Address, owner: Address, admin: Address,
    refundUnlockAt: nat, closed: bool, paused: bool, deactivated: bool,
    totalFunded: nat, totalPaid: nat, totalWithdrawn: nat, totalApprovedOutstanding: nat,
    rewards: map<Bytes32, Reward>,
    balance: nat)

  datatype Revert =
    | Unauthorized | EscrowAlreadyClosed | EscrowNotClosed | EscrowLocked | EscrowIsPaused
    | EscrowIsDeactivated | InvalidReward | RewardAlreadyExists | RewardNotApproved
    | InsufficientAvailableBalance | OutstandingRewards | NoRemainingFunds
    | WithdrawalBalanceBelowExpected | InvalidUnlockTime | ArithmeticPanic | TokenTransferFailed

  datatype Outcome = Done(escrow: Escrow) | Reverted(error: Revert)

  datatype Call =
    | Deposit(amount: nat)
    | SyncExternalFunding
    | ApproveReward(key: Bytes32, contentHash: Bytes32, researcher: Address, amount: nat)
    | PayReward(key: Bytes32)
    | ExtendRefundUnlockAt(newUnlockAt: nat)
    | Close
    | Pause
    | Unpause
    | Deactivate
    | WithdrawRemaining(expectedAmount: nat)

  datatype Tx = Tx(sender: Address, now: nat, call: Call)

  function OwnerOrAdmin(e: Escrow, sender: Address): bool {
    sender == e.owner || sender == e.admin
  }

  function AvailableBalance(e: Escrow): nat {
    if e.balance > e.totalApprovedOutstanding then e.balance - e.totalApprovedOutstanding else 0
  }

  // ERC-20 transfer out of the contract; the caller has already updated the counters.
  function Send(e: Escrow, to: Address, amount: nat): Outcome {
    if e.balance < amount then Reverted(TokenTransferFailed)
    else if to == e.self then Done(e)
    else Done(e.(balance := e.balance - amount))
  }

  function Sync(e: Escrow): Outcome {
    var observed := e.balance + e.totalPaid + e.totalWithdrawn;
    if observed >= UINT256_LIMIT then Reverted(ArithmeticPanic)
    else if observed > e.totalFunded then Done(e.(totalFunded := observed))
    else Done(e)
  }

  function Approve(e: Escrow, sender: Address, key: Bytes32, contentHash: Bytes32, researcher: Address, amount: nat): Outcome {
    if !OwnerOrAdmin(e, sender) then Reverted(Unauthorized)
    else if e.closed then Reverted(EscrowAlreadyClosed)
    else if e.paused then Reverted(EscrowIsPaused)
    else if e.deactivated then Reverted(EscrowIsDeactivated)
    else if key == 0 || contentHash == 0 || researcher == 0 || amount == 0 || amount > UINT128_MAX then Reverted(InvalidReward)
    else if key in e.rewards then Reverted(RewardAlreadyExists)
    else if amount > AvailableBalance(e) then Reverted(InsufficientAvailableBalance)
    else if e.totalApprovedOutstanding + amount >= UINT256_LIMIT then Reverted(ArithmeticPanic)
    else Done(e.(rewards := e.rewards[key := Reward(contentHash, researcher, amount, Approved)],
                 totalApprovedOutstanding := e.totalApprovedOutstanding + amount))
  }

  function Pay(e: Escrow, key: Bytes32): Outcome {
    if key !in e.rewards || e.rewards[key].status != Approved then Reverted(RewardNotApproved)
    else
      var reward := e.rewards[key];
      if e.totalApprovedOutstanding < reward.amount || e.totalPaid + reward.amount >= UINT256_LIMIT then Reverted(ArithmeticPanic)
      else
        Send(e.(rewards := e.rewards[key := reward.(status := Paid)],
                totalApprovedOutstanding := e.totalApprovedOutstanding - reward.amount,
                totalPaid := e.totalPaid + reward.amount),
             reward.researcher, reward.amount)
  }

  function Withdraw(e: Escrow, sender: Address, now: nat, expectedAmount: nat): Outcome {
    if sender != e.owner then Reverted(Unauthorized)
    else if !e.closed then Reverted(EscrowNotClosed)
    else if now < e.refundUnlockAt then Reverted(EscrowLocked)
    else if e.totalApprovedOutstanding != 0 then Reverted(OutstandingRewards)
    else if expectedAmount == 0 then Reverted(NoRemainingFunds)
    else if e.balance < expectedAmount then Reverted(WithdrawalBalanceBelowExpected)
    else if e.totalWithdrawn + expectedAmount >= UINT256_LIMIT then Reverted(ArithmeticPanic)
    else Send(e.(totalWithdrawn := e.totalWithdrawn + expectedAmount), e.owner, expectedAmount)
  }

  function CloseEscrow(e: Escrow, sender: Address, now: nat): Outcome {
    if !OwnerOrAdmin(e, sender) then Reverted(Unauthorized)
    else if e.closed then Reverted(EscrowAlreadyClosed)
    else if now < e.refundUnlockAt then Reverted(EscrowLocked)
    else Done(e.(closed := true))
  }

  function SetPaused(e: Escrow, sender: Address, paused: bool): Outcome {
    if !OwnerOrAdmin(e, sender) then Reverted(Unauthorized)
    else if e.deactivated then Reverted(EscrowIsDeactivated)
    else Done(e.(paused := paused))
  }

  function Execute(e: Escrow, tx: Tx): Outcome {
    match tx.call
    case Deposit(amount) => Done(e.(balance := e.balance + amount))
    case SyncExternalFunding => Sync(e)
    case ApproveReward(key, hash, researcher, amount) => Approve(e, tx.sender, key, hash, researcher, amount)
    case PayReward(key) => Pay(e, key)
    case ExtendRefundUnlockAt(t) =>
      if !OwnerOrAdmin(e, tx.sender) then Reverted(Unauthorized)
      else if t <= e.refundUnlockAt then Reverted(InvalidUnlockTime)
      else Done(e.(refundUnlockAt := t))
    case Close => CloseEscrow(e, tx.sender, tx.now)
    case Pause => SetPaused(e, tx.sender, true)
    case Unpause => SetPaused(e, tx.sender, false)
    case Deactivate =>
      if tx.sender != e.admin then Reverted(Unauthorized)
      else Done(e.(deactivated := true, paused := true))
    case WithdrawRemaining(expected) => Withdraw(e, tx.sender, tx.now, expected)
  }

  // ---------------------------------------------------------------- the contract object

  class BountyEscrow {
    const self: Address
    const programOwner: Address
    const adminController: Address
    var refundUnlockAt: nat
    var closed: bool
    var paused: bool
    var deactivated: bool
    var totalFunded: nat
    var totalPaid: nat
    var totalWithdrawn: nat
    var totalApprovedOutstanding: nat
    var rewards: map<Bytes32, Reward>
    var balance: nat  // what the token contract records for this address

    function View(): Escrow
      reads this
    {
      Escrow(self, programOwner, adminController, refundUnlockAt, closed, paused, deactivated,
             totalFunded, totalPaid, totalWithdrawn, totalApprovedOutstanding, rewards, balance)
    }

    // A transaction either takes the step the specification says or leaves every field alone.
    twostate predicate Refines(tx: Tx, ok: bool)
      reads this
    {
      match Execute(old(View()), tx)
      case Done(e) => ok && View() == e
      case Reverted(_) => !ok && View() == old(View())
    }

    constructor (self: Address, owner: Address, admin: Address, unlockAt: nat)
      ensures View() == Deployed(self, owner, admin, unlockAt, 0)
    {
      this.self := self;
      programOwner, adminController, refundUnlockAt := owner, admin, unlockAt;
      closed, paused, deactivated := false, false, false;
      totalFunded, totalPaid, totalWithdrawn, totalApprovedOutstanding := 0, 0, 0, 0;
      rewards, balance := map[], 0;
    }

    method SafeTransfer(to: Address, amount: nat) returns (ok: bool)
      modifies `balance
      ensures Send(old(View()), to, amount) == if ok then Done(View()) else Reverted(TokenTransferFailed)
      ensures !ok ==> View() == old(View())
    {
      if balance < amount { return false; }
      if to != self { balance := balance - amount; }
      ok := true;
    }

    method SyncFunding(sender: Address, now: nat) returns (ok: bool)
      modifies `totalFunded
      ensures Refines(Tx(sender, now, SyncExternalFunding), ok)
      ensures totalFunded >= old(totalFunded) && (ok ==> totalFunded >= balance + totalPaid + totalWithdrawn)
    {
      var observed := balance + totalPaid + totalWithdrawn;
      if observed >= UINT256_LIMIT { return false; }
      if observed > totalFunded { totalFunded := observed; }
      ok := true;
    }

    method ApproveRewardTx(sender: Address, now: nat, key: Bytes32, contentHash: Bytes32, researcher: Address, amount: nat)
      returns (ok: bool)
      modifies `rewards, `totalApprovedOutstanding
      ensures Refines(Tx(sender, now, ApproveReward(key, contentHash, researcher, amount)), ok)
      ensures ok ==> sender == programOwner || sender == adminController
      ensures rewards == if ok then old(rewards)[key := Reward(contentHash, researcher, amount, Approved)] else old(rewards)
    {
      if sender != programOwner && sender != adminController { return false; }
      if closed || paused || deactivated { return false; }
      if key == 0 || contentHash == 0 || researcher == 0 || amount == 0 || amount > UINT128_MAX { return false; }
      if key in rewards { return false; }
      var available := if balance > totalApprovedOutstanding then balance - totalApprovedOutstanding else 0;
      if amount > available || totalApprovedOutstanding + amount >= UINT256_LIMIT { return false; }
      rewards := rewards[key := Reward(contentHash, researcher, amount, Approved)];
      totalApprovedOutstanding := totalApprovedOutstanding + amount;
      ok := true;
    }

    // A failing token transfer reverts the counters that were already written.
    method PayRewardTx(sender: Address, now: nat, key: Bytes32) returns (ok: bool)
      modifies `rewards, `totalApprovedOutstanding, `totalPaid, `balance
      ensures Refines(Tx(sender, now, PayReward(key)), ok)
    {
      if key !in rewards || rewards[key].status != Approved { return false; }
      var reward := rewards[key];
      var savedRewards, savedOutstanding, savedPaid := rewards, totalApprovedOutstanding, totalPaid;
      if totalApprovedOutstanding < reward.amount || totalPaid + reward.amount >= UINT256_LIMIT { return false; }
      rewards := rewards[key := reward.(status := Paid)];
      totalApprovedOutstanding := totalApprovedOutstanding - reward.amount;
      totalPaid := totalPaid + reward.amount;
      ok := SafeTransfer(reward.researcher, reward.amount);
      if !ok {
        rewards, totalApprovedOutstanding, totalPaid := savedRewards, savedOutstanding, savedPaid;
      }
    }

    method CloseTx(sender: Address, now: nat) returns (ok: bool)
      modifies `closed
      ensures Refines(Tx(sender, now, Close), ok)
      ensures (old(closed) ==> closed && !ok) && (closed && !old(closed) ==> now >= refundUnlockAt)
      ensures ok ==> closed && (sender == programOwner || sender == adminController)
    {
      if sender != programOwner && sender != adminController { return false; }
      if closed || now < refundUnlockAt { return false; }
      closed := true;
      ok := true;
    }

    method SetPausedTx(sender: Address, now: nat, pausing: bool) returns (ok: bool)
      modifies `paused
      ensures Refines(Tx(sender, now, if pausing then Pause else Unpause), ok)
      ensures (ok ==> paused == pausing) && (deactivated ==> !ok && paused == old(paused))
      ensures ok <==> !deactivated && (sender == programOwner || sender == adminController)
    {
      if (sender != programOwner && sender != adminController) || deactivated { return false; }
      paused := pausing;
      ok := true;
    }

    method DeactivateTx(sender: Address, now: nat) returns (ok: bool)
      modifies `deactivated, `paused
      ensures Refines(Tx(sender, now, Deactivate), ok)
      ensures (ok <==> sender == adminController) && (ok ==> deactivated && paused) && (old(deactivated) ==> deactivated)
    {
      if sender != adminController { return false; }
      deactivated, paused := true, true;
      ok := true;
    }

    method ExtendRefundUnlockAtTx(sender: Address, now: nat, newUnlockAt: nat) returns (ok: bool)
      modifies `refundUnlockAt
      ensures Refines(Tx(sender, now, ExtendRefundUnlockAt(newUnlockAt)), ok)
      ensures if ok then refundUnlockAt == newUnlockAt > old(refundUnlockAt) else refundUnlockAt == old(refundUnlockAt)
      ensures ok ==> sender == programOwner || sender == adminController
    {
      if (sender != programOwner && sender != adminController) || newUnlockAt <= refundUnlockAt { return false; }
      refundUnlockAt := newUnlockAt;
      ok := true;
    }

    method WithdrawRemainingTx(sender: Address, now: nat, expectedAmount: nat) returns (ok: bool)
      modifies `totalWithdrawn, `balance
      ensures Refines(Tx(sender, now, WithdrawRemaining(expectedAmount)), ok)
      ensures ok ==> sender == programOwner && closed && now >= refundUnlockAt && totalWithdrawn == old(totalWithdrawn) + expectedAmount
    {
      if sender != programOwner || !closed || now < refundUnlockAt || totalApprovedOutstanding != 0 { return false; }
      if expectedAmount == 0 || balance < expectedAmount { return false; }
      if totalWithdrawn + expectedAmount >= UINT256_LIMIT { return false; }
      totalWithdrawn := totalWithdrawn + expectedAmount;
      ok := SafeTransfer(programOwner, expectedAmount);
    }
  }

  // ---------------------------------------------------------------- histories

  datatype Outflow = Payout(key: Bytes32, to: Address, amount: nat) | Withdrawal(to: Address, amount: nat)

  /** The contract together with the token log seen from outside it: everything ever received and
      every transfer ever sent. */
  datatype World = World(e: Escrow, inflow: nat, outflows: seq<Outflow>)

  function Deployed(self: Address, owner: Address, admin: Address, unlockAt: nat, balance: nat): Escrow {
    Escrow(self, owner, admin, unlockAt, false, false, false, 0, 0, 0, 0, map[], balance)
  }

  function Step(w: World, tx: Tx): World {
    match Execute(w.e, tx)
    case Reverted(_) => w
    case Done(e) =>
      match tx.call
      case Deposit(amount) => World(e, w.inflow + amount, w.outflows)
      case PayReward(key) =>
        if key !in w.e.rewards then w else
          var reward := w.e.rewards[key];
          World(e, w.inflow + (if reward.researcher == w.e.self then reward.amount else 0),
                w.outflows + [Payout(key, reward.researcher, reward.amount)])
      case WithdrawRemaining(amount) =>
        World(e, w.inflow + (if w.e.owner == w.e.self then amount else 0),
              w.outflows + [Withdrawal(w.e.owner, amount)])
      case _ => World(e, w.inflow, w.outflows)
  }

  function Run(w: World, txs: seq<Tx>): World {
    if txs == [] then w else Step(Run(w, txs[..|txs| - 1]), txs[|txs| - 1])
  }

  function PaidOut(outflows: seq<Outflow>): nat {
    if outflows == [] then 0
    else PaidOut(outflows[..|outflows| - 1]) +
         match outflows[|outflows| - 1] case Payout(_, _, amount) => amount case Withdrawal(_, _) => 0
  }

  function WithdrawnOut(outflows: seq<Outflow>): nat {
    if outflows == [] then 0
    else WithdrawnOut(outflows[..|outflows| - 1]) +
         match outflows[|outflows| - 1] case Payout(_, _, _) => 0 case Withdrawal(_, amount) => amount
  }

  function PayoutCount(outflows: seq<Outflow>, key: Bytes32): nat {
    if outflows == [] then 0
    else PayoutCount(outflows[..|outflows| - 1], key) +
         match outflows[|outflows| - 1] case Payout(k, _, _) => (if k == key then 1 else 0) case Withdrawal(_, _) => 0
  }

  function KeysWith(rewards: map<Bytes32, Reward>, status: RewardStatus): set<Bytes32> {
    set k | k in rewards && rewards[k].status == status
  }

  function AmountIn(rewards: map<Bytes32, Reward>): Bytes32 -> nat {
    k => if k in rewards then rewards[k].amount else 0
  }

  ghost function Owed(rewards: map<Bytes32, Reward>, status: RewardStatus): nat {
    Sum(KeysWith(rewards, status), AmountIn(rewards))
  }

  ghost predicate CountersOk(w: World) {
    var e := w.e;
    && e.totalApprovedOutstanding == Owed(e.rewards, Approved)
    && e.totalPaid == Owed(e.rewards, Paid) == PaidOut(w.outflows)
    && e.totalWithdrawn == WithdrawnOut(w.outflows)
    && e.totalApprovedOutstanding <= e.balance
    && e.balance + e.totalPaid + e.totalWithdrawn == w.inflow
    && e.totalFunded <= w.inflow
  }

  ghost predicate TermsOk(rewards: map<Bytes32, Reward>) {
    forall k :: k in rewards ==> k != 0 && 0 < rewards[k].amount <= UINT128_MAX && rewards[k].researcher != 0
  }

  ghost predicate SentOnce(w: World) {
    forall k :: PayoutCount(w.outflows, k) == if k in w.e.rewards && w.e.rewards[k].status == Paid then 1 else 0
  }

  ghost predicate AllJustified(w: World) {
    forall i :: 0 <= i < |w.outflows| ==> Justified(w.e, w.outflows[i])
  }

  /** What every reachable world satisfies: the counters are the sums they claim to be, approved
      rewards are covered by the balance, nothing is lost, and each reward was sent at most once,
      to its own researcher, for its own amount. */
  ghost predicate Solvent(w: World) {
    CountersOk(w) && TermsOk(w.e.rewards) && SentOnce(w) && AllJustified(w)
  }

  predicate Justified(e: Escrow, o: Outflow) {
    match o
    case Payout(key, to, amount) => key in e.rewards && e.rewards[key].researcher == to && e.rewards[key].amount == amount
    case Withdrawal(to, _) => to == e.owner
  }

  lemma OwedAfterApprove(rewards: map<Bytes32, Reward>, key: Bytes32, reward: Reward)
    requires key !in rewards && reward.status == Approved
    ensures Owed(rewards[key := reward], Approved) == Owed(rewards, Approved) + reward.amount
    ensures Owed(rewards[key := reward], Paid) == Owed(rewards, Paid)
  {
    var after := rewards[key := reward];
    assert KeysWith(after, Approved) == KeysWith(rewards, Approved) + {key};
    assert KeysWith(after, Paid) == KeysWith(rewards, Paid);
    SumInsert(KeysWith(rewards, Approved), AmountIn(after), key);
    SumCongruence(KeysWith(rewards, Approved), AmountIn(rewards), AmountIn(after));
    SumCongruence(KeysWith(rewards, Paid), AmountIn(rewards), AmountIn(after));
  }

  lemma OwedAfterPay(rewards: map<Bytes32, Reward>, key: Bytes32)
    requires key in rewards && rewards[key].status == Approved
    ensures var after := rewards[key := rewards[key].(status := Paid)];
            && Owed(after, Approved) + rewards[key].amount == Owed(rewards, Approved)
            && Owed(after, Paid) == Owed(rewards, Paid) + rewards[key].amount
  {
    var after := rewards[key := rewards[key].(status := Paid)];
    assert KeysWith(after, Approved) == KeysWith(rewards, Approved) - {key};
    assert KeysWith(after, Paid) == KeysWith(rewards, Paid) + {key};
    SumRemove(KeysWith(rewards, Approved), AmountIn(rewards), key);
    SumInsert(KeysWith(rewards, Paid), AmountIn(rewards), key);
    SumCongruence(KeysWith(after, Approved), AmountIn(rewards), AmountIn(after));
    SumCongruence(KeysWith(after, Paid), AmountIn(rewards), AmountIn(after));
  }

  // What a payout that goes through does to the contract and the token log.
  ghost predicate PaysOut(w: World, w': World, key: Bytes32) {
    && key in w.e.rewards && w.e.rewards[key].status == Approved
    && w'.e.rewards == w.e.rewards[key := w.e.rewards[key].(status := Paid)]
    && w'.outflows == w.outflows + [Payout(key, w.e.rewards[key].researcher, w.e.rewards[key].amount)]
    && w'.e.owner == w.e.owner && w'.e.totalFunded == w.e.totalFunded && w'.e.totalWithdrawn == w.e.totalWithdrawn
    && w'.e.totalPaid == w.e.totalPaid + w.e.rewards[key].amount
    && w'.e.totalApprovedOutstanding + w.e.rewards[key].amount == w.e.totalApprovedOutstanding
    && w'.e.balance + w.e.rewards[key].amount - w.e.balance == w'.inflow - w.inflow >= 0
  }

  lemma PayStep(w: World, tx: Tx)
    requires tx.call.PayReward? && Execute(w.e, tx).Done?
    ensures PaysOut(w, Step(w, tx), tx.call.key)
  {
  }

  // What one more entry does to the sums over the token log.
  lemma LogStep(log: seq<Outflow>, o: Outflow)
    ensures PaidOut(log + [o]) == PaidOut(log) + if o.Payout? then o.amount else 0
    ensures WithdrawnOut(log + [o]) == WithdrawnOut(log) + if o.Payout? then 0 else o.amount
  {
    assert (log + [o])[..|log|] == log;
  }

  lemma CountStep(log: seq<Outflow>, o: Outflow, key: Bytes32)
    ensures PayoutCount(log + [o], key) == PayoutCount(log, key) + if o.Payout? && o.key == key then 1 else 0
  {
    assert (log + [o])[..|log|] == log;
  }

  lemma PayKeepsCounters(w: World, w': World, key: Bytes32)
    requires CountersOk(w) && PaysOut(w, w', key)
    ensures CountersOk(w')
  {
    OwedAfterPay(w.e.rewards, key);
    LogStep(w.outflows, Payout(key, w.e.rewards[key].researcher, w.e.rewards[key].amount));
  }

  lemma PayKeepsSentOnce(w: World, w': World, key: Bytes32)
    requires SentOnce(w) && PaysOut(w, w', key)
    ensures SentOnce(w')
  {
    forall k
      ensures PayoutCount(w'.outflows, k) == if k in w'.e.rewards && w'.e.rewards[k].status == Paid then 1 else 0
    {
      CountStep(w.outflows, Payout(key, w.e.rewards[key].researcher, w.e.rewards[key].amount), k);
    }
  }

  lemma PayKeepsJustified(w: World, w': World, key: Bytes32)
    requires AllJustified(w) && PaysOut(w, w', key)
    ensures AllJustified(w')
  {
    forall i | 0 <= i < |w'.outflows| ensures Justified(w'.e, w'.outflows[i]) {
      if i < |w.outflows| { assert Justified(w.e, w.outflows[i]); }
    }
  }

  lemma PayKeepsTerms(rewards: map<Bytes32, Reward>, key: Bytes32)
    requires TermsOk(rewards) && key in rewards
    ensures TermsOk(rewards[key := rewards[key].(status := Paid)])
  {
  }

  lemma PayKeepsSolvent(w: World, tx: Tx)
    requires Solvent(w) && tx.call.PayReward? && Execute(w.e, tx).Done?
    ensures Solvent(Step(w, tx))
  {
    var (w', key) := (Step(w, tx), tx.call.key);
    PayStep(w, tx);
    PayKeepsCounters(w, w', key);
    PayKeepsTerms(w.e.rewards, key);
    PayKeepsSentOnce(w, w', key);
    PayKeepsJustified(w, w', key);
  }

  // What an approval that goes through does.
  ghost predicate Approves(w: World, w': World, key: Bytes32, reward: Reward) {
    && key !in w.e.rewards && reward.status == Approved
    && w' == w.(e := w.e.(rewards := w.e.rewards[key := reward], totalApprovedOutstanding := w.e.totalApprovedOutstanding + reward.amount))
    && w.e.totalApprovedOutstanding + reward.amount <= w.e.balance
    && key != 0 && 0 < reward.amount <= UINT128_MAX && reward.researcher != 0
  }

  lemma ApproveStep(w: World, tx: Tx)
    requires tx.call.ApproveReward? && Execute(w.e, tx).Done?
    ensures var c := tx.call; Approves(w, Step(w, tx), c.key, Reward(c.contentHash, c.researcher, c.amount, Approved))
  {
  }

  lemma ApprovalKeepsSolvent(w: World, w': World, key: Bytes32, reward: Reward)
    requires Solvent(w) && Approves(w, w', key, reward)
    ensures Solvent(w')
  {
    OwedAfterApprove(w.e.rewards, key, reward);
    assert SentOnce(w');
    forall i | 0 <= i < |w'.outflows| ensures Justified(w'.e, w'.outflows[i]) {
      assert Justified(w.e, w.outflows[i]);
    }
  }

  lemma ApproveKeepsSolvent(w: World, tx: Tx)
    requires Solvent(w) && tx.call.ApproveReward? && Execute(w.e, tx).Done?
    ensures Solvent(Step(w, tx))
  {
    var c := tx.call;
    ApproveStep(w, tx);
    ApprovalKeepsSolvent(w, Step(w, tx), c.key, Reward(c.contentHash, c.researcher, c.amount, Approved));
  }

  // What a withdrawal that goes through does.
  ghost predicate WithdrawsOut(w: World, w': World, amount: nat) {
    && w'.e.rewards == w.e.rewards && w'.e.owner == w.e.owner && w'.e.totalFunded == w.e.totalFunded
    && w.e.totalApprovedOutstanding == 0 == w'.e.totalApprovedOutstanding
    && w'.outflows == w.outflows + [Withdrawal(w.e.owner, amount)]
    && w'.e.totalPaid == w.e.totalPaid && w'.e.totalWithdrawn == w.e.totalWithdrawn + amount
    && w'.e.balance + amount - w.e.balance == w'.inflow - w.inflow >= 0
  }

  lemma WithdrawStep(w: World, tx: Tx)
    requires tx.call.WithdrawRemaining? && Execute(w.e, tx).Done?
    ensures WithdrawsOut(w, Step(w, tx), tx.call.expectedAmount)
  {
  }

  lemma WithdrawalKeepsSolvent(w: World, w': World, amount: nat)
    requires Solvent(w) && WithdrawsOut(w, w', amount)
    ensures Solvent(w')
  {
    LogStep(w.outflows, Withdrawal(w.e.owner, amount));
    forall i | 0 <= i < |w'.outflows| ensures Justified(w'.e, w'.outflows[i]) {
      if i < |w.outflows| { assert Justified(w.e, w.outflows[i]); }
    }
    forall k ensures PayoutCount(w'.outflows, k) == PayoutCount(w.outflows, k) {
      CountStep(w.outflows, Withdrawal(w.e.owner, amount), k);
    }
  }

  lemma WithdrawKeepsSolvent(w: World, tx: Tx)
    requires Solvent(w) && tx.call.WithdrawRemaining? && Execute(w.e, tx).Done?
    ensures Solvent(Step(w, tx))
  {
    WithdrawStep(w, tx);
    WithdrawalKeepsSolvent(w, Step(w, tx), tx.call.expectedAmount);
  }

  // A call that neither touches a reward nor moves tokens out.
  ghost predicate Quiet(w: World, w': World) {
    && w'.outflows == w.outflows && w'.e.rewards == w.e.rewards && w'.e.owner == w.e.owner
    && w'.e.totalPaid == w.e.totalPaid && w'.e.totalWithdrawn == w.e.totalWithdrawn
    && w'.e.totalApprovedOutstanding == w.e.totalApprovedOutstanding
    && w'.e.balance >= w.e.balance && w'.inflow - w.inflow == w'.e.balance - w.e.balance
    && w'.e.totalFunded <= w'.inflow
  }

  lemma QuietStep(w: World, tx: Tx)
    requires w.e.balance + w.e.totalPaid + w.e.totalWithdrawn == w.inflow && w.e.totalFunded <= w.inflow
    requires Execute(w.e, tx).Reverted? || !(tx.call.PayReward? || tx.call.ApproveReward? || tx.call.WithdrawRemaining?)
    ensures Quiet(w, Step(w, tx))
  {}

  lemma QuietKeepsSolvent(w: World, w': World)
    requires Solvent(w) && Quiet(w, w')
    ensures Solvent(w')
  {
    forall i | 0 <= i < |w.outflows| ensures Justified(w'.e, w.outflows[i]) {
      assert Justified(w.e, w.outflows[i]);
    }
  }

  lemma StepKeepsSolvent(w: World, tx: Tx)
    requires Solvent(w)
    ensures Solvent(Step(w, tx))
  {
    if Execute(w.e, tx).Reverted? {
      assert Step(w, tx) == w;
    } else if tx.call.PayReward? {
      PayKeepsSolvent(w, tx);
    } else if tx.call.ApproveReward? {
      ApproveKeepsSolvent(w, tx);
    } else if tx.call.WithdrawRemaining? {
      WithdrawKeepsSolvent(w, tx);
    } else {
      QuietStep(w, tx);
      QuietKeepsSolvent(w, Step(w, tx));
    }
  }

  lemma {:induction false} EveryRunIsSolvent(self: Address, owner: Address, admin: Address, unlockAt: nat, balance: nat, txs: seq<Tx>)
    ensures Solvent(Run(World(Deployed(self, owner, admin, unlockAt, balance), balance, []), txs))
  {
    if txs == [] {
      assert KeysWith(map[], Approved) == {} && KeysWith(map[], Paid) == {};
    } else {
      var w := World(Deployed(self, owner, admin, unlockAt, balance), balance, []);
      EveryRunIsSolvent(self, owner, admin, unlockAt, balance, txs[..|txs| - 1]);
      StepKeepsSolvent(Run(w, txs[..|txs| - 1]), txs[|txs| - 1]);
    }
  }

  /** An approved reward can always be paid, by anyone: with a token that only refuses for lack of balance,
      the only way left to fail is a 256-bit overflow of the lifetime counter. A reward that is not approved can never be paid. */
  lemma PayRewardSucceedsIff(w: World, tx: Tx)
    requires Solvent(w) && tx.call.PayReward?
    ensures Execute(w.e, tx).Done? <==>
            && tx.call.key in w.e.rewards && w.e.rewards[tx.call.key].status == Approved
            && w.e.totalPaid + w.e.rewards[tx.call.key].amount < UINT256_LIMIT
  {
    var key := tx.call.key;
    if key in w.e.rewards && w.e.rewards[key].status == Approved {
      SumRemove(KeysWith(w.e.rewards, Approved), AmountIn(w.e.rewards), key);
    }
  }

  ghost predicate PaidExactly(before: Escrow, after: Escrow, keys: seq<Bytes32>) {
    && after.rewards.Keys == before.rewards.Keys
    && (forall k :: k in before.rewards ==>
          after.rewards[k] == (if k in keys then before.rewards[k].(status := Paid) else before.rewards[k]))
    && after.totalPaid + after.totalApprovedOutstanding == before.totalPaid + before.totalApprovedOutstanding
  }

  lemma PaidExactlyAppend(a: Escrow, b: Escrow, c: Escrow, keys: seq<Bytes32>, key: Bytes32)
    requires PaidExactly(a, b, keys) && PaidExactly(b, c, [key])
    ensures PaidExactly(a, c, keys + [key])
  {}

  lemma PayOneEffect(w: World, key: Bytes32, sender: Address)
    requires key in w.e.rewards && w.e.rewards[key].status == Approved
    requires Execute(w.e, Tx(sender, 0, PayReward(key))).Done?
    ensures PaidExactly(w.e, Step(w, Tx(sender, 0, PayReward(key))).e, [key])
  {}

  lemma PayOne(w: World, key: Bytes32, sender: Address)
    requires Solvent(w)
    requires key in w.e.rewards && w.e.rewards[key].status == Approved
    requires w.e.totalPaid + w.e.totalApprovedOutstanding < UINT256_LIMIT
    ensures Solvent(Step(w, Tx(sender, 0, PayReward(key))))
    ensures PaidExactly(w.e, Step(w, Tx(sender, 0, PayReward(key))).e, [key])
  {
    SumRemove(KeysWith(w.e.rewards, Approved), AmountIn(w.e.rewards), key);
    PayRewardSucceedsIff(w, Tx(sender, 0, PayReward(key)));
    PayKeepsSolvent(w, Tx(sender, 0, PayReward(key)));
    PayOneEffect(w, key, sender);
  }

  function PayAll(keys: seq<Bytes32>, sender: Address): seq<Tx> {
    if keys == [] then [] else PayAll(keys[..|keys| - 1], sender) + [Tx(sender, 0, PayReward(keys[|keys| - 1]))]
  }

  /** Approval cannot over-commit: any set of approved rewards can be paid one after another, in any
      order, without a further deposit, and nothing else changes hands. */
  lemma {:induction false} ApprovedRewardsAreFullyFunded(w: World, keys: seq<Bytes32>, sender: Address)
    requires Solvent(w)
    requires forall k :: k in keys ==> k in w.e.rewards && w.e.rewards[k].status == Approved
    requires forall i, j :: 0 <= i < j < |keys| ==> keys[i] != keys[j]
    requires w.e.totalPaid + w.e.totalApprovedOutstanding < UINT256_LIMIT
    ensures Solvent(Run(w, PayAll(keys, sender)))
    ensures PaidExactly(w.e, Run(w, PayAll(keys, sender)).e, keys)
    decreases |keys|
  {
    if keys != [] {
      var front := keys[..|keys| - 1];
      var last := keys[|keys| - 1];
      assert keys == front + [last];
      assert last in keys && forall k :: k in front ==> k in keys;
      ApprovedRewardsAreFullyFunded(w, front, sender);
      var mid := Run(w, PayAll(front, sender));
      assert last !in front;
      assert mid.e.rewards[last] == w.e.rewards[last];
      PayOne(mid, last, sender);
      RunPayAllStep(w, keys, sender);
      PaidExactlyAppend(w.e, mid.e, Step(mid, Tx(sender, 0, PayReward(last))).e, front, last);
    }
  }

  lemma RunPayAllStep(w: World, keys: seq<Bytes32>, sender: Address)
    requires keys != []
    ensures Run(w, PayAll(keys, sender)) ==
            Step(Run(w, PayAll(keys[..|keys| - 1], sender)), Tx(sender, 0, PayReward(keys[|keys| - 1])))
  {
    var txs := PayAll(keys, sender);
    assert txs[..|txs| - 1] == PayAll(keys[..|keys| - 1], sender);
  }

  /** Terms are frozen at approval and payment is final; lifetime counters never go down. */
  ghost predicate Extends(before: World, after: World) {
    FieldsExtend(before, after) && RewardsExtend(before.e, after.e)
  }

  ghost predicate FieldsExtend(before: World, after: World) {
    && after.e.owner == before.e.owner && after.e.self == before.e.self
    && before.outflows <= after.outflows
    && before.inflow <= after.inflow && before.e.totalFunded <= after.e.totalFunded
    && before.e.totalPaid <= after.e.totalPaid && before.e.totalWithdrawn <= after.e.totalWithdrawn
    && before.e.refundUnlockAt <= after.e.refundUnlockAt
    && (before.e.closed ==> after.e.closed) && (before.e.deactivated ==> after.e.deactivated && (before.e.paused ==> after.e.paused))
  }

  ghost predicate RewardsExtend(before: Escrow, after: Escrow) {
    && (forall k :: k in before.rewards ==>
          && k in after.rewards
          && after.rewards[k].(status := Paid) == before.rewards[k].(status := Paid)
          && (before.rewards[k].status == Paid ==> after.rewards[k].status == Paid))
    && (before.closed ==> after.rewards.Keys == before.rewards.Keys)
  }

  lemma {:induction false} RunExtends(w: World, txs: seq<Tx>)
    ensures Extends(w, Run(w, txs))
  {
    if txs != [] {
      RunExtends(w, txs[..|txs| - 1]);
      StepExtends(Run(w, txs[..|txs| - 1]), txs[|txs| - 1]);
    }
  }

  lemma PayExtends(w: World, w': World, key: Bytes32)
    requires PaysOut(w, w', key)
    requires w'.e == w.e.(rewards := w'.e.rewards, totalApprovedOutstanding := w'.e.totalApprovedOutstanding,
                          totalPaid := w'.e.totalPaid, balance := w'.e.balance)
    ensures Extends(w, w')
  {
    assert w'.e.rewards.Keys == w.e.rewards.Keys;
  }

  lemma QuietFields(w: World, tx: Tx)
    requires Execute(w.e, tx).Done? && !tx.call.PayReward? && !tx.call.ApproveReward?
    ensures FieldsExtend(w, Step(w, tx))
  {
  }

  lemma QuietRewards(w: World, tx: Tx)
    requires Execute(w.e, tx).Done? && !tx.call.PayReward? && !tx.call.ApproveReward?
    ensures Step(w, tx).e.rewards == w.e.rewards
  {
  }

  lemma QuietExtends(w: World, tx: Tx)
    requires Execute(w.e, tx).Done? && !tx.call.PayReward? && !tx.call.ApproveReward?
    ensures Extends(w, Step(w, tx))
  {
    QuietFields(w, tx);
    QuietRewards(w, tx);
  }

  lemma ApproveExtends(w: World, tx: Tx)
    requires Execute(w.e, tx).Done? && tx.call.ApproveReward?
    ensures Extends(w, Step(w, tx))
  {
    assert !w.e.closed;
  }

  lemma StepExtends(w: World, tx: Tx)
    ensures Extends(w, Step(w, tx))
  {
    if Execute(w.e, tx).Reverted? {
      assert Step(w, tx) == w;
    } else if tx.call.PayReward? {
      PayStep(w, tx);
      PayExtends(w, Step(w, tx), tx.call.key);
    } else if tx.call.ApproveReward? {
      ApproveExtends(w, tx);
    } else {
      QuietExtends(w, tx);
    }
  }

  // ---------------------------------------------------------------- what off-chain checks rely on

  /** A funding sync brings the recorded total up to everything ever received. */
  lemma SyncObservesEverything(w: World, sender: Address, now: nat)
    requires Solvent(w) && w.inflow < UINT256_LIMIT
    ensures Step(w, Tx(sender, now, SyncExternalFunding)).e.totalFunded == w.inflow
  {}

  /** The threshold of a funding reconciliation: when `net` or more arrived after the intent took its
      snapshot, every total read after a later sync is at least snapshot + net. */
  lemma SyncedTotalCoversNet(w: World, arrivals: seq<Tx>, sender: Address, now: nat, later: seq<Tx>, net: nat)
    requires Solvent(w)
    requires Run(w, arrivals).inflow >= w.inflow + net && Run(w, arrivals).inflow < UINT256_LIMIT
    ensures Run(Step(Run(w, arrivals), Tx(sender, now, SyncExternalFunding)), later).e.totalFunded >= w.e.totalFunded + net
  {
    RunKeepsSolvent(w, arrivals);
    var mid := Run(w, arrivals);
    SyncObservesEverything(mid, sender, now);
    RunExtends(Step(mid, Tx(sender, now, SyncExternalFunding)), later);
  }

  lemma {:induction false} RunKeepsSolvent(w: World, txs: seq<Tx>)
    requires Solvent(w)
    ensures Solvent(Run(w, txs))
  {
    if txs != [] {
      RunKeepsSolvent(w, txs[..|txs| - 1]);
      StepKeepsSolvent(Run(w, txs[..|txs| - 1]), txs[|txs| - 1]);
    }
  }

  /** The accounting test the API runs on the counters read at the payout block. */
  predicate PayoutAccountingAccepted(e: Escrow, amount: nat) {
    && e.totalPaid >= amount
    && e.totalApprovedOutstanding <= e.balance
    && e.totalPaid + e.totalWithdrawn <= e.totalFunded
    && e.totalFunded == e.balance + e.totalPaid + e.totalWithdrawn
  }

  /** For a reward that really was paid, the test is exactly "nothing had arrived unsynced by the end
      of that block"; the other three conditions hold of every reachable contract state. */
  lemma PayoutAccountingAcceptedIffSynced(w: World, key: Bytes32)
    requires Solvent(w) && key in w.e.rewards && w.e.rewards[key].status == Paid
    ensures PayoutAccountingAccepted(w.e, w.e.rewards[key].amount) <==> w.e.totalFunded == w.inflow
  {
    SumRemove(KeysWith(w.e.rewards, Paid), AmountIn(w.e.rewards), key);
  }
}
