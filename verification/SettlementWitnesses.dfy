/** Runs from the empty database in which settlement goes wrong, each in one of the ways the other modules
    characterise. Every lemma returns the actions and the world they lead to. */
module SettlementWitnesses {
  import opened Options
  import opened Sums
  import opened RewardSettlement
  import opened SettlementDrivers
  import opened SettlementRuns
  import opened SettlementFate
  import Recovery = SettlementRecovery
  import Fencing = SettlementFencing
  import Approvals = SettlementApprovals

  // ---------------------------------------------------------------- payable intents

  // Nothing has happened but to the database, the approvals and the processes, which are all idle again.
  predicate Quiet(w: World) {
    && w.chain == map[] && w.provider == map[] && w.outcomes == map[] && w.minted == map[]
    && forall pid :: pid in w.procs ==> w.procs[pid].Idle?
  }

  lemma Funds(total: nat) returns (more: seq<Action>, w: World)
    ensures RunAll(Empty(), more) == w && Quiet(w) && w.approved == map[]
    ensures w.db == Db(map[], total, 0, 0, 0)
  {
    more := Begin(Empty());
    Push(Empty(), more, Empty(), PoolFunded(total));
    more := more + [PoolFunded(total)];
    w := RunAll(Empty(), more);
  }

  lemma HashesOf(row: Row, hash: Hash)
    requires row.payouts == [] && |row.approvals| == 1 && row.approvals[0].hash == Some(hash)
    ensures Hashes(row.approvals) + Hashes(row.payouts) == {hash}
  {
    assert row.approvals[0].hash.value in Hashes(row.approvals);
  }

  // A database whose one row has one approval.
  lemma OneHash(db: Db, row: Row, hash: Hash)
    requires db.rows == map[0 := row] && row.payouts == [] && |row.approvals| == 1 && row.approvals[0].hash == Some(hash)
    ensures AllHashes(db) == {hash} && AllTxs(db) == {}
  {
    HashesOf(row, hash);
    assert hash in Hashes(db.rows[0].approvals) + Hashes(db.rows[0].payouts);
  }

  lemma AddPayable(actions: seq<Action>, w: World, id: IntentId, recipient: nat, hash: Hash) returns (more: seq<Action>, w': World)
    requires RunAll(Empty(), actions) == w && Quiet(w) && CanOpen(w, id, 1, hash) && id !in w.approved
    ensures RunAll(Empty(), more) == w' && Quiet(w')
    ensures w'.db == w.db.(rows := w.db.rows[id := PayableRow(1, recipient, ChainApproval(hash, 0))], reserved := w.db.reserved + 1)
    ensures w'.approved == w.approved[id := ChainApproval(hash, 0)]
  {
    var a := Approves(w, 0, id, 1, recipient, ChainApproval(hash, 0));
    RunThen(Empty(), actions, a);
    more := actions + a;
    w' := RunAll(Empty(), more);
  }

  function FirstRow(): Row {
    PayableRow(1, 7, ChainApproval(1, 0))
  }

  function SecondRow(): Row {
    PayableRow(1, 8, ChainApproval(2, 0))
  }

  function FirstDb(total: nat): Db {
    Db(map[0 := FirstRow()], total, 1, 0, 0)
  }

  function BothDb(): Db {
    Db(map[0 := FirstRow(), 1 := SecondRow()], 2, 2, 0, 0)
  }

  lemma MakesFirst(total: nat) returns (more: seq<Action>, w: World)
    requires total > 0
    ensures RunAll(Empty(), more) == w && Quiet(w) && w.approved == map[0 := ChainApproval(1, 0)]
    ensures w.db == FirstDb(total)
  {
    var a, w0 := Funds(total);
    more, w := AddPayable(a, w0, 0, 7, 1);
  }

  lemma MakesBoth() returns (more: seq<Action>, w: World)
    ensures RunAll(Empty(), more) == w && Quiet(w)
    ensures w.db == BothDb()
  {
    var a, w0 := MakesFirst(2);
    OneHash(w0.db, FirstRow(), 1);
    more, w := AddPayable(a, w0, 1, 8, 2);
  }

  lemma PayOut(actions: seq<Action>, w: World, id: IntentId, payout: ChainPayout) returns (more: seq<Action>, w': World)
    requires RunAll(Empty(), actions) == w && id !in w.chain
    ensures RunAll(Empty(), more) == w' == w.(chain := w.chain[id := payout])
  {
    Push(Empty(), actions, w, ChainPays(id, payout));
    more := actions + [ChainPays(id, payout)];
    w' := RunAll(Empty(), more);
  }

  // ---------------------------------------------------------------- a deposit after the payout

  // What the chain shows when the one unit of the pool was paid out in transaction 2.
  predicate InFull(c: ChainPayout) {
    c.evidence.hash == 2 && c.evidence.accounting == Accounting(1, 0, 1, 0, 0) && c.recipient == 7 && c.amount == 1
  }

  lemma PaidInFull() returns (c: ChainPayout)
    ensures InFull(c)
  {
    c := ChainPayout(Evidence(2, 0, Accounting(1, 0, 1, 0, 0)), 7, 1);
  }

  lemma OneFirm(w: World, row: Row)
    requires w.db.rows == map[0 := row] && Payable(row.status)
    ensures Firm(w) == row.amount
  {
    var ids: set<IntentId> := FirmIds(w);
    assert ids == {0} && ids - {0} == {};
    SumRemove(ids, AmountOf(w.db.rows), 0);
  }

  lemma InFullCanSettle(w: World, row: Row, c: ChainPayout)
    requires w.db == Db(map[0 := row], 1, 1, 0, 0) && Payable(row.status) && row.amount == 1 && row.recipient == 7
    requires InFull(c) && HashIsFree(w.db, row, 2) && !FailedWithHash(row, 2)
    ensures CanSettleFrom(w.db, Firm(w), 0, c)
  {
    OneFirm(w, row);
  }

  lemma FirstCanSettle(w: World, c: ChainPayout)
    requires w.db == FirstDb(1) && InFull(c)
    ensures CanSettleFrom(w.db, Firm(w), 0, c)
  {
    OneHash(w.db, FirstRow(), 1);
    InFullCanSettle(w, FirstRow(), c);
  }

  // Any payout is lost by a deposit beyond what its block had seen.
  lemma DepositStrands(w: World, actions: seq<Action>, id: IntentId, amount: nat)
    requires RunAll(Empty(), actions) == w && Unsettled(w, id) && w.db.total + amount > w.chain[id].evidence.accounting.funded
    ensures var w' := RunAll(Empty(), actions + [PoolFunded(amount)]); Unsettled(w', id) && !CanSettle(w', id)
  {
    Push(Empty(), actions, w, PoolFunded(amount));
  }

  // The chain makes a payout that can be settled.
  lemma PaysSettleable(actions: seq<Action>, w: World, id: IntentId, payout: ChainPayout) returns (more: seq<Action>, w': World)
    requires RunAll(Empty(), actions) == w && Settleable(w, id, payout)
    ensures RunAll(Empty(), more) == w' && w'.db == w.db && id in w'.chain && w'.chain[id] == payout
    ensures Unsettled(w', id) && CanSettle(w', id)
  {
    more, w' := PayOut(actions, w, id, payout);
    assert FirmIds(w') == FirmIds(w);
  }

  ghost predicate Settleable(w: World, id: IntentId, c: ChainPayout) {
    id !in w.chain && id in w.db.rows && Payable(w.db.rows[id].status) && CanSettleFrom(w.db, Firm(w), id, c)
  }

  lemma FirstIsPayable(w: World)
    requires w.db == FirstDb(1)
    ensures 0 in w.db.rows && Payable(w.db.rows[0].status)
  {
  }

  lemma FirstIsSettleable(w: World, c: ChainPayout)
    requires w.db == FirstDb(1) && InFull(c) && 0 !in w.chain
    ensures Settleable(w, 0, c)
  {
    FirstCanSettle(w, c);
    FirstIsPayable(w);
  }

  lemma MakesSettleable(c: ChainPayout) returns (more: seq<Action>, w: World)
    requires InFull(c)
    ensures RunAll(Empty(), more) == w && Settleable(w, 0, c) && w.db.total == 1
  {
    more, w := MakesFirst(1);
    FirstIsSettleable(w, c);
  }

  /** A payout is made, and before it is confirmed somebody deposits: it can never be settled any more,
      though without the deposit it could have been. */
  lemma LateDepositStrands() returns (actions: seq<Action>)
    ensures Unsettled(RunAll(Empty(), actions), 0) && CanSettle(RunAll(Empty(), actions), 0)
    ensures var w := RunAll(Empty(), actions + [PoolFunded(1)]); Unsettled(w, 0) && !CanSettle(w, 0)
  {
    var c := PaidInFull();
    var a, w0 := MakesSettleable(c);
    var w;
    actions, w := PaysSettleable(a, w0, 0, c);
    DepositStrands(w, actions, 0, 1);
  }

  // ---------------------------------------------------------------- two payouts confirmed out of order

  // Intent 0 is paid in an earlier block than intent 1.
  function EarlierPayout(): ChainPayout {
    ChainPayout(Evidence(3, 0, Accounting(1, 1, 2, 0, 1)), 7, 1)
  }

  function LaterPayout(): ChainPayout {
    ChainPayout(Evidence(4, 0, Accounting(2, 0, 2, 0, 0)), 8, 1)
  }

  lemma MakesBothPaid() returns (more: seq<Action>, w: World)
    ensures RunAll(Empty(), more) == w && w.db == BothDb() && PhaseOf(w, 0).Idle?
    ensures w.chain == map[0 := EarlierPayout(), 1 := LaterPayout()]
  {
    var a, w0 := MakesBoth();
    var b, w1 := PayOut(a, w0, 0, EarlierPayout());
    more, w := PayOut(b, w1, 1, LaterPayout());
  }

  lemma BothHashes(db: Db, h: Hash)
    requires db == BothDb() && h in AllHashes(db)
    ensures h == 1 || h == 2
  {
    HashesOf(FirstRow(), 1);
    HashesOf(SecondRow(), 2);
  }

  lemma TwoFirm(w: World, a: Row, b: Row)
    requires w.db.rows == map[0 := a, 1 := b] && Payable(a.status) && Payable(b.status)
    ensures Firm(w) == a.amount + b.amount
  {
    var ids: set<IntentId> := FirmIds(w);
    assert ids == {0, 1} && ids - {0} - {1} == {};
    SumRemove(ids, AmountOf(w.db.rows), 0);
    SumRemove(ids - {0}, AmountOf(w.db.rows), 1);
  }

  lemma FreeOfBoth(db: Db, hash: Hash)
    requires db == BothDb() && hash > 2
    ensures hash !in AllHashes(db)
  {
    if hash in AllHashes(db) { BothHashes(db, hash); }
  }

  lemma EarlierCanSettle(w: World)
    requires w.db == BothDb()
    ensures CanSettleFrom(w.db, Firm(w), 0, EarlierPayout())
  {
    FreeOfBoth(w.db, 3);
    TwoFirm(w, FirstRow(), SecondRow());
  }

  lemma EarlierIsLost(db: Db, firm: nat)
    requires 0 in db.rows && db.rows[0].amount == 1 && db.paid == 1
    ensures !CanSettleFrom(db, firm, 0, EarlierPayout())
  {
  }

  // What the two calls of a confirmation do to the pools and the other rows.
  lemma ObservePaysNothing(db: Db, id: IntentId, hash: Hash)
    requires id in db.rows && RowOk(db.rows[id]) && Payable(db.rows[id].status) && Call(db, id, ObserveExternalPayout(hash)).Committed?
    ensures var observed := Call(db, id, ObserveExternalPayout(hash)).db;
            && id in observed.rows && observed == db.(rows := db.rows[id := observed.rows[id]])
            && observed.rows[id].amount == db.rows[id].amount && observed.rows[id].status != PaidOut
  {
    ObserveCommitsIff(db, id, hash);
    ObserveExternalRowStep(db.rows[id], hash, AllHashes(db));
  }

  lemma ConfirmPaysAmount(db: Db, id: IntentId, e: Evidence)
    requires id in db.rows && db.rows[id].status != PaidOut && Call(db, id, ConfirmPayout(e.hash, e.place, e.accounting)).Committed?
    ensures var db' := Call(db, id, ConfirmPayout(e.hash, e.place, e.accounting)).db;
            && id in db'.rows && db'.rows == db.rows[id := db'.rows[id]] && db'.paid == db.paid + db.rows[id].amount
  {
  }

  lemma BothCallsPay(db: Db, id: IntentId, e: Evidence)
    requires id in db.rows && RowOk(db.rows[id]) && Payable(db.rows[id].status) && BothCalls(db, id, e).Committed?
    ensures var db' := BothCalls(db, id, e).db;
            && id in db'.rows && db'.paid == db.paid + db.rows[id].amount
            && forall other :: other in db.rows && other != id ==> other in db'.rows && db'.rows[other] == db.rows[other]
  {
    ObservePaysNothing(db, id, e.hash);
    ConfirmPaysAmount(Call(db, id, ObserveExternalPayout(e.hash)).db, id, e);
  }

  lemma LaterIsVerified(w: World)
    requires w.db == BothDb() && 1 in w.chain && w.chain[1] == LaterPayout()
    ensures Payable(w.db.rows[1].status) && Verified(w, 1, w.db.rows[1], LaterPayout().evidence)
    ensures MatchesProjection(w.db, 1, LaterPayout().evidence.accounting)
  {
  }

  lemma LaterIsFree(db: Db)
    requires db == BothDb()
    ensures HashIsFree(db, db.rows[1], 4) && !FailedWithHash(db.rows[1], 4)
  {
    FreeOfBoth(db, 4);
  }

  // Settling one intent leaves the others alone.
  lemma SettlesOne(db: Db, id: IntentId, e: Evidence, other: IntentId)
    requires LedgerOk(db) && id in db.rows && Payable(db.rows[id].status) && other in db.rows && other != id
    requires HashIsFree(db, db.rows[id], e.hash) && !FailedWithHash(db.rows[id], e.hash)
    requires SnapshotValid(e.accounting) && MatchesProjection(db, db.rows[id].amount, e.accounting)
    ensures var r := BothCalls(db, id, e);
            && r.Committed? && id in r.db.rows && r.db.rows[id].status == PaidOut
            && other in r.db.rows && r.db.rows[other] == db.rows[other] && r.db.paid == db.paid + db.rows[id].amount
  {
    Recovery.RowIsOk(db, id);
    Recovery.BothCallsCommit(db, id, e);
    BothCallsPay(db, id, e);
  }

  lemma LaterCommits(db: Db)
    requires db == BothDb() && LedgerOk(db)
    ensures var r := BothCalls(db, 1, LaterPayout().evidence);
            && r.Committed? && 1 in r.db.rows && r.db.rows[1].status == PaidOut
            && 0 in r.db.rows && r.db.rows[0] == FirstRow() && r.db.paid == 1
  {
    LaterIsFree(db);
    SettlesOne(db, 1, LaterPayout().evidence, 0);
  }

  // The two calls go through, and this is what they leave of the other row and of the pool.
  ghost predicate Settling(db: Db, id: IntentId, e: Evidence, other: IntentId, row: Row, paid: nat)
    requires id in db.rows
  {
    var r := BothCalls(db, id, e);
    && r.Committed? && id in r.db.rows && r.db.rows[id].status == PaidOut
    && other in r.db.rows && r.db.rows[other] == row && r.db.paid == paid
  }

  lemma LaterIsSettling(db: Db)
    requires db == BothDb() && LedgerOk(db)
    ensures Settling(db, 1, LaterPayout().evidence, 0, FirstRow(), 1)
  {
    LaterCommits(db);
  }

  lemma SettlesWith(w: World, id: IntentId, e: Evidence, other: IntentId, row: Row, paid: nat) returns (more: seq<Action>, w': World)
    requires PhaseOf(w, 0).Idle? && id in w.db.rows && Payable(w.db.rows[id].status) && Verified(w, id, w.db.rows[id], e)
    requires Settling(w.db, id, e, other, row, paid)
    ensures RunAll(w, more) == w' && w'.chain == w.chain && Settled(w', id)
    ensures other in w'.db.rows && w'.db.rows[other] == row && w'.db.paid == paid
  {
    more := FindsAndSettles(w, 0, id, e);
    w' := RunAll(w, more);
  }

  lemma LaterSettles(w: World) returns (more: seq<Action>, w': World)
    requires w.db == BothDb() && LedgerOk(w.db) && PhaseOf(w, 0).Idle? && 1 in w.chain && w.chain[1] == LaterPayout()
    ensures RunAll(w, more) == w' && w'.chain == w.chain && Settled(w', 1)
    ensures 0 in w'.db.rows && w'.db.rows[0] == FirstRow() && w'.db.paid == 1
  {
    LaterIsVerified(w);
    LaterIsSettling(w.db);
    more, w' := SettlesWith(w, 1, LaterPayout().evidence, 0, FirstRow(), 1);
  }

  /** Two payouts are made in different blocks and the later one is confirmed first: the earlier one, whose
      counters do not include it, can never be settled any more. */
  lemma LaterFirstStrands() returns (before: seq<Action>, after: seq<Action>)
    ensures Unsettled(RunAll(Empty(), before), 0) && CanSettle(RunAll(Empty(), before), 0)
    ensures var w := RunAll(Empty(), before + after); Settled(w, 1) && Unsettled(w, 0) && !CanSettle(w, 0)
  {
    var w, w';
    before, w := MakesBothPaid();
    EveryRunIsSafe(before);
    EarlierCanSettle(w);
    after, w' := LaterSettles(w);
    RunThen(Empty(), before, after);
    EarlierIsLost(w'.db, Firm(w'));
  }

  // ---------------------------------------------------------------- pieces with a provider

  // A process resumes what it was about to do.
  lemma Calls(actions: seq<Action>, w: World, pid: Pid, answer: Answer) returns (more: seq<Action>, w': World)
    requires RunAll(Empty(), actions) == w && PendingCall(PhaseOf(w, pid)).Some?
    ensures more == actions + [Resume(pid, answer)] && RunAll(Empty(), more) == w'
    ensures var (p, (rpc, after)) := (PhaseOf(w, pid), PendingCall(PhaseOf(w, pid)).value);
            var r := Call(w.db, p.id, rpc);
            w' == if r.Committed? then Enter(w.(db := r.db), pid, after) else Enter(w, pid, Idle)
  {
    assert w.procs[pid := PhaseOf(w, pid)] == w.procs;
    assert Enter(w, pid, PhaseOf(w, pid)) == w;
    CallStep(w, pid, PhaseOf(w, pid), answer);
    Push(Empty(), actions, w, Resume(pid, answer));
    more := actions + [Resume(pid, answer)];
    w' := RunAll(Empty(), more);
  }

  lemma Submits(actions: seq<Action>, w: World, pid: Pid, id: IntentId, key: Key, tx: TxId) returns (more: seq<Action>, w': World)
    requires RunAll(Empty(), actions) == w && PhaseOf(w, pid).Idle?
    requires id in w.db.rows && RowOk(w.db.rows[id]) && NeedsAttempt(w.db.rows[id])
    requires Fresh(w, key, tx) && key !in Keys(w.db.rows[id].payouts)
    ensures RunAll(Empty(), more) == w' == Enter(Relayed(w, id, key, tx), pid, Idle)
  {
    var a := Relays(w, pid, id, key, tx);
    RunThen(Empty(), actions, a);
    CrashStep(Relayed(w, id, key, tx), pid, Reread(RelayBlock, id));
    Push(Empty(), actions + a, Enter(Relayed(w, id, key, tx), pid, Reread(RelayBlock, id)), Crash(pid));
    more := actions + a + [Crash(pid)];
    w' := RunAll(Empty(), more);
  }

  lemma Concludes(actions: seq<Action>, w: World, tx: TxId, outcome: Outcome) returns (more: seq<Action>, w': World)
    requires RunAll(Empty(), actions) == w && tx !in w.outcomes
    ensures RunAll(Empty(), more) == w' == w.(outcomes := w.outcomes[tx := outcome])
  {
    Push(Empty(), actions, w, Settle(tx, outcome));
    more := actions + [Settle(tx, outcome)];
    w' := RunAll(Empty(), more);
  }

  // A process waits for the transaction and hears what became of it.
  lemma Hears(actions: seq<Action>, w: World, pid: Pid, id: IntentId, tx: TxId) returns (more: seq<Action>, w': World)
    requires RunAll(Empty(), actions) == w && PhaseOf(w, pid).Idle?
    requires id in w.db.rows && AwaitsProvider(w.db.rows[id], tx) && tx in w.outcomes
    ensures RunAll(Empty(), more) == w'
    ensures w' == Enter(w, pid, if w.outcomes[tx].Sent? then ToAttach(id, tx, w.outcomes[tx].hash)
                                else ToFail(id, true, |w.db.rows[id].payouts| - 1, ProviderSaid))
  {
    var n := |w.db.rows[id].payouts| - 1;
    var a := ReachWaiting(w, pid, id, tx);
    RunThen(Empty(), actions, a);
    if w.outcomes[tx].Sent? { HashHeard(w, pid, id, n, tx); } else { FailureHeard(w, pid, id, n, tx); }
    Push(Empty(), actions + a, Enter(w, pid, Waiting(id, n, tx)), Resume(pid, Polled));
    more := actions + a + [Resume(pid, Polled)];
    w' := RunAll(Empty(), more);
  }

  // ---------------------------------------------------------------- recorded failed after attaching

  lemma FailedCarriesHash(row: Row, hash: Hash)
    requires row.payouts != [] && row.payouts[|row.payouts| - 1].hash == Some(hash)
    ensures FailedWithHash(FailedRow(row), hash) && Payable(FailedRow(row).status)
  {
    assert FailedRow(row).payouts[|row.payouts| - 1].hash == Some(hash);
  }

  // Whoever records the attempt of the payout failed strands it.
  lemma FailingStrands(actions: seq<Action>, w: World, pid: Pid, id: IntentId)
    requires RunAll(Empty(), actions) == w && AboutToStrand(w, pid, id)
    ensures var w' := RunAll(Empty(), actions + [Resume(pid, Nothing)]); Unsettled(w', id) && !CanSettle(w', id)
  {
    FailCommits(w.db, id);
    FailedCarriesHash(w.db.rows[id], w.chain[id].evidence.hash);
    var more, w' := Calls(actions, w, pid, Nothing);
  }

  // The hash the provider reported is stored, and the transaction is on chain.
  lemma Attaches(actions: seq<Action>, w: World, pid: Pid, id: IntentId, tx: TxId, payout: ChainPayout)
      returns (more: seq<Action>, w': World)
    requires RunAll(Empty(), actions) == w && id !in w.chain && PhaseOf(w, pid) == ToAttach(id, tx, payout.evidence.hash)
    requires id in w.db.rows && AwaitsProvider(w.db.rows[id], tx) && payout.evidence.hash !in AllHashes(w.db)
    ensures RunAll(Empty(), more) == w' && id in w'.chain && w'.chain[id] == payout && PhaseOf(w', pid) == Reread(VerifyBlock, id)
    ensures w'.db == w.db.(rows := w.db.rows[id := AttachedRow(w.db.rows[id], payout.evidence.hash)])
  {
    AttachCommits(w.db, id, tx, payout.evidence.hash);
    var a, wa := Calls(actions, w, pid, Nothing);
    more, w' := PayOut(a, wa, id, payout);
  }

  // But the process that verifies it gets an error.
  lemma Refutes(actions: seq<Action>, w: World, pid: Pid, id: IntentId) returns (more: seq<Action>, w': World)
    requires RunAll(Empty(), actions) == w && PhaseOf(w, pid) == Reread(VerifyBlock, id) && id in w.db.rows
    requires Last(w.db.rows[id].payouts).Some? && Last(w.db.rows[id].payouts).value.status == Submitted
    requires Last(w.db.rows[id].payouts).value.hash.Some?
    ensures RunAll(Empty(), more) == w' == Enter(w, pid, ToFail(id, true, |w.db.rows[id].payouts| - 1, Refuted))
  {
    var p := ToFail(id, true, |w.db.rows[id].payouts| - 1, Refuted);
    assert w.procs[pid := Reread(VerifyBlock, id)] == w.procs;
    RereadStep(w, pid, VerifyBlock, id, Nothing);
    Push(Empty(), actions, w, Resume(pid, Nothing));
    BlockStep(w, pid, VerifyBlock, id, w.db.rows[id], FatalError, p);
    Push(Empty(), actions + [Resume(pid, Nothing)], Enter(w, pid, At(VerifyBlock, id, w.db.rows[id])), Resume(pid, FatalError));
    more := actions + [Resume(pid, Nothing)] + [Resume(pid, FatalError)];
    w' := RunAll(Empty(), more);
  }

  // The first intent with an attempt under way.
  function WaitingDb(): Db {
    FirstDb(1).(rows := map[0 := AcceptedRow(FirstRow(), 5, 9)])
  }

  lemma FirstIsFresh(w: World)
    requires Quiet(w) && w.db == FirstDb(1)
    ensures RowOk(w.db.rows[0]) && NeedsAttempt(w.db.rows[0]) && Keys(w.db.rows[0].payouts) == {} && Fresh(w, 5, 9)
  {
    OneHash(w.db, FirstRow(), 1);
  }

  lemma MakesWaiting(outcome: Outcome) returns (more: seq<Action>, w: World)
    ensures RunAll(Empty(), more) == w && w.db == WaitingDb() && w.outcomes == map[9 := outcome]
    ensures w.chain == map[] && w.provider == map[5 := 9] && w.minted == map[5 := 0] && forall pid :: PhaseOf(w, pid).Idle?
  {
    var a, w0 := MakesFirst(1);
    FirstIsFresh(w0);
    var b, w1 := Submits(a, w0, 0, 0, 5, 9);
    assert w1.db.rows == WaitingDb().rows;
    more, w := Concludes(b, w1, 9, outcome);
  }

  lemma WaitingFacts(db: Db)
    requires db == WaitingDb()
    ensures AwaitsProvider(db.rows[0], 9) && |db.rows[0].payouts| == 1 && 2 !in AllHashes(db)
  {
    assert db.rows[0].approvals == FirstRow().approvals && Hashes(db.rows[0].payouts) == {};
    HashesOf(FirstRow(), 1);
  }

  function AttachedDb(): Db {
    WaitingDb().(rows := WaitingDb().rows[0 := AttachedRow(AcceptedRow(FirstRow(), 5, 9), 2)])
  }

  lemma AttachedRowFacts(row: Row)
    requires row == AttachedRow(AcceptedRow(FirstRow(), 5, 9), 2)
    ensures Payable(row.status) && 2 in Hashes(row.payouts) && !FailedWithHash(row, 2)
    ensures Last(row.payouts).Some? && Active(Last(row.payouts).value) && Last(row.payouts).value.hash == Some(2)
  {
    assert row.payouts[0].hash.value in Hashes(row.payouts);
  }

  ghost predicate HasOpenHash(row: Row, hash: Hash) {
    Payable(row.status) && Last(row.payouts).Some? && Active(Last(row.payouts).value) && Last(row.payouts).value.hash == Some(hash)
  }

  lemma AttachedIsPaid(w: World)
    requires w.db == AttachedDb()
    ensures w.db.rows.Keys == {0} && HasOpenHash(w.db.rows[0], 2)
  {
    AttachedRowFacts(w.db.rows[0]);
  }

  lemma AttachedCanSettle(w: World, c: ChainPayout)
    requires w.db == AttachedDb() && InFull(c)
    ensures 0 in w.db.rows && CanSettleFrom(w.db, Firm(w), 0, c)
  {
    AttachedRowFacts(w.db.rows[0]);
    assert w.db.rows == map[0 := w.db.rows[0]];
    InFullCanSettle(w, w.db.rows[0], c);
  }

  // The payout is on chain, its transaction with the open attempt, and a process is about to record that failed.
  ghost predicate AboutToStrand(w: World, pid: Pid, id: IntentId) {
    && Unsettled(w, id) && PhaseOf(w, pid).ToFail? && PhaseOf(w, pid).id == id && PhaseOf(w, pid).payout
    && Last(w.db.rows[id].payouts).Some? && Active(Last(w.db.rows[id].payouts).value)
    && Last(w.db.rows[id].payouts).value.hash == Some(w.chain[id].evidence.hash)
  }

  lemma RefutedIsAboutToStrand(w: World, pid: Pid, id: IntentId, c: ChainPayout)
    requires id in w.db.rows && HasOpenHash(w.db.rows[id], c.evidence.hash) && CanSettleFrom(w.db, Firm(w), id, c)
    requires PhaseOf(w, pid).ToFail? && PhaseOf(w, pid).id == id && PhaseOf(w, pid).payout && id in w.chain && w.chain[id] == c
    ensures AboutToStrand(w, pid, id) && CanSettle(w, id)
  {
  }

  lemma MakesAttached(c: ChainPayout) returns (more: seq<Action>, w: World)
    requires InFull(c)
    ensures RunAll(Empty(), more) == w && w.db == AttachedDb() && 0 in w.chain && w.chain[0] == c && PhaseOf(w, 0) == Reread(VerifyBlock, 0)
  {
    var a, w0 := MakesWaiting(Sent(2, false));
    WaitingFacts(w0.db);
    var b, w1 := Hears(a, w0, 0, 0, 9);
    more, w := Attaches(b, w1, 0, 0, 9, c);
  }

  lemma MakesToFail(c: ChainPayout) returns (more: seq<Action>, w: World)
    requires InFull(c)
    ensures RunAll(Empty(), more) == w && w.db == AttachedDb() && 0 in w.chain && w.chain[0] == c
    ensures PhaseOf(w, 0).ToFail? && PhaseOf(w, 0).id == 0 && PhaseOf(w, 0).payout
  {
    var a, w0 := MakesAttached(c);
    AttachedRowFacts(w0.db.rows[0]);
    assert w0.db.rows[0].payouts[0].status == Submitted;
    more, w := Refutes(a, w0, 0, 0);
  }

  lemma MakesRefuted() returns (more: seq<Action>, w: World)
    ensures RunAll(Empty(), more) == w && AboutToStrand(w, 0, 0) && CanSettle(w, 0)
  {
    var c := PaidInFull();
    more, w := MakesToFail(c);
    AttachedIsPaid(w);
    AttachedCanSettle(w, c);
    RefutedIsAboutToStrand(w, 0, 0, c);
  }

  /** The provider reports the transaction and the chain has made the payout, but a verification fails and the
      attempt is recorded failed: the payout can never be settled any more. */
  lemma StrandingHappens() returns (actions: seq<Action>)
    ensures Unsettled(RunAll(Empty(), actions), 0) && CanSettle(RunAll(Empty(), actions), 0)
    ensures var w := RunAll(Empty(), actions + [Resume(0, Nothing)]); Unsettled(w, 0) && !CanSettle(w, 0)
  {
    var w;
    actions, w := MakesRefuted();
    FailingStrands(actions, w, 0, 0);
  }

  // ---------------------------------------------------------------- two submissions that may both pay

  lemma FailedIsOk(row: Row)
    requires RowOk(row) && row.payouts != [] && Active(row.payouts[|row.payouts| - 1])
    ensures RowOk(FailedRow(row))
  {
    assert LastWhere(row.payouts, Active) == Some(|row.payouts| - 1);
    FailRowStep(row, true);
    assert FailOperationRow(row, true) == Some(FailedRow(row));
  }

  lemma FailedNeedsAttempt(row: Row)
    requires RowOk(row) && Live(row.status) && row.payouts != [] && Active(row.payouts[|row.payouts| - 1])
    ensures RowOk(FailedRow(row)) && NeedsAttempt(FailedRow(row)) && Keys(FailedRow(row).payouts) == Keys(row.payouts)
  {
    FailedIsOk(row);
    SameKeys(FailedRow(row).payouts, row.payouts);
  }

  lemma TxsAfterFailure(db: Db, id: IntentId)
    requires id in db.rows && db.rows[id].payouts != []
    ensures AllTxs(db.(rows := db.rows[id := FailedRow(db.rows[id])])) <= AllTxs(db)
  {
    var db' := db.(rows := db.rows[id := FailedRow(db.rows[id])]);
    forall tx | tx in AllTxs(db') ensures tx in AllTxs(db) {
      var other, i :| other in db'.rows && 0 <= i < |db'.rows[other].payouts| && db'.rows[other].payouts[i].tx == Some(tx);
      assert db.rows[other].payouts[i].tx == Some(tx);
    }
  }

  ghost predicate CanFail(w: World, p: Pid, id: IntentId) {
    && PhaseOf(w, p).ToFail? && PhaseOf(w, p).id == id && PhaseOf(w, p).payout
    && id in w.db.rows && RowOk(w.db.rows[id]) && Live(w.db.rows[id].status)
    && w.db.rows[id].payouts != [] && Active(w.db.rows[id].payouts[|w.db.rows[id].payouts| - 1])
  }

  lemma Fails(actions: seq<Action>, w: World, p: Pid, id: IntentId) returns (more: seq<Action>, w': World)
    requires RunAll(Empty(), actions) == w && CanFail(w, p, id)
    ensures RunAll(Empty(), more) == w' == Enter(WithRow(w, id, FailedRow(w.db.rows[id])), p, Idle)
  {
    FailCommits(w.db, id);
    more, w' := Calls(actions, w, p, Nothing);
  }

  lemma FreshAfterFailure(w: World, p: Pid, id: IntentId, key: Key, tx: TxId)
    requires CanFail(w, p, id) && Fresh(w, key, tx) && key !in Keys(w.db.rows[id].payouts)
    ensures var w' := Enter(WithRow(w, id, FailedRow(w.db.rows[id])), p, Idle);
            && RowOk(w'.db.rows[id]) && NeedsAttempt(w'.db.rows[id]) && Fresh(w', key, tx) && key !in Keys(w'.db.rows[id].payouts)
  {
    FailedNeedsAttempt(w.db.rows[id]);
    TxsAfterFailure(w.db, id);
  }

  // A process records a failure it heard, and makes the next attempt.
  lemma FailsAndSubmits(actions: seq<Action>, w: World, p: Pid, id: IntentId, key: Key, tx: TxId)
      returns (more: seq<Action>, w': World)
    requires RunAll(Empty(), actions) == w && CanFail(w, p, id) && Fresh(w, key, tx) && key !in Keys(w.db.rows[id].payouts)
    ensures RunAll(Empty(), more) == w' && w'.provider == w.provider[key := tx] && w'.outcomes == w.outcomes && w'.minted == w.minted[key := id]
    ensures w'.db == w.db.(rows := w.db.rows[id := AcceptedRow(FailedRow(w.db.rows[id]), key, tx)])
    ensures w'.procs == w.procs[p := Idle]
  {
    FreshAfterFailure(w, p, id, key, tx);
    var a, wa := Fails(actions, w, p, id);
    more, w' := Submits(a, wa, p, id, key, tx);
    assert wa.db.rows[id := AcceptedRow(FailedRow(w.db.rows[id]), key, tx)] == w.db.rows[id := AcceptedRow(FailedRow(w.db.rows[id]), key, tx)];
    assert w.procs[p := Idle][p := Idle] == w.procs[p := Idle];
  }

  // If the failure recorded is not that of the newest attempt, both may pay.
  lemma BothMayPay(w: World, id: IntentId, row: Row, key: Key, tx: TxId, w': World)
    requires id in w.db.rows && w.db.rows[id] == row && row.payouts != [] && Fencing.MayPay(w, id, |row.payouts| - 1) && Fresh(w, key, tx)
    requires w'.provider == w.provider[key := tx] && w'.outcomes == w.outcomes
    requires id in w'.db.rows && w'.db.rows[id] == AcceptedRow(FailedRow(row), key, tx)
    ensures Fencing.MayPay(w', id, |row.payouts| - 1) && Fencing.MayPay(w', id, |row.payouts|)
  {
    var ops := w'.db.rows[id].payouts;
    assert ops[|row.payouts| - 1].key == row.payouts[|row.payouts| - 1].key && ops[|row.payouts|].key == Some(key);
  }

  // Both processes have heard that the first attempt failed.
  lemma MakesBothHear() returns (more: seq<Action>, w: World)
    ensures RunAll(Empty(), more) == w && w.db == WaitingDb() && w.outcomes == map[9 := ProviderFailed]
    ensures w.provider == map[5 := 9] && w.minted == map[5 := 0]
    ensures PhaseOf(w, 0) == PhaseOf(w, 1) == ToFail(0, true, 0, ProviderSaid)
  {
    var a, w0 := MakesWaiting(ProviderFailed);
    WaitingFacts(w0.db);
    var b, w1 := Hears(a, w0, 0, 0, 9);
    assert PhaseOf(w1, 1) == PhaseOf(w0, 1);
    more, w := Hears(b, w1, 1, 0, 9);
  }

  // The row after the first failure and the second submission.
  function TwiceSubmitted(): Row {
    AcceptedRow(FailedRow(AcceptedRow(FirstRow(), 5, 9)), 6, 10)
  }

  lemma WaitingRow(row: Row)
    requires row == AcceptedRow(FirstRow(), 5, 9)
    ensures Live(row.status) && row.payouts == [Op(ProviderAccepted, Some(5), Some(9), None, None)] && Keys(row.payouts) == {5}
  {
    assert row.payouts == [Op(ProviderAccepted, Some(5), Some(9), None, None)];
    assert row.payouts[0].key.value in Keys(row.payouts);
  }

  lemma WaitingIsFresh(w: World)
    requires w.db == WaitingDb() && w.outcomes.Keys == {9} && w.provider == map[5 := 9] && w.minted == map[5 := 0]
    ensures Fresh(w, 6, 10)
  {
    WaitingRow(w.db.rows[0]);
  }

  lemma TwiceSubmittedRow(row: Row)
    requires row == TwiceSubmitted()
    ensures Live(row.status) && row.payouts == [Op(Failed, Some(5), Some(9), None, None), Op(ProviderAccepted, Some(6), Some(10), None, None)]
    ensures 7 !in Keys(row.payouts)
  {
    assert row.payouts == [Op(Failed, Some(5), Some(9), None, None), Op(ProviderAccepted, Some(6), Some(10), None, None)];
  }

  lemma TwiceSubmittedFacts(w: World)
    requires IsStale(w)
    ensures Fresh(w, 7, 11) && Fencing.MayPay(w, 0, 1)
  {
    TwiceSubmittedRow(w.db.rows[0]);
  }

  lemma BothHearIsReady(w: World)
    requires LedgerOk(w.db) && w.db == WaitingDb() && PhaseOf(w, 1) == ToFail(0, true, 0, ProviderSaid)
    ensures CanFail(w, 1, 0) && Keys(w.db.rows[0].payouts) == {5} && w.db.rows[0] == AcceptedRow(FirstRow(), 5, 9)
  {
    Recovery.RowIsOk(w.db, 0);
    WaitingRow(w.db.rows[0]);
  }

  // The second submission has been made, and process 0 still means to record the failure of the first.
  ghost predicate IsStale(w: World) {
    && w.db == WaitingDb().(rows := WaitingDb().rows[0 := TwiceSubmitted()])
    && w.outcomes.Keys == {9} && w.provider == map[5 := 9, 6 := 10] && w.minted == map[5 := 0, 6 := 0]
    && PhaseOf(w, 0) == ToFail(0, true, 0, ProviderSaid)
  }

  lemma SubmittedIsStale(w: World, w': World)
    requires w.db == WaitingDb() && w.outcomes.Keys == {9} && w.provider == map[5 := 9] && w.minted == map[5 := 0]
    requires PhaseOf(w, 0) == ToFail(0, true, 0, ProviderSaid) && w'.procs == w.procs[1 := Idle]
    requires w'.provider == w.provider[6 := 10] && w'.outcomes == w.outcomes && w'.minted == w.minted[6 := 0]
    requires w'.db == w.db.(rows := w.db.rows[0 := AcceptedRow(FailedRow(w.db.rows[0]), 6, 10)])
    ensures IsStale(w')
  {
  }

  lemma MakesStaleFailure() returns (more: seq<Action>, w: World)
    ensures RunAll(Empty(), more) == w && IsStale(w)
  {
    var a, w0 := MakesBothHear();
    EveryRunIsSafe(a);
    BothHearIsReady(w0);
    WaitingIsFresh(w0);
    more, w := FailsAndSubmits(a, w0, 1, 0, 6, 10);
    SubmittedIsStale(w0, w);
  }

  lemma StaleFailureIsReady(w: World)
    requires LedgerOk(w.db) && IsStale(w)
    ensures CanFail(w, 0, 0) && Fresh(w, 7, 11) && 7 !in Keys(w.db.rows[0].payouts)
    ensures |w.db.rows[0].payouts| == 2 && Fencing.MayPay(w, 0, 1)
  {
    Recovery.RowIsOk(w.db, 0);
    TwiceSubmittedRow(w.db.rows[0]);
    TwiceSubmittedFacts(w);
  }

  // A failure recorded against an attempt that may pay lets a second submission be made beside it.
  lemma FailureDoubles(actions: seq<Action>, w: World, p: Pid, id: IntentId, key: Key, tx: TxId) returns (more: seq<Action>)
    requires RunAll(Empty(), actions) == w && CanFail(w, p, id) && Fresh(w, key, tx) && key !in Keys(w.db.rows[id].payouts)
    requires Fencing.MayPay(w, id, |w.db.rows[id].payouts| - 1)
    ensures var (w', n) := (RunAll(Empty(), more), |w.db.rows[id].payouts|); Fencing.MayPay(w', id, n - 1) && Fencing.MayPay(w', id, n)
  {
    var w';
    more, w' := FailsAndSubmits(actions, w, p, id, key, tx);
    BothMayPay(w, id, w.db.rows[id], key, tx, w');
  }

  /** Two processes hear that the first submission of intent 0 failed. One records it and submits anew; then
      the other records it too, against the new attempt, and the next submission is made beside one that may
      still pay. */
  lemma TwoLiveSubmissionsHappen() returns (actions: seq<Action>)
    ensures var w := RunAll(Empty(), actions); Fencing.MayPay(w, 0, 1) && Fencing.MayPay(w, 0, 2)
  {
    var a, w0 := MakesStaleFailure();
    EveryRunIsSafe(a);
    StaleFailureIsReady(w0);
    actions := FailureDoubles(a, w0, 0, 0, 7, 11);
  }

  // ---------------------------------------------------------------- an approval lost to a stale failure

  // A process that verifies the approval gets an error.
  lemma RefutesApproval(actions: seq<Action>, w: World, pid: Pid, id: IntentId) returns (more: seq<Action>, w': World)
    requires RunAll(Empty(), actions) == w && PhaseOf(w, pid).Idle? && id in w.db.rows && w.db.rows[id].status == ApprovalSubmitted
    requires Last(w.db.rows[id].approvals).Some? && Last(w.db.rows[id].approvals).value.status == Submitted && Last(w.db.rows[id].approvals).value.hash.Some?
    ensures RunAll(Empty(), more) == w' == Enter(w, pid, ToFail(id, false, |w.db.rows[id].approvals| - 1, Refuted))
  {
    var row := w.db.rows[id];
    var a := ReachApproval(w, pid, id);
    RunThen(Empty(), actions, a);
    BlockStep(w, pid, ApprovalBlock, id, row, FatalError, ToFail(id, false, |row.approvals| - 1, Refuted));
    Push(Empty(), actions + a, Enter(w, pid, At(ApprovalBlock, id, row)), Resume(pid, FatalError));
    more := actions + a + [Resume(pid, FatalError)];
    w' := RunAll(Empty(), more);
  }

  // The newest attempt carries the approval the chain shows.
  predicate Reports(w: World, id: IntentId) {
    && id in w.db.rows && id in w.approved && w.db.rows[id].status == ApprovalSubmitted
    && Last(w.db.rows[id].approvals).Some? && Last(w.db.rows[id].approvals).value.hash == Some(w.approved[id].hash)
  }

  // Whatever attempt a failure was about, it closes the one that carries the approval, for ever.
  lemma FailingLoses(actions: seq<Action>, w: World, pid: Pid, id: IntentId)
    requires RunAll(Empty(), actions) == w && Reports(w, id) && RowOk(w.db.rows[id])
    requires PhaseOf(w, pid).ToFail? && PhaseOf(w, pid).id == id && !PhaseOf(w, pid).payout
    ensures Approvals.Hopeless(RunAll(Empty(), actions + [Resume(pid, Nothing)]), id)
  {
    var row := w.db.rows[id];
    Recovery.RefuseCommits(w.db, id);
    var more, w' := Calls(actions, w, pid, Nothing);
    assert Recovery.Refused(row).approvals[|row.approvals| - 1].hash == Some(w.approved[id].hash);
  }

  lemma ReportedCanConfirm(w: World, id: IntentId)
    requires Reports(w, id) && RowOk(w.db.rows[id]) && forall i :: 0 <= i < |w.db.rows[id].approvals| - 1 ==> w.db.rows[id].approvals[i].hash != Some(w.approved[id].hash)
    ensures Approvals.Unconfirmed(w, id) && Approvals.CanConfirm(w, id)
  {
    var ops := w.db.rows[id].approvals;
    assert ops[|ops| - 1].hash.value in Hashes(ops);
  }

  function FirstSubmitted(): Row {
    SubmittedRow(1, 7, 1)
  }

  // The first approval was refuted and a second one reported.
  function SecondSubmitted(): Row {
    Row(1, 7, ApprovalSubmitted, [Op(Failed, None, None, Some(1), None), Op(Submitted, None, None, Some(2), None)], [], Validated)
  }

  lemma MakesBothRefute() returns (more: seq<Action>, w: World)
    ensures RunAll(Empty(), more) == w && w.approved == map[] && w.db.rows == map[0 := FirstSubmitted()]
    ensures PhaseOf(w, 0) == PhaseOf(w, 1) == ToFail(0, false, 0, Refuted)
  {
    var a, w0 := Funds(1);
    var b := Opens(w0, 0, 1, 7, 1);
    RunThen(Empty(), a, b);
    var c, w1 := RefutesApproval(a + b, Opened(w0, 0, 1, 7, 1), 0, 0);
    more, w := RefutesApproval(c, w1, 1, 0);
  }

  lemma RefusedFirst(db: Db)
    requires db.rows == map[0 := FirstSubmitted()]
    ensures Call(db, 0, FailOperation(false)) == Committed(db.(rows := map[0 := FirstRefused()]))
  {
    assert RowOk(FirstSubmitted());
    Recovery.RefuseCommits(db, 0);
    assert Recovery.Refused(FirstSubmitted()).approvals == FirstRefused().approvals;
  }

  lemma RefusedIsOk(db: Db)
    requires db.rows == map[0 := FirstRefused()]
    ensures RowOk(FirstRefused()) && Recovery.Reported(FirstRefused(), 2) == SecondSubmitted() && 2 !in AllHashes(db)
  {
    OneHash(db, FirstRefused(), 1);
  }

  // Between the two approvals.
  function FirstRefused(): Row {
    Row(1, 7, AwaitingApproval, [Op(Failed, None, None, Some(1), None)], [], Validated)
  }

  lemma RefusesFirst(actions: seq<Action>, w: World) returns (more: seq<Action>, w': World)
    requires RunAll(Empty(), actions) == w && w.db.rows == map[0 := FirstSubmitted()] && PhaseOf(w, 1) == ToFail(0, false, 0, Refuted)
    ensures RunAll(Empty(), more) == w' == Enter(w.(db := w.db.(rows := map[0 := FirstRefused()])), 1, Idle)
  {
    RefusedFirst(w.db);
    more, w' := Calls(actions, w, 1, Nothing);
  }

  lemma ReportsSecond(actions: seq<Action>, w: World) returns (more: seq<Action>, w': World)
    requires RunAll(Empty(), actions) == w && w.db.rows == map[0 := FirstRefused()] && 0 !in w.approved
    ensures RunAll(Empty(), more) == w'
    ensures w' == WithRow(w, 0, SecondSubmitted()).(approved := w.approved[0 := ChainApproval(2, 0)])
  {
    RefusedIsOk(w.db);
    var b := Recovery.Reports(w, 0, 2);
    RunThen(Empty(), actions, b);
    Push(Empty(), actions + b, WithRow(w, 0, SecondSubmitted()), ChainApproves(0, ChainApproval(2, 0)));
    more := actions + b + [ChainApproves(0, ChainApproval(2, 0))];
    w' := RunAll(Empty(), more);
  }

  lemma ReportsAnew(actions: seq<Action>, w: World) returns (more: seq<Action>, w': World)
    requires RunAll(Empty(), actions) == w && w.approved == map[] && w.db.rows == map[0 := FirstSubmitted()]
    requires PhaseOf(w, 1) == ToFail(0, false, 0, Refuted)
    ensures RunAll(Empty(), more) == w' && w'.db.rows == map[0 := SecondSubmitted()] && w'.approved == map[0 := ChainApproval(2, 0)]
    ensures PhaseOf(w', 0) == PhaseOf(w, 0)
  {
    var a, wa := RefusesFirst(actions, w);
    more, w' := ReportsSecond(a, wa);
  }

  lemma SecondIsReported(w: World)
    requires w.db.rows == map[0 := SecondSubmitted()] && w.approved == map[0 := ChainApproval(2, 0)]
    ensures Reports(w, 0) && RowOk(w.db.rows[0]) && Approvals.Unconfirmed(w, 0) && Approvals.CanConfirm(w, 0)
  {
    ReportedCanConfirm(w, 0);
  }

  /** Two processes fail to verify a first approval. One records it, the owner approves in another transaction
      and reports it; then the other records its failure against the new attempt, and the approval, which is
      on chain, can never be confirmed any more. */
  lemma LostApprovalHappens() returns (actions: seq<Action>)
    ensures Approvals.Unconfirmed(RunAll(Empty(), actions), 0) && Approvals.CanConfirm(RunAll(Empty(), actions), 0)
    ensures Approvals.Hopeless(RunAll(Empty(), actions + [Resume(0, Nothing)]), 0)
  {
    var a, w0 := MakesBothRefute();
    var w;
    actions, w := ReportsAnew(a, w0);
    SecondIsReported(w);
    FailingLoses(actions, w, 0, 0);
  }
}
