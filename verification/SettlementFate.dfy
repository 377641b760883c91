/** Whether a payout that the chain has made will ever be settled in the database. The counters a confirmation
    is checked against are those of the payout's block, so they never change, while the pools they must match
    move on: this module gives the exact condition under which some continuation still settles it. */
module SettlementFate {
  import opened Options
  import opened Sums
  import opened RewardSettlement
  import opened SettlementDrivers
  import opened SettlementRuns

  // Cancelling looks for the approval on chain: when there is one, only a process that looked before goes on.
  predicate MayCancel(w: World, id: IntentId) {
    id !in w.approved || exists pid :: pid in w.procs && w.procs[pid] == ToCancel(id)
  }

  // The intents that can never leave the pools again: approved, in the database or on chain.
  function FirmIds(w: World): set<IntentId> {
    set id | id in w.db.rows && (Payable(w.db.rows[id].status) || w.db.rows[id].status == PaidOut || (Soft(w.db.rows[id].status) && !MayCancel(w, id)))
  }

  ghost function Firm(w: World): nat {
    Sum(FirmIds(w), AmountOf(w.db.rows))
  }

  /** The payout is the intent's own; its transaction is free and not that of a failed attempt; the counters of
      its block are consistent; nothing was deposited or settled since that they do not include; and the
      intents that can no longer be cancelled are no more than they account for. */
  ghost predicate CanSettleFrom(db: Db, firm: nat, id: IntentId, c: ChainPayout)
    requires id in db.rows
  {
    var (row, a) := (db.rows[id], c.evidence.accounting);
    && c.recipient == row.recipient && c.amount == row.amount
    && HashIsFree(db, row, c.evidence.hash) && !FailedWithHash(row, c.evidence.hash)
    && SnapshotValid(a) && a.withdrawn == db.withdrawn
    && db.total <= a.funded
    && db.paid + row.amount <= a.paid
    && firm <= a.paid + a.outstanding
  }

  ghost predicate CanSettle(w: World, id: IntentId)
    requires id in w.db.rows && id in w.chain
  {
    CanSettleFrom(w.db, Firm(w), id, w.chain[id])
  }

  // The approval is confirmed, the chain has paid, and the database does not know it.
  ghost predicate Unsettled(w: World, id: IntentId) {
    id in w.db.rows && id in w.chain && Payable(w.db.rows[id].status)
  }

  ghost predicate Settled(w: World, id: IntentId) {
    id in w.db.rows && w.db.rows[id].status == PaidOut
  }

  // ---------------------------------------------------------------- the pools

  lemma FirmIsLiveOrPaid(w: World)
    ensures FirmIds(w) <= IdsWith(w.db.rows, true) + IdsWith(w.db.rows, false)
  {
  }

  lemma FirmIsCovered(w: World)
    requires LedgerOk(w.db)
    ensures Firm(w) <= w.db.reserved + w.db.paid
    ensures FirmIds(w) == IdsWith(w.db.rows, true) + IdsWith(w.db.rows, false) ==> Firm(w) == w.db.reserved + w.db.paid
  {
    var (firm, live, paid) := (FirmIds(w), IdsWith(w.db.rows, true), IdsWith(w.db.rows, false));
    FirmIsLiveOrPaid(w);
    SumUnion(live, paid, AmountOf(w.db.rows));
    SumSubset(firm, live + paid, AmountOf(w.db.rows));
  }

  lemma AmountIsReserved(db: Db, id: IntentId)
    requires LedgerOk(db) && id in db.rows && Live(db.rows[id].status)
    ensures db.rows[id].amount <= db.reserved
  {
    SumRemove(IdsWith(db.rows, true), AmountOf(db.rows), id);
  }

  // ---------------------------------------------------------------- a confirmation that goes through

  lemma ConfirmRequires(db: Db, id: IntentId, hash: Hash, place: nat, a: Accounting)
    requires id in db.rows && RowOk(db.rows[id]) && db.rows[id].status != PaidOut && Call(db, id, ConfirmPayout(hash, place, a)).Committed?
    ensures hash in Hashes(db.rows[id].payouts) && !FailedWithHash(db.rows[id], hash)
    ensures SnapshotValid(a) && MatchesProjection(db, db.rows[id].amount, a)
  {
    var row := db.rows[id];
    ConfirmCommitsIff(db, id, hash, place, a);
    var found := LastWhere(row.payouts, (op: Op) => op.hash == Some(hash) && op.status == Submitted);
    assert found.Some?;
    assert row.payouts[found.value].hash == Some(hash) && row.payouts[found.value].status == Submitted;
    forall i | 0 <= i < |row.payouts| && row.payouts[i].status == Failed ensures row.payouts[i].hash != Some(hash) {
      if i < found.value { assert row.payouts[i].hash.Some? ==> row.payouts[i].hash != row.payouts[found.value].hash; }
    }
  }

  // A row changes only by a request for it.
  lemma OwnRequest(w: World, a: Action, id: IntentId)
    requires LedgerOk(w.db) && id in w.db.rows && !(id in Next(w, a).db.rows && Next(w, a).db.rows[id] == w.db.rows[id])
    ensures Commits(w, a) && RequestOf(w, a).id == id && Next(w, a).db == Call(w.db, id, RequestOf(w, a).rpc).db
    ensures !RequestOf(w, a).rpc.CreateIntent?
  {
    DbStep(w, a);
    if Commits(w, a) && RequestOf(w, a).id != id { OtherRow(w.db, RequestOf(w, a).id, RequestOf(w, a).rpc, id); }
  }

  // A confirmation is made by a process that holds what the chain shows.
  lemma ConfirmationIsVerified(w: World, a: Action)
    requires Sound(w) && RequestOf(w, a).Request? && RequestOf(w, a).rpc.ConfirmPayout?
    ensures var (id, rpc) := (RequestOf(w, a).id, RequestOf(w, a).rpc);
            && id in w.db.rows && id in w.chain
            && rpc == ConfirmPayout(w.chain[id].evidence.hash, w.chain[id].evidence.place, w.chain[id].evidence.accounting)
            && w.chain[id].recipient == w.db.rows[id].recipient && w.chain[id].amount == w.db.rows[id].amount
  {
    assert PhaseOk(w, PhaseOf(w, a.pid));
  }

  // The request that settles an intent is a confirmation of what the chain shows.
  lemma SettlingRequest(w: World, a: Action, id: IntentId)
    requires Safe(w) && Unsettled(w, id) && Settled(Next(w, a), id)
    ensures Commits(w, a) && RequestOf(w, a).id == id
    ensures var e := w.chain[id].evidence; RequestOf(w, a).rpc == ConfirmPayout(e.hash, e.place, e.accounting)
    ensures w.chain[id].recipient == w.db.rows[id].recipient && w.chain[id].amount == w.db.rows[id].amount
  {
    OwnRequest(w, a, id);
    OnlyConfirmPays(w.db, id, RequestOf(w, a).rpc);
    ConfirmationIsVerified(w, a);
  }

  lemma OtherRow(db: Db, target: IntentId, rpc: RewardSettlement.Rpc, id: IntentId)
    requires LedgerOk(db) && target != id && id in db.rows && Call(db, target, rpc).Committed?
    ensures id in Call(db, target, rpc).db.rows && Call(db, target, rpc).db.rows[id] == db.rows[id]
  {
    if !rpc.CreateIntent? { RowEffect(db, target, rpc); }
  }

  lemma SettlingMeansCanSettle(w: World, a: Action, id: IntentId)
    requires Safe(w) && Unsettled(w, id) && Settled(Next(w, a), id)
    ensures CanSettle(w, id)
  {
    var e := w.chain[id].evidence;
    SettlingRequest(w, a, id);
    ConfirmRequires(w.db, id, e.hash, e.place, e.accounting);
    FirmIsCovered(w);
  }

  // ---------------------------------------------------------------- what never comes back

  // How the database moves, as far as the fate of an intent depends on it.
  ghost predicate Moves(db: Db, db': Db) {
    && db'.total >= db.total && db'.paid >= db.paid && db'.withdrawn == db.withdrawn
    && AllHashes(db) <= AllHashes(db')
    && (forall id :: id in db.rows ==> id in db'.rows && RowMoves(db.rows[id], db'.rows[id], AllHashes(db)))
  }

  ghost predicate RowMoves(row: Row, row': Row, hashes: set<Hash>) {
    && RowExtends(row, row')
    && (Payable(row.status) ==> Payable(row'.status) || row'.status == PaidOut)
    && (forall h :: h in Hashes(row'.payouts) && h !in Hashes(row.payouts) ==> h !in hashes)
  }

  lemma SameRowMoves(row: Row, hashes: set<Hash>)
    ensures RowMoves(row, row, hashes)
  {
  }

  lemma PayableMoves(db: Db, id: IntentId, rpc: RewardSettlement.Rpc)
    requires id in db.rows && RowOk(db.rows[id]) && !rpc.CreateIntent? && Call(db, id, rpc).Committed?
    ensures var db' := Call(db, id, rpc).db;
            id in db'.rows && (Payable(db.rows[id].status) ==> Payable(db'.rows[id].status) || db'.rows[id].status == PaidOut)
  {
  }

  lemma HashesOfSame(ops: seq<Op>, ops': seq<Op>)
    requires |ops'| >= |ops| && (forall i :: 0 <= i < |ops| ==> ops'[i].hash == ops[i].hash)
    requires forall i :: |ops| <= i < |ops'| ==> ops'[i].hash == None
    ensures Hashes(ops') <= Hashes(ops)
  {
  }

  lemma AttachedHash(row: Row, tx: TxId, hash: Hash, hashes: set<Hash>)
    requires AttachRow(row, tx, hash, hashes).Some?
    ensures Hashes(AttachRow(row, tx, hash, hashes).value.payouts) <= Hashes(row.payouts) + {hash} && hash !in hashes
  {
    var ops' := AttachRow(row, tx, hash, hashes).value.payouts;
    forall h | h in Hashes(ops') ensures h in Hashes(row.payouts) + {hash} {
      var i :| 0 <= i < |ops'| && ops'[i].hash == Some(h);
      assert h != hash ==> row.payouts[i].hash == Some(h);
    }
  }

  lemma ExternalHash(row: Row, hash: Hash, hashes: set<Hash>)
    requires ObserveExternalRow(row, hash, hashes).Some?
    ensures Hashes(ObserveExternalRow(row, hash, hashes).value.payouts) <= Hashes(row.payouts) + {hash}
    ensures hash in Hashes(row.payouts) || hash !in hashes
  {
    var ops' := ObserveExternalRow(row, hash, hashes).value.payouts;
    forall h | h in Hashes(ops') && h != hash ensures h in Hashes(row.payouts) {
      var i :| 0 <= i < |ops'| && ops'[i].hash == Some(h);
      assert i < |row.payouts| && row.payouts[i].hash == Some(h);
    }
  }

  lemma OthersAddNoHash(db: Db, id: IntentId, rpc: RewardSettlement.Rpc)
    requires id in db.rows && RowOk(db.rows[id]) && Call(db, id, rpc).Committed?
    requires !rpc.CreateIntent? && !rpc.AttachPayoutHash? && !rpc.ObserveExternalPayout?
    ensures id in Call(db, id, rpc).db.rows && Hashes(Call(db, id, rpc).db.rows[id].payouts) <= Hashes(db.rows[id].payouts)
  {
    HashesOfSame(db.rows[id].payouts, Call(db, id, rpc).db.rows[id].payouts);
  }

  lemma NewHashesAreFree(db: Db, id: IntentId, rpc: RewardSettlement.Rpc, h: Hash)
    requires id in db.rows && RowOk(db.rows[id]) && !rpc.CreateIntent? && Call(db, id, rpc).Committed?
    requires id in Call(db, id, rpc).db.rows && h in Hashes(Call(db, id, rpc).db.rows[id].payouts) && h !in Hashes(db.rows[id].payouts)
    ensures h !in AllHashes(db)
  {
    match rpc
    case AttachPayoutHash(tx, hash) => AttachedHash(db.rows[id], tx, hash, AllHashes(db));
    case ObserveExternalPayout(hash) => ExternalHash(db.rows[id], hash, AllHashes(db));
    case _ => OthersAddNoHash(db, id, rpc);
  }

  lemma HashesMove(ops: seq<Op>, ops': seq<Op>)
    requires OpsExtend(ops, ops')
    ensures Hashes(ops) <= Hashes(ops')
  {
    forall h | h in Hashes(ops) ensures h in Hashes(ops') {
      var i :| 0 <= i < |ops| && ops[i].hash == Some(h);
      assert ops'[i].hash == Some(h);
    }
  }

  lemma AllHashesMove(db: Db, db': Db)
    requires forall id :: id in db.rows ==>
               && id in db'.rows
               && OpsExtend(db.rows[id].payouts, db'.rows[id].payouts)
               && OpsExtend(db.rows[id].approvals, db'.rows[id].approvals)
    ensures AllHashes(db) <= AllHashes(db')
  {
    forall h | h in AllHashes(db) ensures h in AllHashes(db') {
      var id :| id in db.rows && h in Hashes(db.rows[id].approvals) + Hashes(db.rows[id].payouts);
      HashesMove(db.rows[id].approvals, db'.rows[id].approvals);
      HashesMove(db.rows[id].payouts, db'.rows[id].payouts);
      assert h in Hashes(db'.rows[id].approvals) + Hashes(db'.rows[id].payouts);
    }
  }

  lemma CalledRowMoves(db: Db, id: IntentId, rpc: RewardSettlement.Rpc)
    requires id in db.rows && RowOk(db.rows[id]) && !rpc.CreateIntent? && Call(db, id, rpc).Committed?
    ensures id in Call(db, id, rpc).db.rows && RowMoves(db.rows[id], Call(db, id, rpc).db.rows[id], AllHashes(db))
  {
    RowEffect(db, id, rpc);
    PayableMoves(db, id, rpc);
    forall h | h in Hashes(Call(db, id, rpc).db.rows[id].payouts) && h !in Hashes(db.rows[id].payouts) ensures h !in AllHashes(db) {
      NewHashesAreFree(db, id, rpc, h);
    }
  }

  lemma RowsMove(db: Db, id: IntentId, rpc: RewardSettlement.Rpc)
    requires LedgerOk(db) && Call(db, id, rpc).Committed?
    ensures forall other :: other in db.rows ==>
              other in Call(db, id, rpc).db.rows && RowMoves(db.rows[other], Call(db, id, rpc).db.rows[other], AllHashes(db))
  {
    forall other | other in db.rows
      ensures other in Call(db, id, rpc).db.rows && RowMoves(db.rows[other], Call(db, id, rpc).db.rows[other], AllHashes(db))
    {
      if other == id {
        CalledRowMoves(db, id, rpc);
      } else {
        OtherRow(db, id, rpc, other);
        SameRowMoves(db.rows[other], AllHashes(db));
      }
    }
  }

  lemma PoolsMove(db: Db, id: IntentId, rpc: RewardSettlement.Rpc)
    requires LedgerOk(db) && Call(db, id, rpc).Committed?
    ensures var db' := Call(db, id, rpc).db; db'.total == db.total && db'.paid >= db.paid && db'.withdrawn == db.withdrawn
  {
    if !rpc.CreateIntent? {
      RowEffect(db, id, rpc);
      PoolEffect(db, id, rpc);
    }
  }

  lemma CallMoves(db: Db, id: IntentId, rpc: RewardSettlement.Rpc)
    requires LedgerOk(db) && Call(db, id, rpc).Committed?
    ensures Moves(db, Call(db, id, rpc).db)
  {
    var db' := Call(db, id, rpc).db;
    RowsMove(db, id, rpc);
    PoolsMove(db, id, rpc);
    assert forall other :: other in db.rows ==> RowMoves(db.rows[other], db'.rows[other], AllHashes(db));
    AllHashesMove(db, db');
  }

  lemma SameRowsMove(db: Db, db': Db)
    requires db'.rows == db.rows && db'.total >= db.total && db'.paid == db.paid && db'.withdrawn == db.withdrawn
    ensures Moves(db, db')
  {
    forall id | id in db.rows ensures RowMoves(db.rows[id], db'.rows[id], AllHashes(db)) { SameRowMoves(db.rows[id], AllHashes(db)); }
    assert AllHashes(db') == AllHashes(db);
  }

  lemma StepMoves(w: World, a: Action)
    requires LedgerOk(w.db)
    ensures Moves(w.db, Next(w, a).db)
  {
    DbStep(w, a);
    if Commits(w, a) { CallMoves(w.db, RequestOf(w, a).id, RequestOf(w, a).rpc); } else { SameRowsMove(w.db, Next(w, a).db); }
  }

  lemma ChainStays(w: World, a: Action, id: IntentId)
    requires id in w.chain
    ensures id in Next(w, a).chain && Next(w, a).chain[id] == w.chain[id]
  {
  }

  // A process comes to cancel an intent only when it finds no approval.
  lemma BlockNeverCancels(w: World, section: Section, id: IntentId, row: Row, answer: Answer)
    ensures !Block(w, section, id, row, answer).ToCancel?
  {
  }

  lemma LocalNeverCancels(w: World, pid: Pid, answer: Answer)
    requires PendingCall(PhaseOf(w, pid)).None?
    ensures !PhaseOf(LocalStep(w, pid, answer), pid).ToCancel?
  {
    var p := PhaseOf(w, pid);
    if p.At? { BlockNeverCancels(w, p.section, p.id, p.row, answer); }
  }

  lemma ComesToCancel(w: World, a: Action, pid: Pid, id: IntentId)
    requires PhaseOf(Next(w, a), pid) == ToCancel(id) && PhaseOf(w, pid) != ToCancel(id)
    ensures id !in w.approved
  {
    if a.Resume? && PendingCall(PhaseOf(w, a.pid)).None? { LocalNeverCancels(w, a.pid, a.answer); }
  }

  lemma ApprovalStays(w: World, a: Action, id: IntentId)
    requires id in w.approved
    ensures id in Next(w, a).approved
  {
  }

  lemma NoLaterCancel(w: World, a: Action, id: IntentId)
    requires !MayCancel(w, id)
    ensures !MayCancel(Next(w, a), id)
  {
    var w' := Next(w, a);
    ApprovalStays(w, a, id);
    forall pid | pid in w'.procs ensures w'.procs[pid] != ToCancel(id) {
      if PhaseOf(w', pid) == ToCancel(id) {
        assert PhaseOf(w, pid) != ToCancel(id);
        ComesToCancel(w, a, pid, id);
      }
    }
  }

  lemma OnlyCancelFails(db: Db, id: IntentId, rpc: RewardSettlement.Rpc)
    requires id in db.rows && RowOk(db.rows[id]) && Soft(db.rows[id].status) && !rpc.CreateIntent? && !rpc.CancelIntent?
    requires Call(db, id, rpc).Committed?
    ensures id in Call(db, id, rpc).db.rows && Call(db, id, rpc).db.rows[id].status != FailedIntent
  {
  }

  lemma OnlyProcessesCancel(w: World, a: Action, id: IntentId)
    requires RequestOf(w, a) == Request(id, CancelIntent)
    ensures MayCancel(w, id)
  {
    assert PhaseOf(w, a.pid) == ToCancel(id);
  }

  lemma UncancellableStays(w: World, a: Action, id: IntentId)
    requires LedgerOk(w.db) && id in w.db.rows && Soft(w.db.rows[id].status) && !MayCancel(w, id)
    ensures id in Next(w, a).db.rows && Next(w, a).db.rows[id].status != FailedIntent
  {
    if !(id in Next(w, a).db.rows && Next(w, a).db.rows[id] == w.db.rows[id]) {
      OwnRequest(w, a, id);
      if RequestOf(w, a).rpc.CancelIntent? { OnlyProcessesCancel(w, a, id); }
      OnlyCancelFails(w.db, id, RequestOf(w, a).rpc);
    }
  }

  lemma PayableStays(w: World, a: Action, id: IntentId)
    requires LedgerOk(w.db) && id in w.db.rows && (Payable(w.db.rows[id].status) || w.db.rows[id].status == PaidOut)
    ensures id in Next(w, a).db.rows && (Payable(Next(w, a).db.rows[id].status) || Next(w, a).db.rows[id].status == PaidOut)
  {
    StepMoves(w, a);
    assert RowMoves(w.db.rows[id], Next(w, a).db.rows[id], AllHashes(w.db));
  }

  lemma FirmStays(w: World, a: Action, id: IntentId)
    requires LedgerOk(w.db) && id in FirmIds(w)
    ensures id in FirmIds(Next(w, a))
  {
    if Soft(w.db.rows[id].status) {
      NoLaterCancel(w, a, id);
      UncancellableStays(w, a, id);
    } else {
      PayableStays(w, a, id);
    }
  }

  lemma FirmGrows(w: World, a: Action)
    requires LedgerOk(w.db)
    ensures Firm(w) <= Firm(Next(w, a))
  {
    var w' := Next(w, a);
    StepMoves(w, a);
    forall id | id in FirmIds(w) ensures id in FirmIds(w') && w'.db.rows[id].amount == w.db.rows[id].amount {
      FirmStays(w, a, id);
      assert RowMoves(w.db.rows[id], w'.db.rows[id], AllHashes(w.db));
    }
    SumCongruence(FirmIds(w), AmountOf(w.db.rows), AmountOf(w'.db.rows));
    SumSubset(FirmIds(w), FirmIds(w'), AmountOf(w'.db.rows));
  }

  lemma FailureStays(row: Row, row': Row, hash: Hash)
    requires RowExtends(row, row') && FailedWithHash(row, hash)
    ensures FailedWithHash(row', hash)
  {
    var i :| 0 <= i < |row.payouts| && row.payouts[i].status == Failed && row.payouts[i].hash == Some(hash);
    assert row'.payouts[i] == row.payouts[i];
  }

  // Whoever can settle later could settle before.
  lemma CouldSettle(w: World, w': World, id: IntentId)
    requires Moves(w.db, w'.db) && Firm(w) <= Firm(w')
    requires id in w.db.rows && id in w.chain && id in w'.chain && w'.chain[id] == w.chain[id] && id in w'.db.rows
    requires CanSettle(w', id)
    ensures CanSettle(w, id)
  {
    var hash := w.chain[id].evidence.hash;
    assert RowMoves(w.db.rows[id], w'.db.rows[id], AllHashes(w.db));
    if FailedWithHash(w.db.rows[id], hash) { FailureStays(w.db.rows[id], w'.db.rows[id], hash); }
  }

  lemma StepKeepsStuck(w: World, a: Action, id: IntentId)
    requires Safe(w) && Unsettled(w, id) && !CanSettle(w, id)
    ensures Unsettled(Next(w, a), id) && !CanSettle(Next(w, a), id)
  {
    var w' := Next(w, a);
    StepMoves(w, a);
    ChainStays(w, a, id);
    FirmGrows(w, a);
    assert RowMoves(w.db.rows[id], w'.db.rows[id], AllHashes(w.db));
    if Settled(w', id) { SettlingMeansCanSettle(w, a, id); }
    if CanSettle(w', id) { CouldSettle(w, w', id); }
  }

  lemma {:induction false} RunKeepsSafe(w: World, more: seq<Action>)
    requires Safe(w)
    ensures Safe(RunAll(w, more))
  {
    if more != [] {
      RunKeepsSafe(w, more[..|more| - 1]);
      NextKeepsSafe(RunAll(w, more[..|more| - 1]), more[|more| - 1]);
    }
  }

  /** Once the condition fails the payout stays unsettled for ever, although the researcher has been paid:
      no sequence of reconciliations, retries, deposits or owner calls reaches `paid`. */
  lemma {:induction false} StrandedForever(w: World, more: seq<Action>, id: IntentId)
    requires Safe(w) && Unsettled(w, id) && !CanSettle(w, id)
    ensures Unsettled(RunAll(w, more), id) && !CanSettle(RunAll(w, more), id)
  {
    if more != [] {
      StrandedForever(w, more[..|more| - 1], id);
      RunKeepsSafe(w, more[..|more| - 1]);
      StepKeepsStuck(RunAll(w, more[..|more| - 1]), more[|more| - 1], id);
    }
  }
}
