/** The settlement procedures seen from a good row, where only the newest attempt of a kind can be open: when each
    commits, what it does, and what calling it again does. Their queries search all attempts; here nothing is searched. */
module SettlementProcedures {
  import opened Options
  import opened RewardSettlement

  predicate LastStands(ops: seq<Op>, status: OpStatus) {
    Last(ops).Some? && Last(ops).value.status == status
  }

  // No attempt is open.
  predicate Closed(ops: seq<Op>) {
    ops == [] || Last(ops).value.status == Failed
  }

  predicate IsOpen(ops: seq<Op>) {
    LastStands(ops, SubmissionUncertain) || LastStands(ops, ProviderAccepted) || LastStands(ops, Submitted)
  }

  // The newest attempt replaced.
  function Renewed(ops: seq<Op>, op: Op): seq<Op>
    requires ops != []
  {
    ops[..|ops| - 1] + [op]
  }

  lemma RenewedIs(ops: seq<Op>, op: Op)
    requires ops != []
    ensures ops[|ops| - 1 := op] == Renewed(ops, op)
  {
  }

  // Only the newest attempt can be the one a query for such attempts finds.
  lemma FindsLast(ops: seq<Op>, p: Op -> bool)
    requires OnlyLastOpen(ops) && forall op :: p(op) ==> op.status != Failed
    ensures LastWhere(ops, p) == if ops != [] && p(ops[|ops| - 1]) then Some(|ops| - 1) else None
  {
    var r := LastWhere(ops, p);
    if r.Some? { assert ops[r.value].status != Failed; }
  }

  function Changed(db: Db, id: IntentId, row: Row): Result {
    Committed(db.(rows := db.rows[id := row]))
  }

  // ---------------------------------------------------------------- approvals

  // The reported transaction is that of the newest attempt, or opens one.
  predicate CanReport(db: Db, row: Row, hash: Hash) {
    if row.status == AwaitingApproval then hash !in AllHashes(db)
    else row.status != FailedIntent && Last(row.approvals).Some? && Last(row.approvals).value.hash == Some(hash)
  }

  function ReportedRow(row: Row, hash: Hash): Row {
    if row.status != AwaitingApproval then row
    else if LastStands(row.approvals, SubmissionUncertain)
    then row.(approvals := Renewed(row.approvals, Last(row.approvals).value.(status := Submitted, hash := Some(hash))), status := ApprovalSubmitted)
    else row.(approvals := row.approvals + [Op(Submitted, None, None, Some(hash), None)], status := ApprovalSubmitted)
  }

  lemma AwaitingReports(row: Row, hash: Hash, hashes: set<Hash>)
    requires RowOk(row) && row.status == AwaitingApproval
    ensures ObserveApprovalRow(row, true, Some(hash), hashes) == if hash in hashes then None else Some(ReportedRow(row, hash))
  {
    var ops := row.approvals;
    FindsLast(ops, (op: Op) => op.status == SubmissionUncertain);
    FindsLast(ops, Active);
    if ops != [] { RenewedIs(ops, ops[|ops| - 1].(status := Submitted, hash := Some(hash))); }
  }

  lemma LaterReports(row: Row, hash: Hash, hashes: set<Hash>)
    requires RowOk(row) && row.status != AwaitingApproval
    ensures ObserveApprovalRow(row, true, Some(hash), hashes)
            == if row.status != FailedIntent && Last(row.approvals).Some? && Last(row.approvals).value.hash == Some(hash) then Some(row) else None
  {
    FindsLast(row.approvals, (op: Op) => op.hash == Some(hash) && op.status in {Submitted, Confirmed});
  }

  /** Reporting an approval transaction: while the intent waits for one, any transaction nobody has becomes that of the
      newest attempt, or of a new one; later only the same transaction again, to no effect. */
  lemma ReportApprovalIs(db: Db, id: IntentId, hash: Hash)
    requires id in db.rows && RowOk(db.rows[id])
    ensures Call(db, id, ObserveApproval(true, Some(hash)))
            == if CanReport(db, db.rows[id], hash) then Changed(db, id, ReportedRow(db.rows[id], hash)) else Rejected
  {
    if db.rows[id].status == AwaitingApproval {
      AwaitingReports(db.rows[id], hash, AllHashes(db));
    } else {
      LaterReports(db.rows[id], hash, AllHashes(db));
    }
  }

  /** Reporting that a signature was asked for: only while no attempt is open, and it opens one. */
  lemma ReportUncertainIs(db: Db, id: IntentId)
    requires id in db.rows && RowOk(db.rows[id])
    ensures var row := db.rows[id];
            Call(db, id, ObserveApproval(false, None))
            == if row.status == AwaitingApproval && Closed(row.approvals)
               then Changed(db, id, row.(approvals := row.approvals + [Op(SubmissionUncertain, None, None, None, None)])) else Rejected
    ensures forall hash :: Call(db, id, ObserveApproval(false, Some(hash))).Rejected?
    ensures Call(db, id, ObserveApproval(true, None)).Rejected?
  {
    FindsLast(db.rows[id].approvals, Active);
  }

  /** An approval is confirmed exactly while its transaction is that of the newest attempt; again, at the same place, it
      has no effect. */
  lemma ConfirmApprovalIs(db: Db, id: IntentId, hash: Hash, place: nat)
    requires id in db.rows && RowOk(db.rows[id])
    ensures var (row, last) := (db.rows[id], Last(db.rows[id].approvals));
            Call(db, id, ConfirmApproval(hash, place))
            == if last.None? || last.value.hash != Some(hash) then Rejected
               else if row.status == ApprovalSubmitted
               then Changed(db, id, row.(approvals := Renewed(row.approvals, last.value.(status := Confirmed, place := Some(place))),
                                         report := RewardApproved, status := ReadyForPayout))
               else if (Payable(row.status) || row.status == PaidOut) && last.value.place == Some(place) then Committed(db) else Rejected
  {
    var row := db.rows[id];
    FindsLast(row.approvals, (op: Op) => op.status == Confirmed);
    FindsLast(row.approvals, (op: Op) => op.hash == Some(hash) && op.status == Submitted);
    if row.approvals != [] { RenewedIs(row.approvals, Last(row.approvals).value.(status := Confirmed, place := Some(place))); }
    assert db.rows[id := row] == db.rows;
  }

  lemma CancelsRow(row: Row)
    requires RowOk(row)
    ensures CancelRow(row) == if row.status == AwaitingApproval && Closed(row.approvals) then Some(row.(status := FailedIntent)) else None
  {
    if row.status == AwaitingApproval {
      assert row.approvals + row.payouts == row.approvals;
      FindsLast(row.approvals, (op: Op) => op.status != Failed);
    }
  }

  /** Cancelling: only while no approval is open. */
  lemma CancelIs(db: Db, id: IntentId)
    requires id in db.rows && RowOk(db.rows[id]) && (Live(db.rows[id].status) ==> db.rows[id].amount <= db.reserved)
    ensures var row := db.rows[id];
            Call(db, id, CancelIntent)
            == if row.status == AwaitingApproval && Closed(row.approvals)
               then Committed(db.(rows := db.rows[id := row.(status := FailedIntent)], reserved := db.reserved - row.amount)) else Rejected
  {
    CancelsRow(db.rows[id]);
  }

  // ---------------------------------------------------------------- failures

  /** A failure is recorded exactly for an open newest attempt; the intent waits for its approval again, or is ready to
      be paid again. */
  lemma FailIs(db: Db, id: IntentId, payout: bool)
    requires id in db.rows && RowOk(db.rows[id])
    ensures var row := db.rows[id];
            var ops := if payout then row.payouts else row.approvals;
            Call(db, id, FailOperation(payout))
            == if !IsOpen(ops) then Rejected
               else if payout then Changed(db, id, row.(payouts := Renewed(ops, Last(ops).value.(status := Failed)), status := ReadyForPayout, report := RewardApproved))
               else Changed(db, id, row.(approvals := Renewed(ops, Last(ops).value.(status := Failed)), status := AwaitingApproval))
  {
    var row := db.rows[id];
    var ops := if payout then row.payouts else row.approvals;
    FindsLast(ops, Active);
    if ops != [] { RenewedIs(ops, Last(ops).value.(status := Failed)); }
  }

  // ---------------------------------------------------------------- payouts

  /** A key is prepared exactly while the intent is ready and no attempt is open; one it has already has no effect. */
  lemma PrepareIs(db: Db, id: IntentId, key: Key)
    requires id in db.rows && RowOk(db.rows[id])
    ensures var row := db.rows[id];
            Call(db, id, PreparePayout(key))
            == if key in Keys(row.payouts) then Committed(db)
               else if row.status == ReadyForPayout && Closed(row.payouts)
               then Changed(db, id, row.(payouts := row.payouts + [Op(SubmissionUncertain, Some(key), None, None, None)])) else Rejected
  {
    var row := db.rows[id];
    var found := LastWhere(row.payouts, (op: Op) => op.key == Some(key));
    if key in Keys(row.payouts) {
      var i :| 0 <= i < |row.payouts| && row.payouts[i].key == Some(key);
      assert found.Some?;
    } else {
      assert forall i :: 0 <= i < |row.payouts| ==> row.payouts[i].key != Some(key);
    }
    FindsLast(row.payouts, Active);
    assert db.rows[id := row] == db.rows;
  }

  /** The provider's transaction is accepted exactly for the key that was prepared last, and only if nobody has it. */
  lemma AcceptIs(db: Db, id: IntentId, key: Key, tx: TxId)
    requires id in db.rows && RowOk(db.rows[id])
    ensures var (row, last) := (db.rows[id], Last(db.rows[id].payouts));
            Call(db, id, AcceptPayout(key, tx))
            == if row.status == ReadyForPayout && last.Some? && last.value.status == SubmissionUncertain && last.value.key == Some(key) && tx !in AllTxs(db)
               then Changed(db, id, row.(payouts := Renewed(row.payouts, last.value.(status := ProviderAccepted, tx := Some(tx))),
                                         status := PayoutSubmitted, report := PaymentPending)) else Rejected
  {
    var row := db.rows[id];
    FindsLast(row.payouts, (op: Op) => op.key == Some(key) && op.status == SubmissionUncertain);
    if row.payouts != [] { RenewedIs(row.payouts, Last(row.payouts).value.(status := ProviderAccepted, tx := Some(tx))); }
  }

  /** A hash is attached exactly to the newest attempt, for the transaction it was accepted with, and only if nobody has
      the hash. */
  lemma AttachIs(db: Db, id: IntentId, tx: TxId, hash: Hash)
    requires id in db.rows && RowOk(db.rows[id])
    ensures var (row, last) := (db.rows[id], Last(db.rows[id].payouts));
            Call(db, id, AttachPayoutHash(tx, hash))
            == if last.Some? && last.value.status == ProviderAccepted && last.value.tx == Some(tx) && hash !in AllHashes(db)
               then Changed(db, id, row.(payouts := Renewed(row.payouts, last.value.(status := Submitted, hash := Some(hash))))) else Rejected
  {
    var row := db.rows[id];
    FindsLast(row.payouts, (op: Op) => op.tx == Some(tx) && op.status == ProviderAccepted);
    if row.payouts != [] { RenewedIs(row.payouts, Last(row.payouts).value.(status := Submitted, hash := Some(hash))); }
  }

  // All attempts closed, and this transaction as the newest one.
  function ExternalRow(row: Row, hash: Hash): Row {
    var before := if IsOpen(row.payouts) then Renewed(row.payouts, Last(row.payouts).value.(status := Failed)) else row.payouts;
    row.(payouts := before + [Op(Submitted, None, None, Some(hash), None)], status := PayoutSubmitted, report := PaymentPending)
  }

  lemma FailActiveIs(ops: seq<Op>)
    requires OnlyLastOpen(ops) && (ops != [] ==> ops[|ops| - 1].status != Confirmed)
    ensures FailActive(ops) == if IsOpen(ops) then Renewed(ops, Last(ops).value.(status := Failed)) else ops
  {
    var failed := FailActive(ops);
    forall i | 0 <= i < |ops| - 1 ensures failed[i] == ops[i] { assert ops[i].status == Failed; }
  }

  /** A payout found on chain is recorded exactly while the intent can be paid and nobody has its transaction; it closes
      an open attempt. One the intent knows, closed or not, has no effect. */
  lemma ObserveExternalIs(db: Db, id: IntentId, hash: Hash)
    requires id in db.rows && RowOk(db.rows[id])
    ensures var row := db.rows[id];
            Call(db, id, ObserveExternalPayout(hash))
            == if hash in Hashes(row.payouts) then Committed(db)
               else if Payable(row.status) && hash !in AllHashes(db) then Changed(db, id, ExternalRow(row, hash)) else Rejected
  {
    var row := db.rows[id];
    assert db.rows[id := row] == db.rows;
    if Payable(row.status) { FailActiveIs(row.payouts); }
  }

  // The counters add up, and the escrow can pay what it owes.
  predicate Adds(a: Accounting) {
    a.funded == a.balance + a.paid + a.withdrawn && a.outstanding <= a.balance
  }

  // The pools are where the counters say they are, with this payout made and no later one booked.
  predicate InStep(db: Db, amount: nat, a: Accounting) {
    && db.total == a.funded && db.withdrawn == a.withdrawn && db.reserved + db.paid == a.paid + a.outstanding
    && db.paid + amount <= a.paid && amount <= db.reserved
  }

  lemma CountersAre(db: Db, amount: nat, a: Accounting)
    ensures SnapshotValid(a) <==> Adds(a)
    ensures MatchesProjection(db, amount, a) <==> InStep(db, amount, a)
  {
  }

  lemma ConfirmsRow(row: Row, hash: Hash, place: nat)
    requires RowOk(row)
    ensures var last := Last(row.payouts);
            ConfirmPayoutRow(row, hash, place)
            == if row.status == PayoutSubmitted && last.value.status == Submitted && last.value.hash == Some(hash)
               then Some(row.(payouts := Renewed(row.payouts, last.value.(status := Confirmed, place := Some(place))), status := PaidOut, report := ReportPaid))
               else None
  {
    FindsLast(row.payouts, (op: Op) => op.hash == Some(hash) && op.status == Submitted);
    if row.payouts != [] { RenewedIs(row.payouts, Last(row.payouts).value.(status := Confirmed, place := Some(place))); }
  }

  /** A payout is confirmed exactly if the counters are consistent and it is the newest attempt's transaction: that of a
      submitted one, with the pools as the counters say, or, to no effect, the paid one's at the same place. */
  lemma ConfirmPayoutIs(db: Db, id: IntentId, hash: Hash, place: nat, a: Accounting)
    requires id in db.rows && RowOk(db.rows[id])
    ensures var (row, last) := (db.rows[id], Last(db.rows[id].payouts));
            Call(db, id, ConfirmPayout(hash, place, a))
            == if !Adds(a) || last.None? || last.value.hash != Some(hash) then Rejected
               else if row.status == PaidOut then (if last.value.place == Some(place) then Committed(db) else Rejected)
               else if row.status == PayoutSubmitted && last.value.status == Submitted && InStep(db, row.amount, a)
               then Committed(db.(rows := db.rows[id := row.(payouts := Renewed(row.payouts, last.value.(status := Confirmed, place := Some(place))),
                                                             status := PaidOut, report := ReportPaid)],
                                  reserved := db.reserved - row.amount, paid := db.paid + row.amount))
               else Rejected
  {
    var row := db.rows[id];
    FindsLast(row.payouts, (op: Op) => op.status == Confirmed);
    ConfirmsRow(row, hash, place);
    CountersAre(db, row.amount, a);
  }

  /** An intent is opened exactly once, for a positive amount that the pool still covers; it waits for its approval. */
  lemma CreateIs(db: Db, id: IntentId, amount: nat, recipient: nat)
    ensures Call(db, id, CreateIntent(amount, recipient))
            == if id !in db.rows && amount > 0 && db.reserved + db.paid + db.withdrawn + amount <= db.total
               then Committed(db.(rows := db.rows[id := Row(amount, recipient, AwaitingApproval, [], [], Validated)], reserved := db.reserved + amount))
               else Rejected
  {
  }

  // ---------------------------------------------------------------- again

  // The calls a caller may repeat when it did not hear the answer.
  predicate Repeatable(rpc: Rpc) {
    match rpc
    case ObserveApproval(submitted, _) => submitted
    case ConfirmApproval(_, _) => true
    case PreparePayout(_) => true
    case ObserveExternalPayout(_) => true
    case ConfirmPayout(_, _, _) => true
    case _ => false
  }

  lemma RepeatApproval(db: Db, db': Db, id: IntentId, rpc: Rpc)
    requires id in db.rows && RowOk(db.rows[id]) && Call(db, id, rpc) == Committed(db') && (rpc.ObserveApproval? || rpc.ConfirmApproval?)
    ensures Call(db', id, rpc) == if Repeatable(rpc) then Committed(db') else Rejected
  {
    RowEffect(db, id, rpc);
    var row' := db'.rows[id];
    assert db'.rows[id := row'] == db'.rows;
    match rpc
    case ObserveApproval(submitted, hash) =>
      ReportUncertainIs(db, id);
      ReportUncertainIs(db', id);
      if submitted {
        ReportApprovalIs(db, id, hash.value);
        ReportApprovalIs(db', id, hash.value);
      }
    case ConfirmApproval(hash, place) =>
      ConfirmApprovalIs(db, id, hash, place);
      ConfirmApprovalIs(db', id, hash, place);
  }

  lemma RepeatPayout(db: Db, db': Db, id: IntentId, rpc: Rpc)
    requires id in db.rows && RowOk(db.rows[id]) && Call(db, id, rpc) == Committed(db')
    requires rpc.PreparePayout? || rpc.AcceptPayout? || rpc.AttachPayoutHash?
    ensures Call(db', id, rpc) == if Repeatable(rpc) then Committed(db') else Rejected
  {
    RowEffect(db, id, rpc);
    match rpc
    case PreparePayout(key) =>
      PrepareIs(db', id, key);
      PrepareRowStep(db.rows[id], key);
    case AcceptPayout(key, tx) =>
      AcceptIs(db, id, key, tx);
      AcceptIs(db', id, key, tx);
    case AttachPayoutHash(tx, hash) =>
      AttachIs(db, id, tx, hash);
      AttachIs(db', id, tx, hash);
  }

  lemma RepeatExternal(db: Db, db': Db, id: IntentId, hash: Hash)
    requires id in db.rows && RowOk(db.rows[id]) && Call(db, id, ObserveExternalPayout(hash)) == Committed(db')
    ensures Call(db', id, ObserveExternalPayout(hash)) == Committed(db')
  {
    RowEffect(db, id, ObserveExternalPayout(hash));
    ObserveExternalIs(db', id, hash);
    ObserveExternalRowStep(db.rows[id], hash, AllHashes(db));
  }

  lemma RepeatConfirmation(db: Db, db': Db, id: IntentId, hash: Hash, place: nat, a: Accounting)
    requires id in db.rows && RowOk(db.rows[id]) && Call(db, id, ConfirmPayout(hash, place, a)) == Committed(db')
    ensures Call(db', id, ConfirmPayout(hash, place, a)) == Committed(db')
  {
    RowEffect(db, id, ConfirmPayout(hash, place, a));
    ConfirmPayoutIs(db, id, hash, place, a);
    ConfirmPayoutIs(db', id, hash, place, a);
  }

  lemma RepeatFailure(db: Db, db': Db, id: IntentId, payout: bool)
    requires id in db.rows && RowOk(db.rows[id]) && Call(db, id, FailOperation(payout)) == Committed(db')
    ensures Call(db', id, FailOperation(payout)).Rejected?
  {
    RowEffect(db, id, FailOperation(payout));
    FailIs(db, id, payout);
    FailIs(db', id, payout);
  }

  lemma RepeatCancel(db: Db, db': Db, id: IntentId)
    requires id in db.rows && Call(db, id, CancelIntent) == Committed(db')
    ensures Call(db', id, CancelIntent).Rejected?
  {
  }

  /** A procedure that has committed, called again with the same arguments: reporting, confirming and preparing change
      nothing more; every other one is refused. */
  lemma CallTwiceIsOnce(db: Db, id: IntentId, rpc: Rpc)
    requires LedgerOk(db) && Call(db, id, rpc).Committed?
    ensures var db' := Call(db, id, rpc).db;
            Call(db', id, rpc) == if Repeatable(rpc) then Committed(db') else Rejected
  {
    var db' := Call(db, id, rpc).db;
    match rpc
    case CreateIntent(_, _) =>
    case ObserveApproval(_, _) => RepeatApproval(db, db', id, rpc);
    case ConfirmApproval(_, _) => RepeatApproval(db, db', id, rpc);
    case FailOperation(payout) => RepeatFailure(db, db', id, payout);
    case CancelIntent => RepeatCancel(db, db', id);
    case ObserveExternalPayout(hash) => RepeatExternal(db, db', id, hash);
    case ConfirmPayout(hash, place, a) => RepeatConfirmation(db, db', id, hash, place, a);
    case _ => RepeatPayout(db, db', id, rpc);
  }
}
