/** The continuation that settles a payout whenever one can: cancel every intent that can be cancelled, bring the
    pools to what the payout's block accounts for, and reconcile once. */
module SettlementRecovery {
  import opened Numbers
  import opened Options
  import opened Sums
  import opened RewardSettlement
  import opened SettlementDrivers
  import opened SettlementRuns
  import opened SettlementFate

  // ---------------------------------------------------------------- withdrawing one intent

  // The intents that some continuation cancels.
  function LooseIds(w: World): set<IntentId> {
    set id | id in w.db.rows && Soft(w.db.rows[id].status) && MayCancel(w, id)
  }

  // Its approval submitted, with the given hash if none was reported yet.
  function Reported(row: Row, hash: Hash): Row {
    if row.status == ApprovalSubmitted then row
    else
      var uncertain := LastWhere(row.approvals, (op: Op) => op.status == SubmissionUncertain);
      if uncertain.Some?
      then row.(approvals := row.approvals[uncertain.value := row.approvals[uncertain.value].(status := Submitted, hash := Some(hash))],
                status := ApprovalSubmitted)
      else row.(approvals := row.approvals + [Op(Submitted, None, None, Some(hash), None)], status := ApprovalSubmitted)
  }

  lemma ReportedFacts(row: Row, hash: Hash)
    requires RowOk(row) && Soft(row.status)
    ensures var r := Reported(row, hash);
            && RowOk(r) && r.status == ApprovalSubmitted && r.amount == row.amount && r.payouts == [] && r.recipient == row.recipient
            && Last(r.approvals).Some? && Last(r.approvals).value.status == Submitted && Last(r.approvals).value.hash.Some?
            && (row.status == AwaitingApproval ==> Last(r.approvals).value.hash == Some(hash))
  {
    if row.status == AwaitingApproval {
      var uncertain := LastWhere(row.approvals, (op: Op) => op.status == SubmissionUncertain);
      if uncertain.Some? { SubmitUncertain(row, uncertain.value, hash); } else { NoneActive(row.approvals); AppendApproval(row, Some(hash)); }
    }
  }

  lemma NoneActive(ops: seq<Op>)
    requires OnlyLastOpen(ops) && (ops == [] || LastIs(ops, {Failed, SubmissionUncertain}))
    requires LastWhere(ops, (op: Op) => op.status == SubmissionUncertain).None?
    ensures LastWhere(ops, Active).None?
  {
  }

  lemma ReportedHashes(row: Row, hash: Hash)
    ensures Hashes(Reported(row, hash).approvals) <= Hashes(row.approvals) + {hash}
  {
    var ops' := Reported(row, hash).approvals;
    forall h | h in Hashes(ops') && h != hash ensures h in Hashes(row.approvals) {
      var i :| 0 <= i < |ops'| && ops'[i].hash == Some(h);
      assert i < |row.approvals| && row.approvals[i].hash == Some(h);
    }
  }

  lemma ReportCommits(db: Db, id: IntentId, hash: Hash)
    requires id in db.rows && RowOk(db.rows[id]) && db.rows[id].status == AwaitingApproval && hash !in AllHashes(db)
    ensures Call(db, id, ObserveApproval(true, Some(hash))) == Committed(db.(rows := db.rows[id := Reported(db.rows[id], hash)]))
  {
    var row := db.rows[id];
    if LastWhere(row.approvals, (op: Op) => op.status == SubmissionUncertain).None? { NoneActive(row.approvals); }
  }

  // Its approval recorded failed, and the intent cancelled.
  function Refused(row: Row): Row
    requires row.approvals != []
  {
    var n := |row.approvals| - 1;
    row.(approvals := row.approvals[n := row.approvals[n].(status := Failed)], status := AwaitingApproval)
  }

  lemma RefuseCommits(db: Db, id: IntentId)
    requires id in db.rows && RowOk(db.rows[id]) && db.rows[id].status == ApprovalSubmitted
    ensures db.rows[id].approvals != []
    ensures Call(db, id, FailOperation(false)) == Committed(db.(rows := db.rows[id := Refused(db.rows[id])]))
  {
    var ops := db.rows[id].approvals;
    assert Active(ops[|ops| - 1]);
    assert LastWhere(ops, Active) == Some(|ops| - 1);
  }

  lemma RefusedFacts(row: Row)
    requires RowOk(row) && row.status == ApprovalSubmitted
    ensures row.approvals != [] && RowOk(Refused(row)) && Hashes(Refused(row).approvals) <= Hashes(row.approvals)
    ensures forall i :: 0 <= i < |Refused(row).approvals| ==> Refused(row).approvals[i].status == Failed
  {
    HashesOfSame(row.approvals, Refused(row).approvals);
  }

  lemma CancelCommits(db: Db, id: IntentId)
    requires id in db.rows && db.rows[id].status == AwaitingApproval && db.rows[id].payouts == [] && db.rows[id].amount <= db.reserved
    requires forall i :: 0 <= i < |db.rows[id].approvals| ==> db.rows[id].approvals[i].status == Failed
    ensures Call(db, id, CancelIntent)
            == Committed(db.(rows := db.rows[id := db.rows[id].(status := FailedIntent)], reserved := db.reserved - db.rows[id].amount))
  {
    var ops := db.rows[id].approvals + db.rows[id].payouts;
    assert ops == db.rows[id].approvals;
    assert LastWhere(ops, (op: Op) => op.status != Failed).None?;
  }

  function Withdrawn(row: Row, hash: Hash): Row
    requires RowOk(row) && Soft(row.status)
  {
    ReportedFacts(row, hash);
    Refused(Reported(row, hash)).(status := FailedIntent)
  }

  lemma WithdrawnFacts(row: Row, hash: Hash)
    requires RowOk(row) && Soft(row.status)
    ensures var r := Withdrawn(row, hash);
            && r.status == FailedIntent && r.amount == row.amount && r.payouts == []
            && Hashes(r.approvals) <= Hashes(row.approvals) + {hash}
  {
    ReportedFacts(row, hash);
    ReportedHashes(row, hash);
    RefusedFacts(Reported(row, hash));
  }

  function WithdrawnWorld(w: World, id: IntentId, hash: Hash): World
    requires id in w.db.rows && RowOk(w.db.rows[id]) && Soft(w.db.rows[id].status) && w.db.rows[id].amount <= w.db.reserved
  {
    w.(db := w.db.(rows := w.db.rows[id := Withdrawn(w.db.rows[id], hash)], reserved := w.db.reserved - w.db.rows[id].amount))
  }

  lemma Reports(w: World, id: IntentId, hash: Hash) returns (more: seq<Action>)
    requires id in w.db.rows && RowOk(w.db.rows[id]) && Soft(w.db.rows[id].status) && hash !in AllHashes(w.db)
    ensures RunAll(w, more) == WithRow(w, id, Reported(w.db.rows[id], hash))
  {
    more := Begin(w);
    if w.db.rows[id].status == AwaitingApproval {
      ReportCommits(w.db, id, hash);
      Push(w, more, w, OwnerCall(id, ObserveApproval(true, Some(hash))));
      more := more + [OwnerCall(id, ObserveApproval(true, Some(hash)))];
    } else {
      assert w.db.rows[id := w.db.rows[id]] == w.db.rows;
    }
  }

  lemma Refuses(w: World, pid: Pid, id: IntentId) returns (more: seq<Action>)
    requires PhaseOf(w, pid).Idle? && id in w.db.rows && RowOk(w.db.rows[id]) && w.db.rows[id].status == ApprovalSubmitted
    ensures w.db.rows[id].approvals != [] && RunAll(w, more) == Enter(WithRow(w, id, Refused(w.db.rows[id])), pid, Idle)
  {
    var row := w.db.rows[id];
    var p := ToFail(id, false, |row.approvals| - 1, Refuted);
    more := ReachApproval(w, pid, id);
    BlockStep(w, pid, ApprovalBlock, id, row, FatalError, p);
    Push(w, more, Enter(w, pid, At(ApprovalBlock, id, row)), Resume(pid, FatalError));
    more := more + [Resume(pid, FatalError)];
    RefuseCommits(w.db, id);
    CallStep(w, pid, p, Nothing);
    Push(w, more, Enter(w, pid, p), Resume(pid, Nothing));
    more := more + [Resume(pid, Nothing)];
  }

  function CancelledDb(db: Db, id: IntentId): Db
    requires id in db.rows && db.rows[id].amount <= db.reserved
  {
    db.(rows := db.rows[id := db.rows[id].(status := FailedIntent)], reserved := db.reserved - db.rows[id].amount)
  }

  ghost predicate Cancellable(db: Db, id: IntentId) {
    && id in db.rows && db.rows[id].status == AwaitingApproval && db.rows[id].payouts == [] && db.rows[id].amount <= db.reserved
    && forall i :: 0 <= i < |db.rows[id].approvals| ==> db.rows[id].approvals[i].status == Failed
  }

  // A process that has not found an approval cancels.
  lemma CancelsNow(w: World, q: Pid, id: IntentId)
    requires Cancellable(w.db, id)
    ensures Next(Enter(w, q, ToCancel(id)), Resume(q, Nothing)) == Enter(w.(db := CancelledDb(w.db, id)), q, Idle)
  {
    CancelCommits(w.db, id);
    CallStep(w, q, ToCancel(id), Nothing);
  }

  lemma Cancels(w: World, q: Pid, id: IntentId) returns (more: seq<Action>)
    requires Cancellable(w.db, id)
    requires PhaseOf(w, q) == ToCancel(id) || (PhaseOf(w, q).Idle? && id !in w.approved)
    ensures RunAll(w, more) == Enter(w.(db := CancelledDb(w.db, id)), q, Idle)
  {
    CancelsNow(w, q, id);
    more := Begin(w);
    if PhaseOf(w, q).Idle? {
      Push(w, more, w, Cancel(q, id));
      more := more + [Cancel(q, id)];
    } else {
      assert w.procs[q := ToCancel(id)] == w.procs;
      assert Enter(w, q, ToCancel(id)) == w;
    }
    Push(w, more, Enter(w, q, ToCancel(id)), Resume(q, Nothing));
    more := more + [Resume(q, Nothing)];
  }

  lemma ReportsAndRefuses(w: World, pid: Pid, id: IntentId, hash: Hash) returns (more: seq<Action>)
    requires PhaseOf(w, pid).Idle? && id in w.db.rows && RowOk(w.db.rows[id]) && Soft(w.db.rows[id].status) && hash !in AllHashes(w.db)
    ensures Reported(w.db.rows[id], hash).approvals != []
    ensures RunAll(w, more) == Enter(WithRow(w, id, Refused(Reported(w.db.rows[id], hash))), pid, Idle)
  {
    var reported := Reported(w.db.rows[id], hash);
    ReportedFacts(w.db.rows[id], hash);
    var a := Reports(w, id, hash);
    var b := Refuses(WithRow(w, id, reported), pid, id);
    RunThen(w, a, b);
    more := a + b;
    assert w.db.rows[id := reported][id := Refused(reported)] == w.db.rows[id := Refused(reported)];
  }

  // What refusing leaves can be cancelled.
  lemma RefusedIsCancellable(db: Db, db': Db, id: IntentId, hash: Hash)
    requires id in db.rows && RowOk(db.rows[id]) && Soft(db.rows[id].status) && db.rows[id].amount <= db.reserved
    requires Reported(db.rows[id], hash).approvals != [] && db' == db.(rows := db.rows[id := Refused(Reported(db.rows[id], hash))])
    ensures Cancellable(db', id)
    ensures CancelledDb(db', id) == db.(rows := db.rows[id := Withdrawn(db.rows[id], hash)], reserved := db.reserved - db.rows[id].amount)
  {
    ReportedFacts(db.rows[id], hash);
    RefusedFacts(Reported(db.rows[id], hash));
    assert db'.rows[id := Withdrawn(db.rows[id], hash)] == db.rows[id := Withdrawn(db.rows[id], hash)];
  }

  lemma Withdraws(w: World, pid: Pid, q: Pid, id: IntentId, hash: Hash) returns (more: seq<Action>)
    requires PhaseOf(w, pid).Idle? && id in w.db.rows && RowOk(w.db.rows[id]) && Soft(w.db.rows[id].status)
    requires w.db.rows[id].amount <= w.db.reserved && hash !in AllHashes(w.db)
    requires if q == pid then id !in w.approved else PhaseOf(w, q) == ToCancel(id)
    ensures RunAll(w, more) == Enter(Enter(WithdrawnWorld(w, id, hash), pid, Idle), q, Idle)
  {
    var a := ReportsAndRefuses(w, pid, id, hash);
    var w2 := Enter(WithRow(w, id, Refused(Reported(w.db.rows[id], hash))), pid, Idle);
    RefusedIsCancellable(w.db, w2.db, id, hash);
    var b := Cancels(w2, q, id);
    RunThen(w, a, b);
    more := a + b;
  }

  // ---------------------------------------------------------------- cancelling every intent that can be cancelled

  ghost predicate Fit(w: World, pid: Pid, id: IntentId) {
    Safe(w) && PhaseOf(w, pid).Idle? && Unsettled(w, id) && CanSettle(w, id)
  }

  lemma WithdrawnHashes(db: Db, db': Db, id: IntentId, hash: Hash)
    requires id in db.rows && RowOk(db.rows[id]) && Soft(db.rows[id].status)
    requires db'.rows == db.rows[id := Withdrawn(db.rows[id], hash)]
    ensures AllHashes(db') <= AllHashes(db) + {hash}
  {
    WithdrawnFacts(db.rows[id], hash);
    forall h | h in AllHashes(db') && h != hash ensures h in AllHashes(db) {
      var other :| other in db'.rows && h in Hashes(db'.rows[other].approvals) + Hashes(db'.rows[other].payouts);
      assert h in Hashes(db.rows[other].approvals) + Hashes(db.rows[other].payouts);
    }
  }

  // A row that is not firm, before or after, does not matter.
  lemma SameFirm(w: World, w': World, id: IntentId, row': Row)
    requires w'.db.rows == w.db.rows[id := row'] && id !in FirmIds(w) && id !in FirmIds(w')
    requires forall other :: other != id ==> (MayCancel(w', other) <==> MayCancel(w, other))
    ensures Firm(w') == Firm(w)
  {
    assert FirmIds(w') == FirmIds(w);
    SumCongruence(FirmIds(w), AmountOf(w.db.rows), AmountOf(w'.db.rows));
  }

  // What the condition looks at has not changed.
  lemma ConditionStays(db: Db, db': Db, firm: nat, id: IntentId, c: ChainPayout)
    requires id in db.rows && CanSettleFrom(db, firm, id, c)
    requires id in db'.rows && db'.rows[id] == db.rows[id]
    requires db'.withdrawn == db.withdrawn && db'.paid == db.paid && db'.total <= c.evidence.accounting.funded
    requires c.evidence.hash in AllHashes(db') ==> c.evidence.hash in AllHashes(db)
    ensures CanSettleFrom(db', firm, id, c)
  {
  }

  lemma WithdrawKeepsCondition(db: Db, db': Db, firm: nat, id: IntentId, c: ChainPayout, other: IntentId, hash: Hash)
    requires id in db.rows && Payable(db.rows[id].status) && CanSettleFrom(db, firm, id, c)
    requires other in db.rows && Soft(db.rows[other].status) && RowOk(db.rows[other]) && hash != c.evidence.hash
    requires db' == db.(rows := db.rows[other := Withdrawn(db.rows[other], hash)], reserved := db'.reserved)
    ensures id in db'.rows && db'.rows[id] == db.rows[id] && CanSettleFrom(db', firm, id, c)
  {
    assert other != id;
    WithdrawnHashes(db, db', other, hash);
    ConditionStays(db, db', firm, id, c);
  }

  // Only the cancelled intent has changed.
  ghost predicate OnlyCancelled(w: World, w': World, other: IntentId) {
    && other in w.db.rows && other in w'.db.rows && w'.db.rows == w.db.rows[other := w'.db.rows[other]]
    && w'.db.rows[other].status == FailedIntent && w'.chain == w.chain
    && forall x :: x != other ==> (MayCancel(w', x) <==> MayCancel(w, x))
  }

  lemma CancelledIsNotLoose(w: World, w': World, other: IntentId)
    requires OnlyCancelled(w, w', other)
    ensures LooseIds(w') == LooseIds(w) - {other}
  {
  }

  lemma LooseIsNotFirm(w: World, w': World, other: IntentId)
    requires OnlyCancelled(w, w', other) && other in LooseIds(w)
    ensures Firm(w') == Firm(w)
  {
    assert other !in FirmIds(w) && other !in FirmIds(w');
    SameFirm(w, w', other, w'.db.rows[other]);
  }

  lemma SameCancelling(w: World, w': World, pid: Pid, q: Pid, other: IntentId, x: IntentId)
    requires PhaseOf(w, pid).Idle? && (q == pid || PhaseOf(w, q) == ToCancel(other)) && x != other
    requires w'.approved == w.approved && w'.procs == w.procs[pid := Idle][q := Idle]
    ensures MayCancel(w', x) <==> MayCancel(w, x)
  {
    forall p ensures (p in w'.procs && w'.procs[p] == ToCancel(x)) <==> (p in w.procs && w.procs[p] == ToCancel(x)) {}
  }

  lemma WithdrawingCancels(w: World, w': World, pid: Pid, q: Pid, other: IntentId, hash: Hash)
    requires other in w.db.rows && RowOk(w.db.rows[other]) && Soft(w.db.rows[other].status) && w.db.rows[other].amount <= w.db.reserved
    requires PhaseOf(w, pid).Idle? && (q == pid || PhaseOf(w, q) == ToCancel(other))
    requires w' == Enter(Enter(WithdrawnWorld(w, other, hash), pid, Idle), q, Idle)
    ensures OnlyCancelled(w, w', other) && PhaseOf(w', pid).Idle?
  {
    WithdrawnFacts(w.db.rows[other], hash);
    forall x | x != other ensures MayCancel(w', x) <==> MayCancel(w, x) { SameCancelling(w, w', pid, q, other, x); }
  }

  lemma RowIsOk(db: Db, id: IntentId)
    requires LedgerOk(db) && id in db.rows
    ensures RowOk(db.rows[id])
  {
  }

  lemma Canceller(w: World, pid: Pid, id: IntentId) returns (q: Pid)
    requires PhaseOf(w, pid).Idle? && MayCancel(w, id)
    ensures if q == pid then id !in w.approved else PhaseOf(w, q) == ToCancel(id)
  {
    if id !in w.approved {
      q := pid;
    } else {
      q :| q in w.procs && w.procs[q] == ToCancel(id);
    }
  }

  lemma StillCanSettle(w: World, w': World, id: IntentId)
    requires Unsettled(w, id) && id in w'.db.rows && w'.db.rows[id] == w.db.rows[id] && w'.chain == w.chain && Firm(w') == Firm(w)
    requires CanSettleFrom(w'.db, Firm(w), id, w.chain[id])
    ensures Unsettled(w', id) && CanSettle(w', id)
  {
  }

  lemma WithdrawsOne(w: World, pid: Pid, id: IntentId, other: IntentId) returns (more: seq<Action>, w': World)
    requires LedgerOk(w.db) && PhaseOf(w, pid).Idle? && Unsettled(w, id) && CanSettle(w, id) && other in LooseIds(w)
    ensures RunAll(w, more) == w' && PhaseOf(w', pid).Idle? && Unsettled(w', id) && CanSettle(w', id)
    ensures LooseIds(w') == LooseIds(w) - {other}
  {
    var hash := Unused(AllHashes(w.db) + {w.chain[id].evidence.hash});
    var q := Canceller(w, pid, other);
    RowIsOk(w.db, other);
    AmountIsReserved(w.db, other);
    more := Withdraws(w, pid, q, other, hash);
    w' := RunAll(w, more);
    WithdrawingCancels(w, w', pid, q, other, hash);
    CancelledIsNotLoose(w, w', other);
    LooseIsNotFirm(w, w', other);
    WithdrawKeepsCondition(w.db, w'.db, Firm(w), id, w.chain[id], other, hash);
    StillCanSettle(w, w', id);
  }

  lemma {:induction false} WithdrawsAll(w: World, pid: Pid, id: IntentId) returns (more: seq<Action>)
    requires Fit(w, pid, id)
    ensures Fit(RunAll(w, more), pid, id) && LooseIds(RunAll(w, more)) == {}
    decreases |LooseIds(w)|
  {
    more := Begin(w);
    if LooseIds(w) != {} {
      var other :| other in LooseIds(w);
      var first, w' := WithdrawsOne(w, pid, id, other);
      RunKeepsSafe(w, first);
      var rest := WithdrawsAll(w', pid, id);
      RunThen(w, first, rest);
      more := first + rest;
    }
  }

  // ---------------------------------------------------------------- bringing the pools to the snapshot

  // Everything the block accounts for is in the pools, and nothing else.
  ghost predicate Level(w: World, id: IntentId)
    requires id in w.chain
  {
    var a := w.chain[id].evidence.accounting;
    w.db.total == a.funded && w.db.reserved + w.db.paid == a.paid + a.outstanding
  }

  lemma NoLooseMeansFirm(w: World)
    requires LedgerOk(w.db) && LooseIds(w) == {}
    ensures Firm(w) == w.db.reserved + w.db.paid
  {
    forall id | id in IdsWith(w.db.rows, true) + IdsWith(w.db.rows, false) ensures id in FirmIds(w) { assert id !in LooseIds(w); }
    FirmIsLiveOrPaid(w);
    assert FirmIds(w) == IdsWith(w.db.rows, true) + IdsWith(w.db.rows, false);
    FirmIsCovered(w);
  }

  // Deposit up to what the block had seen funded.
  function Deposited(db: Db, funded: nat): Db {
    db.(total := funded)
  }

  lemma Deposits(w: World, funded: nat) returns (more: seq<Action>)
    requires w.db.total <= funded
    ensures RunAll(w, more) == w.(db := Deposited(w.db, funded))
  {
    more := Begin(w);
    Push(w, more, w, PoolFunded(funded - w.db.total));
    more := more + [PoolFunded(funded - w.db.total)];
  }

  lemma DepositKeepsCondition(w: World, id: IntentId)
    requires Unsettled(w, id) && CanSettle(w, id)
    ensures var w' := w.(db := Deposited(w.db, w.chain[id].evidence.accounting.funded)); CanSettle(w', id) && Firm(w') == Firm(w)
  {
    var w' := w.(db := Deposited(w.db, w.chain[id].evidence.accounting.funded));
    assert AllHashes(w'.db) == AllHashes(w.db) && FirmIds(w') == FirmIds(w);
    ConditionStays(w.db, w'.db, Firm(w), id, w.chain[id]);
  }

  // A fresh intent takes up what the block accounts for beyond the firm ones.
  function FilledUp(db: Db, other: IntentId, amount: nat): Db {
    db.(rows := db.rows[other := Row(amount, 0, AwaitingApproval, [], [], Validated)], reserved := db.reserved + amount)
  }

  lemma FillsUp(w: World, other: IntentId, amount: nat) returns (more: seq<Action>)
    requires other !in w.db.rows && amount > 0 && w.db.reserved + w.db.paid + w.db.withdrawn + amount <= w.db.total
    ensures RunAll(w, more) == w.(db := FilledUp(w.db, other, amount))
  {
    more := Begin(w);
    Push(w, more, w, OwnerCall(other, CreateIntent(amount, 0)));
    more := more + [OwnerCall(other, CreateIntent(amount, 0))];
  }

  lemma FillUpKeepsFirm(w: World, other: IntentId, amount: nat)
    requires other !in w.db.rows && other !in w.approved
    ensures Firm(w.(db := FilledUp(w.db, other, amount))) == Firm(w)
  {
    SameFirm(w, w.(db := FilledUp(w.db, other, amount)), other, Row(amount, 0, AwaitingApproval, [], [], Validated));
  }

  lemma FillUpKeepsCondition(w: World, id: IntentId, other: IntentId, amount: nat)
    requires Unsettled(w, id) && CanSettle(w, id) && other !in w.db.rows && other !in w.approved
    ensures CanSettle(w.(db := FilledUp(w.db, other, amount)), id)
  {
    var (w', row) := (w.(db := FilledUp(w.db, other, amount)), Row(amount, 0, AwaitingApproval, [], [], Validated));
    HashesAfterCreate(w.db, other, row);
    assert AllHashes(w'.db) == AllHashes(w.db.(rows := w.db.rows[other := row]));
    FillUpKeepsFirm(w, other, amount);
    ConditionStays(w.db, w'.db, Firm(w), id, w.chain[id]);
  }

  // The room the snapshot leaves.
  lemma SnapshotHasRoom(db: Db, firm: nat, id: IntentId, c: ChainPayout)
    requires id in db.rows && CanSettleFrom(db, firm, id, c)
    ensures c.evidence.accounting.paid + c.evidence.accounting.outstanding + db.withdrawn <= c.evidence.accounting.funded
  {
  }

  lemma Levels(w: World, pid: Pid, id: IntentId) returns (more: seq<Action>)
    requires PhaseOf(w, pid).Idle? && Unsettled(w, id) && CanSettle(w, id) && Firm(w) == w.db.reserved + w.db.paid
    ensures var w' := RunAll(w, more); PhaseOf(w', pid).Idle? && Unsettled(w', id) && CanSettle(w', id) && Level(w', id)
  {
    var a := w.chain[id].evidence.accounting;
    var w1 := w.(db := Deposited(w.db, a.funded));
    more := Deposits(w, a.funded);
    DepositKeepsCondition(w, id);
    var missing := a.paid + a.outstanding - (w.db.reserved + w.db.paid);
    if missing > 0 {
      var other := Unused(w.db.rows.Keys + w.approved.Keys);
      SnapshotHasRoom(w.db, Firm(w), id, w.chain[id]);
      var rest := FillsUp(w1, other, missing);
      FillUpKeepsCondition(w1, id, other, missing);
      RunThen(w, more, rest);
      more := more + rest;
    }
  }

  // ---------------------------------------------------------------- settling

  lemma LevelMatches(w: World, id: IntentId)
    requires LedgerOk(w.db) && Unsettled(w, id) && CanSettle(w, id) && Level(w, id)
    ensures MatchesProjection(w.db, w.db.rows[id].amount, w.chain[id].evidence.accounting)
    ensures Verified(w, id, w.db.rows[id], w.chain[id].evidence)
  {
    AmountIsReserved(w.db, id);
  }

  lemma ConfirmedIsPaid(db: Db, id: IntentId, e: Evidence)
    requires id in db.rows && RowOk(db.rows[id]) && db.rows[id].status != PaidOut
    requires Call(db, id, ConfirmPayout(e.hash, e.place, e.accounting)).Committed?
    ensures var db' := Call(db, id, ConfirmPayout(e.hash, e.place, e.accounting)).db; id in db'.rows && db'.rows[id].status == PaidOut
  {
  }

  lemma ObservedIsPayable(db: Db, id: IntentId, hash: Hash)
    requires id in db.rows && RowOk(db.rows[id]) && Payable(db.rows[id].status) && HashIsFree(db, db.rows[id], hash)
    ensures var r := Call(db, id, ObserveExternalPayout(hash));
            r.Committed? && id in r.db.rows && RowOk(r.db.rows[id]) && r.db.rows[id].status != PaidOut
  {
    ObserveCommitsIff(db, id, hash);
    ObserveExternalRowStep(db.rows[id], hash, AllHashes(db));
  }

  lemma BothCallsCommit(db: Db, id: IntentId, e: Evidence)
    requires LedgerOk(db) && id in db.rows && Payable(db.rows[id].status)
    requires HashIsFree(db, db.rows[id], e.hash) && !FailedWithHash(db.rows[id], e.hash)
    requires SnapshotValid(e.accounting) && MatchesProjection(db, db.rows[id].amount, e.accounting)
    ensures BothCalls(db, id, e).Committed? && id in BothCalls(db, id, e).db.rows && BothCalls(db, id, e).db.rows[id].status == PaidOut
  {
    RowIsOk(db, id);
    ExternalPayoutCommitsIff(db, id, e.hash, e.place, e.accounting);
    ObservedIsPayable(db, id, e.hash);
    ConfirmedIsPaid(Call(db, id, ObserveExternalPayout(e.hash)).db, id, e);
  }

  lemma LevelSettles(w: World, pid: Pid, id: IntentId) returns (more: seq<Action>)
    requires LedgerOk(w.db) && PhaseOf(w, pid).Idle? && Unsettled(w, id) && CanSettle(w, id) && Level(w, id)
    ensures Settled(RunAll(w, more), id)
  {
    LevelMatches(w, id);
    BothCallsCommit(w.db, id, w.chain[id].evidence);
    more := FindsAndSettles(w, pid, id, w.chain[id].evidence);
  }

  lemma ClearedSettles(w: World, pid: Pid, id: IntentId) returns (more: seq<Action>)
    requires Fit(w, pid, id) && LooseIds(w) == {}
    ensures Settled(RunAll(w, more), id)
  {
    NoLooseMeansFirm(w);
    var c := Levels(w, pid, id);
    RunKeepsSafe(w, c);
    var d := LevelSettles(RunAll(w, c), pid, id);
    RunThen(w, c, d);
    more := c + d;
  }

  lemma IdleSettles(w: World, pid: Pid, id: IntentId) returns (more: seq<Action>)
    requires Fit(w, pid, id)
    ensures Settled(RunAll(w, more), id)
  {
    var b := WithdrawsAll(w, pid, id);
    var c := ClearedSettles(RunAll(w, b), pid, id);
    RunThen(w, b, c);
    more := b + c;
  }

  lemma SettlesAtLast(w: World, id: IntentId) returns (more: seq<Action>)
    requires Safe(w) && Unsettled(w, id) && CanSettle(w, id)
    ensures Settled(RunAll(w, more), id)
  {
    var pid := Unused(w.procs.Keys);
    more := IdleSettles(w, pid, id);
  }

  lemma NeverSettles(w: World, id: IntentId)
    requires Safe(w) && Unsettled(w, id) && !CanSettle(w, id)
    ensures !exists more :: Settled(RunAll(w, more), id)
  {
    forall more ensures !Settled(RunAll(w, more), id) { StrandedForever(w, more, id); }
  }

  lemma SettlesSometime(w: World, id: IntentId)
    requires Safe(w) && Unsettled(w, id) && CanSettle(w, id)
    ensures exists more :: Settled(RunAll(w, more), id)
  {
    var more := SettlesAtLast(w, id);
    assert Settled(RunAll(w, more), id);
  }

  lemma SettlesEventuallyIff(w: World, id: IntentId)
    requires Safe(w) && Unsettled(w, id)
    ensures (exists more :: Settled(RunAll(w, more), id)) <==> CanSettle(w, id)
  {
    if CanSettle(w, id) { SettlesSometime(w, id); } else { NeverSettles(w, id); }
  }

  /** In every reachable world, for every intent whose approval is confirmed and whose payout the chain has
      made: some continuation settles it if and only if the condition holds. */
  lemma EverSettlesIff(actions: seq<Action>, id: IntentId)
    requires Unsettled(RunAll(Empty(), actions), id)
    ensures var w := RunAll(Empty(), actions);
            (exists more :: Settled(RunAll(w, more), id)) <==> CanSettle(w, id)
  {
    EveryRunIsSafe(actions);
    SettlesEventuallyIff(RunAll(Empty(), actions), id);
  }
}
