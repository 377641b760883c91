/** Whether an approval that the owner has made on chain will ever be confirmed in the database. A failure of an
    approval names no attempt either, so a late one may close a newer attempt together with its transaction,
    which no other attempt can carry again. */
module SettlementApprovals {
  import opened Options
  import opened RewardSettlement
  import opened SettlementDrivers
  import opened SettlementRuns
  import opened SettlementReferences
  import Fate = SettlementFate
  import Recovery = SettlementRecovery

  ghost predicate FailedApproval(row: Row, hash: Hash) {
    exists i :: 0 <= i < |row.approvals| && row.approvals[i].status == Failed && row.approvals[i].hash == Some(hash)
  }

  // The owner has approved on chain, and the database is not past waiting for it.
  ghost predicate Unconfirmed(w: World, id: IntentId) {
    id in w.db.rows && id in w.approved && Soft(w.db.rows[id].status)
  }

  ghost predicate IsConfirmed(w: World, id: IntentId) {
    id in w.db.rows && (Payable(w.db.rows[id].status) || w.db.rows[id].status == PaidOut)
  }

  /** The transaction is nobody else's, and no failed attempt carries it. */
  ghost predicate CanConfirm(w: World, id: IntentId)
    requires id in w.db.rows && id in w.approved
  {
    var (row, hash) := (w.db.rows[id], w.approved[id].hash);
    (hash in Hashes(row.approvals) || hash !in AllHashes(w.db)) && !FailedApproval(row, hash)
  }

  // ---------------------------------------------------------------- a confirmation carries what the chain shows

  ghost predicate FoundOk(w: World, phase: Phase) {
    phase.ToConfirmApproval? ==> phase.id in w.approved && w.approved[phase.id] == ChainApproval(phase.approvalHash, phase.place)
  }

  ghost predicate AllFoundOk(w: World) {
    forall pid :: FoundOk(w, PhaseOf(w, pid))
  }

  lemma ApprovalsStay(w: World, a: Action, id: IntentId)
    requires id in w.approved
    ensures id in Next(w, a).approved && Next(w, a).approved[id] == w.approved[id]
  {
  }

  lemma BlockFinds(w: World, section: Section, id: IntentId, row: Row, answer: Answer)
    ensures FoundOk(w, Block(w, section, id, row, answer))
  {
  }

  lemma LocalFinds(w: World, pid: Pid, answer: Answer)
    requires PendingCall(PhaseOf(w, pid)).None?
    ensures FoundOk(w, PhaseOf(LocalStep(w, pid, answer), pid))
  {
    var p := PhaseOf(w, pid);
    if p.At? { BlockFinds(w, p.section, p.id, p.row, answer); }
  }

  lemma ResumeFinds(w: World, pid: Pid, answer: Answer)
    ensures FoundOk(w, PhaseOf(ResumeStep(w, pid, answer), pid))
  {
    if PendingCall(PhaseOf(w, pid)).None? { LocalFinds(w, pid, answer); }
  }

  lemma OthersLeave(w: World, a: Action, pid: Pid)
    requires !a.Resume?
    ensures PhaseOf(Next(w, a), pid) == PhaseOf(w, pid) || !PhaseOf(Next(w, a), pid).ToConfirmApproval?
  {
  }

  lemma ResumeLeaves(w: World, other: Pid, answer: Answer, pid: Pid)
    requires other != pid
    ensures PhaseOf(ResumeStep(w, other, answer), pid) == PhaseOf(w, pid)
  {
    if PendingCall(PhaseOf(w, other)).None? { assert PhaseOf(LocalStep(w, other, answer), pid) == PhaseOf(w, pid); }
  }

  lemma StepFinds(w: World, a: Action, pid: Pid)
    requires FoundOk(w, PhaseOf(w, pid))
    ensures FoundOk(w, PhaseOf(Next(w, a), pid))
  {
    if a.Resume? && a.pid == pid {
      ResumeFinds(w, pid, a.answer);
    } else if a.Resume? {
      ResumeLeaves(w, a.pid, a.answer, pid);
    } else {
      OthersLeave(w, a, pid);
    }
  }

  lemma NextKeepsFound(w: World, a: Action)
    requires AllFoundOk(w)
    ensures AllFoundOk(Next(w, a))
  {
    forall pid ensures FoundOk(Next(w, a), PhaseOf(Next(w, a), pid)) {
      StepFinds(w, a, pid);
      var p := PhaseOf(Next(w, a), pid);
      if p.ToConfirmApproval? { ApprovalsStay(w, a, p.id); }
    }
  }

  // ---------------------------------------------------------------- what never comes back

  ghost predicate Good(w: World) {
    Safe(w) && ReferencesOk(w.db) && AllFoundOk(w)
  }

  lemma NextKeepsGood(w: World, a: Action)
    requires Good(w)
    ensures Good(Next(w, a))
  {
    NextKeepsSafe(w, a);
    NextKeepsReferences(w, a);
    NextKeepsFound(w, a);
  }

  lemma {:induction false} RunKeepsGood(w: World, more: seq<Action>)
    requires Good(w)
    ensures Good(RunAll(w, more))
  {
    if more != [] {
      RunKeepsGood(w, more[..|more| - 1]);
      NextKeepsGood(RunAll(w, more[..|more| - 1]), more[|more| - 1]);
    }
  }

  lemma EmptyIsGood()
    ensures Good(Empty())
  {
    EveryRunIsSafe([]);
    EveryRunKeepsReferences([]);
  }

  // A confirmation that goes through finds the transaction in an attempt that has not failed.
  lemma ConfirmRequires(db: Db, id: IntentId, hash: Hash, place: nat)
    requires id in db.rows && Unique(db, HashColumn) && Soft(db.rows[id].status) && Call(db, id, ConfirmApproval(hash, place)).Committed?
    ensures hash in Hashes(db.rows[id].approvals) && !FailedApproval(db.rows[id], hash)
  {
    var row := db.rows[id];
    var found := LastWhere(row.approvals, (op: Op) => op.hash == Some(hash) && op.status == Submitted);
    assert found.Some?;
    assert row.approvals[found.value].hash == Some(hash);
    forall i | 0 <= i < |row.approvals| && row.approvals[i].status == Failed ensures row.approvals[i].hash != Some(hash) {
      assert RefAt(row, Slot(false, i), HashColumn) == row.approvals[i].hash;
      assert RefAt(row, Slot(false, found.value), HashColumn) == row.approvals[found.value].hash;
    }
  }

  lemma OnlyConfirmationConfirms(db: Db, id: IntentId, rpc: RewardSettlement.Rpc)
    requires id in db.rows && RowOk(db.rows[id]) && Soft(db.rows[id].status) && !rpc.CreateIntent? && Call(db, id, rpc).Committed?
    ensures var db' := Call(db, id, rpc).db;
            id in db'.rows && (Payable(db'.rows[id].status) || db'.rows[id].status == PaidOut ==> rpc.ConfirmApproval?)
  {
  }

  lemma ConfirmationIsFound(w: World, a: Action)
    requires AllFoundOk(w) && RequestOf(w, a).Request? && RequestOf(w, a).rpc.ConfirmApproval?
    ensures var (id, rpc) := (RequestOf(w, a).id, RequestOf(w, a).rpc);
            id in w.approved && rpc == ConfirmApproval(w.approved[id].hash, w.approved[id].place)
  {
    assert FoundOk(w, PhaseOf(w, a.pid));
  }

  lemma ConfirmingMeansCanConfirm(w: World, a: Action, id: IntentId)
    requires Good(w) && Unconfirmed(w, id) && IsConfirmed(Next(w, a), id)
    ensures CanConfirm(w, id)
  {
    Fate.OwnRequest(w, a, id);
    Recovery.RowIsOk(w.db, id);
    OnlyConfirmationConfirms(w.db, id, RequestOf(w, a).rpc);
    ConfirmationIsFound(w, a);
    ConfirmRequires(w.db, id, w.approved[id].hash, w.approved[id].place);
  }

  lemma FailedStays(row: Row, row': Row, hash: Hash)
    requires RowExtends(row, row') && FailedApproval(row, hash)
    ensures FailedApproval(row', hash)
  {
    var i :| 0 <= i < |row.approvals| && row.approvals[i].status == Failed && row.approvals[i].hash == Some(hash);
    assert row'.approvals[i] == row.approvals[i];
  }

  // An approval attempt gets a hash nobody had.
  lemma NewApprovalHash(row: Row, submitted: bool, hash: Option<Hash>, hashes: set<Hash>, h: Hash)
    requires ObserveApprovalRow(row, submitted, hash, hashes).Some?
    requires h in Hashes(ObserveApprovalRow(row, submitted, hash, hashes).value.approvals) && h !in Hashes(row.approvals)
    ensures h !in hashes
  {
    var ops' := ObserveApprovalRow(row, submitted, hash, hashes).value.approvals;
    var i :| 0 <= i < |ops'| && ops'[i].hash == Some(h);
    assert i < |row.approvals| ==> row.approvals[i].hash != Some(h);
  }

  lemma OthersAddNoApprovalHash(db: Db, id: IntentId, rpc: RewardSettlement.Rpc)
    requires id in db.rows && RowOk(db.rows[id]) && !rpc.CreateIntent? && !rpc.ObserveApproval? && Call(db, id, rpc).Committed?
    ensures id in Call(db, id, rpc).db.rows && Hashes(Call(db, id, rpc).db.rows[id].approvals) <= Hashes(db.rows[id].approvals)
  {
    Fate.HashesOfSame(db.rows[id].approvals, Call(db, id, rpc).db.rows[id].approvals);
  }

  lemma ApprovalHashesMove(w: World, a: Action, id: IntentId, h: Hash)
    requires LedgerOk(w.db) && id in w.db.rows && id in Next(w, a).db.rows
    requires h in Hashes(Next(w, a).db.rows[id].approvals) && h !in Hashes(w.db.rows[id].approvals)
    ensures h !in AllHashes(w.db)
  {
    Fate.OwnRequest(w, a, id);
    Recovery.RowIsOk(w.db, id);
    var rpc := RequestOf(w, a).rpc;
    if rpc.ObserveApproval? {
      NewApprovalHash(w.db.rows[id], rpc.submitted, rpc.hash, AllHashes(w.db), h);
    } else {
      OthersAddNoApprovalHash(w.db, id, rpc);
    }
  }

  lemma CouldConfirm(w: World, a: Action, id: IntentId)
    requires Good(w) && Unconfirmed(w, id) && Unconfirmed(Next(w, a), id) && CanConfirm(Next(w, a), id)
    ensures CanConfirm(w, id)
  {
    var (row, row', hash) := (w.db.rows[id], Next(w, a).db.rows[id], w.approved[id].hash);
    ApprovalsStay(w, a, id);
    Fate.StepMoves(w, a);
    assert Fate.RowMoves(row, row', AllHashes(w.db));
    if FailedApproval(row, hash) { FailedStays(row, row', hash); }
    if hash in AllHashes(w.db) && hash !in Hashes(row.approvals) { assert hash in Hashes(row'.approvals); ApprovalHashesMove(w, a, id, hash); }
  }

  // Cancelled, or waiting for an approval that cannot be confirmed.
  ghost predicate Hopeless(w: World, id: IntentId) {
    id in w.db.rows && id in w.approved && (w.db.rows[id].status == FailedIntent || (Unconfirmed(w, id) && !CanConfirm(w, id)))
  }

  lemma FinishedStays(w: World, a: Action, id: IntentId)
    requires LedgerOk(w.db) && id in w.db.rows && w.db.rows[id].status == FailedIntent
    ensures id in Next(w, a).db.rows && Next(w, a).db.rows[id] == w.db.rows[id]
  {
    Fate.StepMoves(w, a);
    assert Fate.RowMoves(w.db.rows[id], Next(w, a).db.rows[id], AllHashes(w.db));
  }

  lemma StaysInTable(w: World, a: Action, id: IntentId)
    requires LedgerOk(w.db) && id in w.db.rows
    ensures id in Next(w, a).db.rows
  {
    Fate.StepMoves(w, a);
    assert Fate.RowMoves(w.db.rows[id], Next(w, a).db.rows[id], AllHashes(w.db));
  }

  lemma UnconfirmableStays(w: World, a: Action, id: IntentId)
    requires Good(w) && Unconfirmed(w, id) && !CanConfirm(w, id)
    ensures Hopeless(Next(w, a), id)
  {
    ApprovalsStay(w, a, id);
    StaysInTable(w, a, id);
    if IsConfirmed(Next(w, a), id) {
      ConfirmingMeansCanConfirm(w, a, id);
    } else if Unconfirmed(Next(w, a), id) && CanConfirm(Next(w, a), id) {
      CouldConfirm(w, a, id);
    }
  }

  lemma StepKeepsHopeless(w: World, a: Action, id: IntentId)
    requires Good(w) && Hopeless(w, id)
    ensures Hopeless(Next(w, a), id)
  {
    if w.db.rows[id].status == FailedIntent {
      ApprovalsStay(w, a, id);
      FinishedStays(w, a, id);
    } else {
      UnconfirmableStays(w, a, id);
    }
  }

  /** Once the condition fails, the intent never gets past its approval, although the owner has approved on
      chain and cannot approve again. */
  lemma {:induction false} LostForever(w: World, more: seq<Action>, id: IntentId)
    requires Good(w) && Hopeless(w, id)
    ensures Hopeless(RunAll(w, more), id)
  {
    if more != [] {
      LostForever(w, more[..|more| - 1], id);
      RunKeepsGood(w, more[..|more| - 1]);
      StepKeepsHopeless(RunAll(w, more[..|more| - 1]), more[|more| - 1], id);
    }
  }

  // ---------------------------------------------------------------- and otherwise it does

  predicate LastIsApproval(w: World, id: IntentId)
    requires id in w.db.rows && id in w.approved
  {
    var row := w.db.rows[id];
    row.status == ApprovalSubmitted && Last(row.approvals).Some? && Last(row.approvals).value.hash == Some(w.approved[id].hash)
  }

  lemma LastConfirms(db: Db, id: IntentId, approval: ChainApproval)
    requires id in db.rows && RowOk(db.rows[id]) && db.rows[id].status == ApprovalSubmitted
    requires Last(db.rows[id].approvals).Some? && Last(db.rows[id].approvals).value.hash == Some(approval.hash)
    ensures var r := Call(db, id, ConfirmApproval(approval.hash, approval.place));
            r.Committed? && id in r.db.rows && r.db.rows[id].status == ReadyForPayout
  {
    var ops := db.rows[id].approvals;
    assert ops[|ops| - 1].status == Submitted;
    assert LastWhere(ops, (op: Op) => op.hash == Some(approval.hash) && op.status == Submitted).Some?;
  }

  lemma ConfirmsLast(w: World, pid: Pid, id: IntentId) returns (more: seq<Action>)
    requires PhaseOf(w, pid).Idle? && id in w.db.rows && id in w.approved && RowOk(w.db.rows[id]) && LastIsApproval(w, id)
    ensures IsConfirmed(RunAll(w, more), id)
  {
    var (row, approval) := (w.db.rows[id], w.approved[id]);
    var p := ToConfirmApproval(id, approval.hash, approval.place);
    var found := FoundApproval(approval.hash, approval.place);
    more := ReachApproval(w, pid, id);
    BlockStep(w, pid, ApprovalBlock, id, row, found, p);
    Push(w, more, Enter(w, pid, At(ApprovalBlock, id, row)), Resume(pid, found));
    more := more + [Resume(pid, found)];
    LastConfirms(w.db, id, approval);
    CallStep(w, pid, p, Nothing);
    Push(w, more, Enter(w, pid, p), Resume(pid, Nothing));
    more := more + [Resume(pid, Nothing)];
  }

  lemma ReportsAndConfirms(w: World, pid: Pid, id: IntentId) returns (more: seq<Action>)
    requires PhaseOf(w, pid).Idle? && id in w.db.rows && id in w.approved && RowOk(w.db.rows[id])
    requires w.db.rows[id].status == AwaitingApproval && w.approved[id].hash !in AllHashes(w.db)
    ensures IsConfirmed(RunAll(w, more), id)
  {
    var hash := w.approved[id].hash;
    Recovery.ReportedFacts(w.db.rows[id], hash);
    var w1 := WithRow(w, id, Recovery.Reported(w.db.rows[id], hash));
    var a := Recovery.Reports(w, id, hash);
    var b := ConfirmsLast(w1, pid, id);
    RunThen(w, a, b);
    more := a + b;
  }

  lemma RefusedHashes(db: Db, id: IntentId)
    requires id in db.rows && RowOk(db.rows[id]) && db.rows[id].status == ApprovalSubmitted
    ensures db.rows[id].approvals != [] && AllHashes(db.(rows := db.rows[id := Recovery.Refused(db.rows[id])])) <= AllHashes(db)
  {
    Recovery.RefusedFacts(db.rows[id]);
    var db' := db.(rows := db.rows[id := Recovery.Refused(db.rows[id])]);
    forall h | h in AllHashes(db') ensures h in AllHashes(db) {
      var other :| other in db'.rows && h in Hashes(db'.rows[other].approvals) + Hashes(db'.rows[other].payouts);
      assert h in Hashes(db.rows[other].approvals) + Hashes(db.rows[other].payouts);
    }
  }

  lemma RefusesReportsConfirms(w: World, pid: Pid, id: IntentId) returns (more: seq<Action>)
    requires PhaseOf(w, pid).Idle? && id in w.db.rows && id in w.approved && RowOk(w.db.rows[id])
    requires w.db.rows[id].status == ApprovalSubmitted && w.approved[id].hash !in AllHashes(w.db)
    ensures IsConfirmed(RunAll(w, more), id)
  {
    RefusedHashes(w.db, id);
    Recovery.RefusedFacts(w.db.rows[id]);
    var w1 := Enter(WithRow(w, id, Recovery.Refused(w.db.rows[id])), pid, Idle);
    assert AllHashes(w1.db) == AllHashes(w.db.(rows := w.db.rows[id := Recovery.Refused(w.db.rows[id])]));
    var a := Recovery.Refuses(w, pid, id);
    var b := ReportsAndConfirms(w1, pid, id);
    RunThen(w, a, b);
    more := a + b;
  }

  // If the transaction is not that of the newest attempt and of no failed one, it is in no attempt.
  lemma OtherwiseFree(w: World, id: IntentId)
    requires id in w.db.rows && id in w.approved && RowOk(w.db.rows[id]) && Unconfirmed(w, id) && CanConfirm(w, id) && !LastIsApproval(w, id)
    ensures w.approved[id].hash !in AllHashes(w.db)
  {
    var (row, hash) := (w.db.rows[id], w.approved[id].hash);
    forall i | 0 <= i < |row.approvals| ensures row.approvals[i].hash != Some(hash) {
      if row.approvals[i].status != Failed { NewestIsNot(row, i, hash); }
    }
  }

  lemma NewestIsNot(row: Row, i: nat, hash: Hash)
    requires RowOk(row) && Soft(row.status) && i < |row.approvals| && row.approvals[i].status != Failed
    requires row.status == ApprovalSubmitted ==> Last(row.approvals).value.hash != Some(hash)
    ensures row.approvals[i].hash != Some(hash)
  {
    assert i == |row.approvals| - 1;
  }

  lemma IdleConfirms(w: World, pid: Pid, id: IntentId) returns (more: seq<Action>)
    requires LedgerOk(w.db) && PhaseOf(w, pid).Idle? && Unconfirmed(w, id) && CanConfirm(w, id)
    ensures IsConfirmed(RunAll(w, more), id)
  {
    Recovery.RowIsOk(w.db, id);
    if LastIsApproval(w, id) {
      more := ConfirmsLast(w, pid, id);
    } else {
      OtherwiseFree(w, id);
      if w.db.rows[id].status == AwaitingApproval {
        more := ReportsAndConfirms(w, pid, id);
      } else {
        more := RefusesReportsConfirms(w, pid, id);
      }
    }
  }

  lemma ConfirmsAtLast(w: World, id: IntentId) returns (more: seq<Action>)
    requires LedgerOk(w.db) && Unconfirmed(w, id) && CanConfirm(w, id)
    ensures IsConfirmed(RunAll(w, more), id)
  {
    var a := Begin(w);
    Push(w, a, w, Crash(0));
    var b := IdleConfirms(Next(w, Crash(0)), 0, id);
    RunThen(w, a + [Crash(0)], b);
    more := a + [Crash(0)] + b;
  }

  lemma ConfirmsSometime(w: World, id: IntentId)
    requires LedgerOk(w.db) && Unconfirmed(w, id) && CanConfirm(w, id)
    ensures exists more :: IsConfirmed(RunAll(w, more), id)
  {
    var more := ConfirmsAtLast(w, id);
    assert IsConfirmed(RunAll(w, more), id);
  }

  lemma NeverConfirms(w: World, id: IntentId)
    requires Good(w) && Hopeless(w, id)
    ensures !exists more :: IsConfirmed(RunAll(w, more), id)
  {
    forall more ensures !IsConfirmed(RunAll(w, more), id) { LostForever(w, more, id); }
  }

  /** In every reachable world, for every intent that waits for an approval the owner has made on chain: some
      continuation confirms it if and only if its transaction is nobody else's and no failed attempt's. */
  lemma EverConfirmedIff(actions: seq<Action>, id: IntentId)
    requires Unconfirmed(RunAll(Empty(), actions), id)
    ensures var w := RunAll(Empty(), actions);
            (exists more :: IsConfirmed(RunAll(w, more), id)) <==> CanConfirm(w, id)
  {
    var w := RunAll(Empty(), actions);
    EmptyIsGood();
    RunKeepsGood(Empty(), actions);
    if CanConfirm(w, id) { ConfirmsSometime(w, id); } else { NeverConfirms(w, id); }
  }
}
