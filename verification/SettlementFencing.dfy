/** Which provider submissions may still pay. Recording a failure names no attempt, so a process that heard
    of one failure may close a newer attempt: this module says exactly when a submission that may still pay
    is recorded failed, which is what lets a second one be made beside it. */
module SettlementFencing {
  import opened Options
  import opened RewardSettlement
  import opened SettlementDrivers
  import opened SettlementRuns

  // Attempt `i` of the intent was submitted, and its transaction has not failed.
  ghost predicate MayPay(w: World, id: IntentId, i: nat) {
    && id in w.db.rows && i < |w.db.rows[id].payouts|
    && var key := w.db.rows[id].payouts[i].key; key.Some? && key.value in w.provider && !Dead(w, w.provider[key.value])
  }

  // And yet it is recorded failed: the next reconciliation will make another submission beside it.
  ghost predicate Superseded(w: World, id: IntentId, i: nat) {
    MayPay(w, id, i) && w.db.rows[id].payouts[i].status == Failed
  }

  // ---------------------------------------------------------------- what the processes know

  ghost predicate TxKnown(w: World, op: Op) {
    op.tx.Some? ==> op.key.Some? && op.key.value in w.provider && w.provider[op.key.value] == op.tx.value
  }

  ghost predicate TxsKnown(w: World) {
    forall id, i :: id in w.db.rows && 0 <= i < |w.db.rows[id].payouts| ==> TxKnown(w, w.db.rows[id].payouts[i])
  }

  // A copy of attempts read earlier.
  ghost predicate Earlier(copy: seq<Op>, ops: seq<Op>) {
    |copy| <= |ops| && forall i :: 0 <= i < |copy| && copy[i].tx.Some? ==> ops[i].tx == copy[i].tx
  }

  ghost predicate HasTx(db: Db, id: IntentId, attempt: nat, tx: TxId) {
    id in db.rows && attempt < |db.rows[id].payouts| && db.rows[id].payouts[attempt].tx == Some(tx)
  }

  ghost predicate SeenOk(w: World, phase: Phase) {
    match phase
    case At(_, id, copy) => id in w.db.rows && Earlier(copy.payouts, w.db.rows[id].payouts)
    case Waiting(id, attempt, tx) => HasTx(w.db, id, attempt, tx)
    case ToFail(id, payout, attempt, why) => why.ProviderSaid? ==> payout && exists tx :: HasTx(w.db, id, attempt, tx) && Dead(w, tx)
    case _ => true
  }

  ghost predicate AllSeenOk(w: World) {
    forall pid :: SeenOk(w, PhaseOf(w, pid))
  }

  /** A stored provider transaction is the one its key got, and whoever heard of a failure heard of one. */
  ghost predicate FenceOk(w: World) {
    TxsKnown(w) && AllSeenOk(w)
  }

  // ---------------------------------------------------------------- a step keeps it

  ghost predicate AttemptsGrow(db: Db, db': Db) {
    forall id :: id in db.rows ==> id in db'.rows && OpsExtend(db.rows[id].payouts, db'.rows[id].payouts)
  }

  lemma SameOpsExtend(ops: seq<Op>)
    ensures OpsExtend(ops, ops)
  {
  }

  lemma SameRowsGrow(db: Db, db': Db)
    requires db'.rows == db.rows
    ensures AttemptsGrow(db, db')
  {
    forall id | id in db.rows ensures OpsExtend(db.rows[id].payouts, db'.rows[id].payouts) { SameOpsExtend(db.rows[id].payouts); }
  }

  // A call touches one row.
  lemma OneRow(db: Db, id: IntentId, rpc: RewardSettlement.Rpc, db': Db)
    requires LedgerOk(db) && Call(db, id, rpc) == Committed(db')
    ensures id in db'.rows && db'.rows == db.rows[id := db'.rows[id]]
    ensures id in db.rows ==> OpsExtend(db.rows[id].payouts, db'.rows[id].payouts) && OpsExtend(db.rows[id].approvals, db'.rows[id].approvals)
    ensures id !in db.rows ==> db'.rows[id].payouts == [] && db'.rows[id].approvals == []
  {
    if !rpc.CreateIntent? { RowEffect(db, id, rpc); }
  }

  lemma CallGrows(db: Db, id: IntentId, rpc: RewardSettlement.Rpc, db': Db)
    requires LedgerOk(db) && Call(db, id, rpc) == Committed(db')
    ensures AttemptsGrow(db, db')
  {
    OneRow(db, id, rpc, db');
    forall other | other in db.rows ensures OpsExtend(db.rows[other].payouts, db'.rows[other].payouts) {
      if other != id { SameOpsExtend(db.rows[other].payouts); }
    }
  }

  lemma StepGrowsAttempts(w: World, a: Action)
    requires LedgerOk(w.db)
    ensures AttemptsGrow(w.db, Next(w, a).db)
  {
    DbStep(w, a);
    if Commits(w, a) {
      CallGrows(w.db, RequestOf(w, a).id, RequestOf(w, a).rpc, Next(w, a).db);
    } else {
      SameRowsGrow(w.db, Next(w, a).db);
    }
  }

  ghost predicate HistoriesGrow(w: World, w': World) {
    && (forall key :: key in w.provider ==> key in w'.provider && w'.provider[key] == w.provider[key])
    && (forall tx :: tx in w.outcomes ==> tx in w'.outcomes && w'.outcomes[tx] == w.outcomes[tx])
  }

  lemma LocalGrowsHistories(w: World, pid: Pid, answer: Answer)
    ensures HistoriesGrow(w, LocalStep(w, pid, answer))
  {
  }

  lemma StepGrowsHistories(w: World, a: Action)
    ensures HistoriesGrow(w, Next(w, a))
  {
    if a.Resume? && PendingCall(PhaseOf(w, a.pid)).None? { LocalGrowsHistories(w, a.pid, a.answer); }
  }

  // An acceptance, and nothing else, writes a transaction, into the attempt with its key.
  lemma NewTx(db: Db, id: IntentId, rpc: RewardSettlement.Rpc, i: nat)
    requires id in db.rows && RowOk(db.rows[id]) && !rpc.CreateIntent? && Call(db, id, rpc).Committed?
    requires id in Call(db, id, rpc).db.rows && i < |Call(db, id, rpc).db.rows[id].payouts|
    ensures var (ops, ops') := (db.rows[id].payouts, Call(db, id, rpc).db.rows[id].payouts);
            ops'[i].tx.Some? && !(i < |ops| && ops[i].tx == ops'[i].tx) ==>
              rpc.AcceptPayout? && ops'[i].tx == Some(rpc.tx) && ops'[i].key == Some(rpc.key)
  {
    var row := db.rows[id];
    if rpc.AcceptPayout? {
      var found := LastWhere(row.payouts, (op: Op) => op.key == Some(rpc.key) && op.status == SubmissionUncertain);
      assert found.Some?;
    }
  }

  // What a process asks to be stored with an acceptance is what the provider answered for the key.
  ghost predicate AsksKnownTx(w: World, a: Action) {
    Commits(w, a) && RequestOf(w, a).rpc.AcceptPayout? ==>
      var rpc := RequestOf(w, a).rpc; rpc.key in w.provider && w.provider[rpc.key] == rpc.tx
  }

  lemma AcceptanceIsKnown(w: World, a: Action)
    requires Sound(w)
    ensures AsksKnownTx(w, a)
  {
    if a.Resume? { assert PhaseOk(w, PhaseOf(w, a.pid)); }
  }

  lemma KnownStays(w: World, w': World, op: Op)
    requires TxKnown(w, op) && HistoriesGrow(w, w')
    ensures TxKnown(w', op)
  {
  }

  lemma SameRowsStayKnown(w: World, w': World)
    requires TxsKnown(w) && HistoriesGrow(w, w') && w'.db.rows == w.db.rows
    ensures TxsKnown(w')
  {
    forall id, i | id in w'.db.rows && 0 <= i < |w'.db.rows[id].payouts| ensures TxKnown(w', w'.db.rows[id].payouts[i]) {
      KnownStays(w, w', w.db.rows[id].payouts[i]);
    }
  }

  lemma CalledRowStaysKnown(w: World, w': World, id: IntentId, rpc: RewardSettlement.Rpc, i: nat)
    requires LedgerOk(w.db) && TxsKnown(w) && HistoriesGrow(w, w') && Call(w.db, id, rpc) == Committed(w'.db)
    requires rpc.AcceptPayout? ==> rpc.key in w.provider && w.provider[rpc.key] == rpc.tx
    requires id in w'.db.rows && i < |w'.db.rows[id].payouts|
    ensures TxKnown(w', w'.db.rows[id].payouts[i])
  {
    OneRow(w.db, id, rpc, w'.db);
    if id in w.db.rows {
      assert !rpc.CreateIntent?;
      NewTx(w.db, id, rpc, i);
      if i < |w.db.rows[id].payouts| { KnownStays(w, w', w.db.rows[id].payouts[i]); }
    }
  }

  lemma CallKeepsKnown(w: World, w': World, id: IntentId, rpc: RewardSettlement.Rpc)
    requires LedgerOk(w.db) && TxsKnown(w) && HistoriesGrow(w, w') && Call(w.db, id, rpc) == Committed(w'.db)
    requires rpc.AcceptPayout? ==> rpc.key in w.provider && w.provider[rpc.key] == rpc.tx
    ensures TxsKnown(w')
  {
    OneRow(w.db, id, rpc, w'.db);
    forall other, i | other in w'.db.rows && 0 <= i < |w'.db.rows[other].payouts| ensures TxKnown(w', w'.db.rows[other].payouts[i]) {
      if other == id {
        CalledRowStaysKnown(w, w', id, rpc, i);
      } else {
        KnownStays(w, w', w.db.rows[other].payouts[i]);
      }
    }
  }

  lemma TxsStayKnown(w: World, a: Action)
    requires LedgerOk(w.db) && AsksKnownTx(w, a) && TxsKnown(w)
    ensures TxsKnown(Next(w, a))
  {
    StepGrowsHistories(w, a);
    DbStep(w, a);
    if Commits(w, a) {
      CallKeepsKnown(w, Next(w, a), RequestOf(w, a).id, RequestOf(w, a).rpc);
    } else {
      SameRowsStayKnown(w, Next(w, a));
    }
  }

  lemma SeenStays(w: World, w': World, phase: Phase)
    requires SeenOk(w, phase) && AttemptsGrow(w.db, w'.db) && HistoriesGrow(w, w')
    ensures SeenOk(w', phase)
  {
    match phase
    case At(_, id, copy) => assert OpsExtend(w.db.rows[id].payouts, w'.db.rows[id].payouts);
    case Waiting(id, attempt, tx) => assert OpsExtend(w.db.rows[id].payouts, w'.db.rows[id].payouts);
    case ToFail(id, payout, attempt, why) =>
      if why.ProviderSaid? {
        var tx :| HasTx(w.db, id, attempt, tx) && Dead(w, tx);
        assert OpsExtend(w.db.rows[id].payouts, w'.db.rows[id].payouts);
        assert HasTx(w'.db, id, attempt, tx) && Dead(w', tx);
      }
    case _ =>
  }

  lemma BlockSees(w: World, section: Section, id: IntentId, row: Row, answer: Answer)
    requires id in w.db.rows && Earlier(row.payouts, w.db.rows[id].payouts)
    ensures SeenOk(w, Block(w, section, id, row, answer))
  {
  }

  lemma CallSees(w: World, phase: Phase)
    requires PendingCall(phase).Some?
    ensures SeenOk(w, PendingCall(phase).value.1)
  {
  }

  lemma HeardSees(w: World, pid: Pid, answer: Answer)
    requires SeenOk(w, PhaseOf(w, pid)) && PhaseOf(w, pid).Waiting?
    ensures SeenOk(w, PhaseOf(LocalStep(w, pid, answer), pid))
  {
    var p := PhaseOf(w, pid);
    assert HasTx(w.db, p.id, p.attempt, p.tx);
  }

  lemma SubmittedSees(w: World, pid: Pid, answer: Answer)
    requires PhaseOf(w, pid).ToSubmit?
    ensures SeenOk(w, PhaseOf(LocalStep(w, pid, answer), pid))
  {
  }

  lemma ReadSees(w: World, pid: Pid, answer: Answer)
    requires SeenOk(w, PhaseOf(w, pid)) && (PhaseOf(w, pid).At? || PhaseOf(w, pid).Reread?)
    ensures SeenOk(w, PhaseOf(LocalStep(w, pid, answer), pid))
  {
    match PhaseOf(w, pid)
    case At(section, id, row) => BlockSees(w, section, id, row, answer);
    case Reread(section, id) => if id in w.db.rows { FreshCopySees(w, section, id); }
  }

  lemma LocalSees(w: World, pid: Pid, answer: Answer)
    requires SeenOk(w, PhaseOf(w, pid)) && PendingCall(PhaseOf(w, pid)).None?
    ensures SeenOk(w, PhaseOf(LocalStep(w, pid, answer), pid))
  {
    var p := PhaseOf(w, pid);
    if p.At? || p.Reread? {
      ReadSees(w, pid, answer);
    } else if p.Waiting? {
      HeardSees(w, pid, answer);
    } else if p.ToSubmit? {
      SubmittedSees(w, pid, answer);
    } else {
      assert LocalStep(w, pid, answer) == w;
    }
  }

  lemma FreshCopySees(w: World, section: Section, id: IntentId)
    requires id in w.db.rows
    ensures SeenOk(w, At(section, id, w.db.rows[id]))
  {
  }

  lemma RpcSees(w: World, pid: Pid, answer: Answer)
    requires PendingCall(PhaseOf(w, pid)).Some?
    ensures SeenOk(w, PhaseOf(ResumeStep(w, pid, answer), pid))
  {
    CallSees(w, PhaseOf(w, pid));
  }

  lemma ResumeSees(w: World, pid: Pid, answer: Answer)
    requires SeenOk(w, PhaseOf(w, pid))
    ensures SeenOk(w, PhaseOf(Next(w, Resume(pid, answer)), pid))
  {
    if PendingCall(PhaseOf(w, pid)).Some? { RpcSees(w, pid, answer); } else { LocalSees(w, pid, answer); }
  }

  lemma ResumeLeavesOthers(w: World, other: Pid, answer: Answer, pid: Pid)
    requires other != pid
    ensures PhaseOf(ResumeStep(w, other, answer), pid) == PhaseOf(w, pid)
  {
    if PendingCall(PhaseOf(w, other)).None? { LocalLeavesOthers(w, other, answer, pid); }
  }

  lemma LocalLeavesOthers(w: World, other: Pid, answer: Answer, pid: Pid)
    requires other != pid
    ensures PhaseOf(LocalStep(w, other, answer), pid) == PhaseOf(w, pid)
  {
  }

  lemma OthersSee(w: World, a: Action, pid: Pid)
    requires !(a.Resume? && a.pid == pid)
    ensures PhaseOf(Next(w, a), pid) == PhaseOf(w, pid) || PhaseOf(Next(w, a), pid).Idle?
            || (a.Start? && a.id in w.db.rows && PhaseOf(Next(w, a), pid) == At(AwaitingBlock, a.id, w.db.rows[a.id]))
            || PhaseOf(Next(w, a), pid).ToObserveApproval? || PhaseOf(Next(w, a), pid).ToCancel?
  {
    if a.Resume? { ResumeLeavesOthers(w, a.pid, a.answer, pid); }
  }

  // The phase a step leaves a process in, read against the world before the step.
  lemma StepSees(w: World, a: Action, pid: Pid)
    requires SeenOk(w, PhaseOf(w, pid))
    ensures SeenOk(w, PhaseOf(Next(w, a), pid))
  {
    if a.Resume? && a.pid == pid {
      ResumeSees(w, pid, a.answer);
    } else {
      OthersSee(w, a, pid);
      if a.Start? && a.id in w.db.rows { FreshCopySees(w, AwaitingBlock, a.id); }
    }
  }

  lemma NextKeepsFence(w: World, a: Action)
    requires Safe(w) && FenceOk(w)
    ensures FenceOk(Next(w, a))
  {
    AcceptanceIsKnown(w, a);
    TxsStayKnown(w, a);
    StepGrowsHistories(w, a);
    StepGrowsAttempts(w, a);
    forall pid ensures SeenOk(Next(w, a), PhaseOf(Next(w, a), pid)) {
      StepSees(w, a, pid);
      SeenStays(w, Next(w, a), PhaseOf(Next(w, a), pid));
    }
  }

  lemma {:induction false} EveryRunIsFenceOk(actions: seq<Action>)
    ensures FenceOk(RunAll(Empty(), actions))
  {
    if actions != [] {
      EveryRunIsSafe(actions[..|actions| - 1]);
      EveryRunIsFenceOk(actions[..|actions| - 1]);
      NextKeepsFence(RunAll(Empty(), actions[..|actions| - 1]), actions[|actions| - 1]);
    }
  }

  // ---------------------------------------------------------------- who closes an attempt that may still pay

  predicate SubmitsKey(w: World, a: Action, key: Key) {
    && a.Resume? && PhaseOf(w, a.pid).ToSubmit? && PhaseOf(w, a.pid).key == key && key !in w.provider
    && a.answer.Assigned? && a.answer.tx !in w.provider.Values && a.answer.tx !in w.outcomes
  }

  // A failure heard of another attempt, or a verification that only refuted this one; or a payout by somebody else.
  ghost predicate ClosesBlindly(w: World, a: Action, id: IntentId, i: nat) {
    a.Resume? &&
    match PhaseOf(w, a.pid)
    case ToFail(target, payout, attempt, why) => target == id && payout && (attempt != i || why.Refuted?)
    case ToObserveExternal(target, e) => target == id && e.hash !in AllHashes(w.db)
    case _ => false
  }

  // On the row: what closes the open attempt.
  lemma CallClosesIff(db: Db, id: IntentId, rpc: RewardSettlement.Rpc, i: nat)
    requires id in db.rows && RowOk(db.rows[id]) && !rpc.CreateIntent? && Call(db, id, rpc).Committed?
    requires i < |db.rows[id].payouts| && Active(db.rows[id].payouts[i])
    ensures var db' := Call(db, id, rpc).db;
            && id in db'.rows && i < |db'.rows[id].payouts|
            && (db'.rows[id].payouts[i].status == Failed <==>
                  rpc == FailOperation(true) || (rpc.ObserveExternalPayout? && rpc.payoutHash !in Hashes(db.rows[id].payouts)))
  {
    var row := db.rows[id];
    assert i == |row.payouts| - 1;
    if rpc.ObserveExternalPayout? { assert FailActive(row.payouts)[i].status == Failed; }
  }

  // The attempt a call adds is open.
  lemma NewAttemptsAreOpen(db: Db, id: IntentId, rpc: RewardSettlement.Rpc, i: nat)
    requires id in db.rows && RowOk(db.rows[id]) && !rpc.CreateIntent? && Call(db, id, rpc).Committed?
    requires var db' := Call(db, id, rpc).db; id in db'.rows && i < |db'.rows[id].payouts| && db'.rows[id].payouts[i].status == Failed
    ensures i < |db.rows[id].payouts|
  {
  }

  lemma FailCommits(db: Db, id: IntentId, i: nat)
    requires id in db.rows && i < |db.rows[id].payouts| && Active(db.rows[id].payouts[i])
    ensures Call(db, id, FailOperation(true)).Committed?
  {
  }

  lemma ObserveCommits(db: Db, id: IntentId, i: nat, hash: Hash)
    requires id in db.rows && RowOk(db.rows[id]) && i < |db.rows[id].payouts| && Active(db.rows[id].payouts[i]) && hash !in AllHashes(db)
    ensures Call(db, id, ObserveExternalPayout(hash)).Committed?
  {
    assert i == |db.rows[id].payouts| - 1;
  }

  // A process that heard of the failure of this very attempt proves that it cannot pay.
  lemma HeardMeansDead(w: World, id: IntentId, attempt: nat)
    requires FenceOk(w) && SeenOk(w, ToFail(id, true, attempt, ProviderSaid))
    ensures !MayPay(w, id, attempt)
  {
    var tx :| HasTx(w.db, id, attempt, tx) && Dead(w, tx);
    assert TxKnown(w, w.db.rows[id].payouts[attempt]);
  }

  lemma BlindlyCommits(w: World, a: Action, id: IntentId, i: nat)
    requires LedgerOk(w.db) && id in w.db.rows && i < |w.db.rows[id].payouts| && Active(w.db.rows[id].payouts[i])
    requires ClosesBlindly(w, a, id, i)
    ensures Commits(w, a) && RequestOf(w, a).id == id
    ensures var rpc := RequestOf(w, a).rpc;
            rpc == FailOperation(true) || (rpc.ObserveExternalPayout? && rpc.payoutHash !in Hashes(w.db.rows[id].payouts))
  {
    FailCommits(w.db, id, i);
    match PhaseOf(w, a.pid)
    case ToFail(_, _, _, _) =>
    case ToObserveExternal(_, e) =>
      ObserveCommits(w.db, id, i, e.hash);
      HashesIn(w.db, id);
    case _ =>
  }

  lemma ClosingRequestIsBlind(w: World, a: Action, id: IntentId, i: nat)
    requires FenceOk(w) && MayPay(w, id, i) && Commits(w, a) && RequestOf(w, a).id == id
    requires var rpc := RequestOf(w, a).rpc;
             rpc == FailOperation(true) || (rpc.ObserveExternalPayout? && rpc.payoutHash !in AllHashes(w.db))
    ensures ClosesBlindly(w, a, id, i)
  {
    var p := PhaseOf(w, a.pid);
    assert SeenOk(w, p);
    if p.ToFail? && p.why.ProviderSaid? && p.attempt == i { HeardMeansDead(w, id, i); }
  }

  lemma ExternalHashIsNew(db: Db, id: IntentId, hash: Hash)
    requires id in db.rows && hash !in Hashes(db.rows[id].payouts) && Call(db, id, ObserveExternalPayout(hash)).Committed?
    ensures hash !in AllHashes(db)
  {
  }

  /** An attempt that may still pay is recorded failed by a step exactly when the step is blind to it: a
      process records a failure it heard of another attempt, or a verification that failed without the
      transaction having failed, or a payout made by somebody else. */
  lemma ClosesIff(w: World, a: Action, id: IntentId, i: nat)
    requires Safe(w) && FenceOk(w) && MayPay(w, id, i) && Active(w.db.rows[id].payouts[i])
    ensures id in Next(w, a).db.rows && i < |Next(w, a).db.rows[id].payouts|
    ensures Next(w, a).db.rows[id].payouts[i].status == Failed <==> ClosesBlindly(w, a, id, i)
  {
    DbStep(w, a);
    if ClosesBlindly(w, a, id, i) { BlindlyCommits(w, a, id, i); }
    if Commits(w, a) {
      var (target, rpc) := (RequestOf(w, a).id, RequestOf(w, a).rpc);
      OneRow(w.db, target, rpc, Next(w, a).db);
      if target == id {
        CallClosesIff(w.db, id, rpc, i);
        if rpc.ObserveExternalPayout? && rpc.payoutHash !in Hashes(w.db.rows[id].payouts) { ExternalHashIsNew(w.db, id, rpc.payoutHash); }
        if Next(w, a).db.rows[id].payouts[i].status == Failed { ClosingRequestIsBlind(w, a, id, i); }
      }
    }
  }

  // ---------------------------------------------------------------- when one becomes superseded

  // The key of an attempt that is already recorded failed reaches the provider only now.
  ghost predicate SubmitsLate(w: World, a: Action, id: IntentId, i: nat) {
    && id in w.db.rows && i < |w.db.rows[id].payouts| && w.db.rows[id].payouts[i].status == Failed
    && w.db.rows[id].payouts[i].key.Some? && SubmitsKey(w, a, w.db.rows[id].payouts[i].key.value)
  }

  ghost predicate Supersedes(w: World, a: Action, id: IntentId, i: nat) {
    (MayPay(w, id, i) && Active(w.db.rows[id].payouts[i]) && ClosesBlindly(w, a, id, i)) || SubmitsLate(w, a, id, i)
  }

  lemma LocalSubmission(w: World, pid: Pid, answer: Answer, key: Key)
    requires key in LocalStep(w, pid, answer).provider && key !in w.provider
    ensures SubmitsKey(w, Resume(pid, answer), key)
  {
  }

  lemma OnlySubmissionsAddKeys(w: World, a: Action, key: Key)
    requires key in Next(w, a).provider && key !in w.provider
    ensures SubmitsKey(w, a, key) && !Commits(w, a)
  {
    if a.Resume? && PendingCall(PhaseOf(w, a.pid)).None? { LocalSubmission(w, a.pid, a.answer, key); }
  }

  lemma SubmissionAddsKey(w: World, a: Action, key: Key)
    requires SubmitsKey(w, a, key)
    ensures var w' := Next(w, a);
            w'.db == w.db && w'.outcomes == w.outcomes && key in w'.provider && w'.provider[key] == a.answer.tx
  {
  }

  lemma CallsLeaveProvider(w: World, a: Action)
    requires a.Resume? && PendingCall(PhaseOf(w, a.pid)).Some?
    ensures Next(w, a).provider == w.provider && Next(w, a).outcomes == w.outcomes
  {
  }

  lemma FailedWasThere(w: World, a: Action, id: IntentId, i: nat)
    requires Safe(w) && Superseded(Next(w, a), id, i)
    ensures id in w.db.rows && i < |w.db.rows[id].payouts|
  {
    DbStep(w, a);
    if Commits(w, a) {
      OneRow(w.db, RequestOf(w, a).id, RequestOf(w, a).rpc, Next(w, a).db);
      if RequestOf(w, a).id == id && id in w.db.rows {
        assert !RequestOf(w, a).rpc.CreateIntent?;
        NewAttemptsAreOpen(w.db, id, RequestOf(w, a).rpc, i);
      }
    }
  }

  lemma SameRowUnlessCommit(w: World, a: Action, id: IntentId)
    requires !Commits(w, a)
    ensures Next(w, a).db.rows == w.db.rows
  {
    DbStep(w, a);
  }

  lemma SupersededComes(w: World, a: Action, id: IntentId, i: nat)
    requires Safe(w) && FenceOk(w) && Superseded(Next(w, a), id, i) && !Superseded(w, id, i)
    ensures Supersedes(w, a, id, i)
  {
    FailedWasThere(w, a, id, i);
    StepGrowsAttempts(w, a);
    StepGrowsHistories(w, a);
    var (op, op') := (w.db.rows[id].payouts[i], Next(w, a).db.rows[id].payouts[i]);
    assert OpsExtend(w.db.rows[id].payouts, Next(w, a).db.rows[id].payouts);
    assert op'.key == op.key;
    if op.key.value in w.provider {
      assert MayPay(w, id, i) && op.status != Failed;
      assert Active(op);
      ClosesIff(w, a, id, i);
    } else {
      OnlySubmissionsAddKeys(w, a, op.key.value);
      SameRowUnlessCommit(w, a, id);
    }
  }

  lemma SupersedingWorks(w: World, a: Action, id: IntentId, i: nat)
    requires Safe(w) && FenceOk(w) && Supersedes(w, a, id, i)
    ensures Superseded(Next(w, a), id, i) && !Superseded(w, id, i)
  {
    if SubmitsLate(w, a, id, i) {
      SubmissionAddsKey(w, a, w.db.rows[id].payouts[i].key.value);
    } else {
      StepGrowsAttempts(w, a);
      ClosesIff(w, a, id, i);
      CallsLeaveProvider(w, a);
      assert OpsExtend(w.db.rows[id].payouts, Next(w, a).db.rows[id].payouts);
    }
  }

  ghost predicate NoneSuperseded(w: World) {
    forall id, i :: !Superseded(w, id, i)
  }

  ghost predicate Fenced(w: World, a: Action) {
    forall id, i :: !Supersedes(w, a, id, i)
  }

  lemma StepKeepsNoneSupersededIff(w: World, a: Action)
    requires Safe(w) && FenceOk(w) && NoneSuperseded(w)
    ensures NoneSuperseded(Next(w, a)) <==> Fenced(w, a)
  {
    if NoneSuperseded(Next(w, a)) {
      forall id, i ensures !Supersedes(w, a, id, i) {
        if Supersedes(w, a, id, i) { SupersedingWorks(w, a, id, i); }
      }
    }
    if Fenced(w, a) {
      forall id, i ensures !Superseded(Next(w, a), id, i) {
        if Superseded(Next(w, a), id, i) { SupersededComes(w, a, id, i); }
      }
    }
  }

  ghost predicate NoneSupersededThroughout(actions: seq<Action>) {
    NoneSuperseded(RunAll(Empty(), actions)) && (actions != [] ==> NoneSupersededThroughout(actions[..|actions| - 1]))
  }

  ghost predicate FencedThroughout(actions: seq<Action>) {
    actions != [] ==>
      FencedThroughout(actions[..|actions| - 1]) && Fenced(RunAll(Empty(), actions[..|actions| - 1]), actions[|actions| - 1])
  }

  /** At every moment of a run, every attempt recorded failed has a transaction that failed or was never
      submitted, if and only if no step of the run closed an attempt blindly or submitted a closed one late. */
  lemma {:induction false} NoneSupersededIff(actions: seq<Action>)
    ensures NoneSupersededThroughout(actions) <==> FencedThroughout(actions)
  {
    if actions == [] {
      assert NoneSuperseded(Empty());
    } else {
      var front := actions[..|actions| - 1];
      NoneSupersededIff(front);
      if NoneSupersededThroughout(front) {
        EveryRunIsSafe(front);
        EveryRunIsFenceOk(front);
        StepKeepsNoneSupersededIff(RunAll(Empty(), front), actions[|actions| - 1]);
      }
    }
  }

  lemma OnlyNewestMayPay(w: World, id: IntentId, i: nat)
    requires LedgerOk(w.db) && NoneSuperseded(w) && MayPay(w, id, i)
    ensures i == |w.db.rows[id].payouts| - 1
  {
    assert RowOk(w.db.rows[id]) && !Superseded(w, id, i);
  }

  /** And then no two submissions of an intent may pay at once. */
  lemma AtMostOneLiveSubmission(actions: seq<Action>, id: IntentId, i: nat, j: nat)
    requires FencedThroughout(actions)
    requires MayPay(RunAll(Empty(), actions), id, i) && MayPay(RunAll(Empty(), actions), id, j)
    ensures i == j
  {
    NoneSupersededIff(actions);
    EveryRunIsSafe(actions);
    OnlyNewestMayPay(RunAll(Empty(), actions), id, i);
    OnlyNewestMayPay(RunAll(Empty(), actions), id, j);
  }
}
