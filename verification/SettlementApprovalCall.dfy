/** One whole undisturbed `reconcile` call for an intent that still waits for its approval: exactly when it finds and
    confirms the approval on chain and goes on to settle the payout. */
module SettlementApprovalCall {
  import opened Options
  import opened RewardSettlement
  import opened SettlementDrivers
  import opened SettlementRuns
  import opened SettlementCall
  import Fate = SettlementFate
  import Procedures = SettlementProcedures
  import Recovery = SettlementRecovery

  // The chain's approval is the one the newest attempt stands for: its hash, or a hash nobody has for an attempt
  // that was never heard of again.
  predicate ApprovalLands(w: World, id: IntentId)
    requires id in w.db.rows
  {
    var (row, last) := (w.db.rows[id], Last(w.db.rows[id].approvals));
    && id in w.approved && last.Some?
    && (row.status == ApprovalSubmitted ==> last.value.hash == Some(w.approved[id].hash))
    && (row.status == AwaitingApproval ==> last.value.status == SubmissionUncertain && w.approved[id].hash !in AllHashes(w.db))
  }

  /** What decides whether the call settles the payout: its approval lands, and the payout the chain shows is made
      under a hash nobody has, is the intent's own and matches the pools. */
  predicate SettlesAfterApproval(w: World, id: IntentId, g: Given)
    requires id in w.db.rows
  {
    var hash := Shown(w, id, g).evidence.hash;
    && ApprovalLands(w, id) && hash !in AllHashes(w.db) && hash != w.approved[id].hash
    && Settleable(w.db, w.db.rows[id], Shown(w, id, g))
  }

  // The same for an approval that is submitted under the hash the chain shows.
  predicate SettlesOnce(w: World, id: IntentId, g: Given)
    requires id in w.db.rows
  {
    Shown(w, id, g).evidence.hash !in AllHashes(w.db) && Settleable(w.db, w.db.rows[id], Shown(w, id, g))
  }

  predicate HasApproval(w: World, id: IntentId)
    requires id in w.db.rows
  {
    w.db.rows[id].status == ApprovalSubmitted && id in w.approved
    && Last(w.db.rows[id].approvals).Some? && Last(w.db.rows[id].approvals).value.hash == Some(w.approved[id].hash)
  }

  // ---------------------------------------------------------------- confirming the approval

  // The row with its newest approval confirmed there.
  function ApprovedRow(row: Row, place: nat): Row
    requires row.approvals != []
  {
    var n := |row.approvals| - 1;
    row.(approvals := row.approvals[n := row.approvals[n].(status := Confirmed, place := Some(place))], report := RewardApproved, status := ReadyForPayout)
  }

  lemma ApprovalCommits(db: Db, id: IntentId, approval: ChainApproval)
    requires id in db.rows && RowOk(db.rows[id]) && db.rows[id].status == ApprovalSubmitted
    requires Last(db.rows[id].approvals).Some? && Last(db.rows[id].approvals).value.hash == Some(approval.hash)
    ensures Call(db, id, ConfirmApproval(approval.hash, approval.place))
            == Committed(db.(rows := db.rows[id := ApprovedRow(db.rows[id], approval.place)]))
    ensures RowOk(ApprovedRow(db.rows[id], approval.place)) && ApprovedRow(db.rows[id], approval.place).payouts == []
  {
    var ops := db.rows[id].approvals;
    assert ops[|ops| - 1].status == Submitted;
    assert LastWhere(ops, (op: Op) => op.hash == Some(approval.hash) && op.status == Submitted) == Some(|ops| - 1);
    ConfirmApprovalRowStep(db.rows[id], approval.hash, approval.place);
  }

  lemma ApprovedKeeps(w: World, w1: World, id: IntentId, g: Given, place: nat)
    requires id in w.db.rows && RowOk(w.db.rows[id]) && w.db.rows[id].status == ApprovalSubmitted && w.db.rows[id].approvals != []
    requires w1 == WithRow(w, id, ApprovedRow(w.db.rows[id], place))
    ensures AllHashes(w1.db) == AllHashes(w.db) && AllTxs(w1.db) <= AllTxs(w.db)
    ensures Settleable(w1.db, w1.db.rows[id], Shown(w1, id, g)) <==> Settleable(w.db, w.db.rows[id], Shown(w, id, g))
  {
    var row' := ApprovedRow(w.db.rows[id], place);
    OpHashes(w.db.rows[id].approvals, row'.approvals);
    SameHashesAs(w.db, w1.db, id, row');
    SamePools(w.db, w1.db, w.db.rows[id], row', Shown(w, id, g));
    forall tx | tx in AllTxs(w1.db) ensures tx in AllTxs(w.db) {
      var other, i :| other in w1.db.rows && 0 <= i < |w1.db.rows[other].payouts| && w1.db.rows[other].payouts[i].tx == Some(tx);
      assert i < |w.db.rows[other].payouts| && w.db.rows[other].payouts[i].tx == Some(tx);
    }
  }

  // With no attempt yet, nothing but the hash stands in the way.
  lemma NoAttemptYet(w: World, id: IntentId, g: Given)
    requires id in w.db.rows && RowOk(w.db.rows[id]) && w.db.rows[id].status == ReadyForPayout && w.db.rows[id].payouts == []
    ensures MeetsNoObstacle(w, id, g) <==> SettlesOnce(w, id, g)
  {
    var row := w.db.rows[id];
    if id in w.chain {
      ExternalSettlesIff(w, id);
      assert Hashes(row.payouts) == {};
    }
  }

  lemma AfterApprovalEnds(w: World, pid: Pid, g: Given, id: IntentId, pays: bool) returns (k: nat)
    requires id in w.db.rows && RowOk(w.db.rows[id]) && Payable(w.db.rows[id].status) && g.key !in Keys(w.db.rows[id].payouts) && IsFresh(w, g)
    requires pays <==> MeetsNoObstacle(w, id, g)
    ensures k <= 15 && Ends(Enter(w, pid, At(ExternalAfterApproval, id, w.db.rows[id])), pid, g, id, k, pays, Shown(w, id, g).evidence.hash)
  {
    if id in w.chain {
      k := FoundEnds(w, pid, g, ExternalAfterApproval, id, pays);
    } else {
      var j := ExternalEnds(w, pid, g, id, pays);
      BlockEnds(w, pid, g, ExternalAfterApproval, id, w.db.rows[id], At(ExternalBlock, id, w.db.rows[id]), j, pays, g.payout.evidence.hash);
      k := j + 1;
    }
  }

  lemma ApprovedEnds(w: World, w1: World, pid: Pid, g: Given, id: IntentId, place: nat, pays: bool) returns (k: nat)
    requires id in w.db.rows && RowOk(w.db.rows[id]) && w.db.rows[id].status == ApprovalSubmitted && w.db.rows[id].approvals != []
    requires w1 == WithRow(w, id, ApprovedRow(w.db.rows[id], place)) && id in w1.db.rows && RowOk(w1.db.rows[id]) && w1.db.rows[id].payouts == []
    requires IsFresh(w, g) && (pays <==> SettlesOnce(w, id, g))
    ensures k <= 16 && Ends(Enter(w1, pid, Reread(ExternalAfterApproval, id)), pid, g, id, k, pays, Shown(w, id, g).evidence.hash)
  {
    ApprovedKeeps(w, w1, id, g, place);
    NoAttemptYet(w1, id, g);
    var j := AfterApprovalEnds(w1, pid, g, id, pays);
    RereadEnds(w1, pid, g, ExternalAfterApproval, id, j, pays, Shown(w, id, g).evidence.hash);
    k := j + 1;
  }

  lemma ConfirmationGoesOn(w: World, w1: World, pid: Pid, g: Given, id: IntentId, j: nat, pays: bool, shown: Hash)
    requires id in w.db.rows && RowOk(w.db.rows[id]) && HasApproval(w, id)
    requires w1 == WithRow(w, id, ApprovedRow(w.db.rows[id], w.approved[id].place))
    requires Ends(Enter(w1, pid, Reread(ExternalAfterApproval, id)), pid, g, id, j, pays, shown)
    ensures Ends(Enter(w, pid, ToConfirmApproval(id, w.approved[id].hash, w.approved[id].place)), pid, g, id, j + 1, pays, shown)
  {
    ApprovalCommits(w.db, id, w.approved[id]);
    CallEnds(w, pid, g, ToConfirmApproval(id, w.approved[id].hash, w.approved[id].place), id, w1.db, j, pays, shown);
  }

  lemma SubmittedEnds(w: World, pid: Pid, g: Given, id: IntentId, pays: bool) returns (k: nat)
    requires id in w.db.rows && RowOk(w.db.rows[id]) && HasApproval(w, id) && IsFresh(w, g) && (pays <==> SettlesOnce(w, id, g))
    ensures k <= 18 && Ends(Enter(w, pid, At(ApprovalBlock, id, w.db.rows[id])), pid, g, id, k, pays, Shown(w, id, g).evidence.hash)
  {
    var (row, approval, shown) := (w.db.rows[id], w.approved[id], Shown(w, id, g).evidence.hash);
    var w1 := WithRow(w, id, ApprovedRow(row, approval.place));
    ApprovalCommits(w.db, id, approval);
    var j := ApprovedEnds(w, w1, pid, g, id, approval.place, pays);
    ConfirmationGoesOn(w, w1, pid, g, id, j, pays, shown);
    FoundApprovalGoesOn(w, pid, g, id, row, approval, j + 1, pays, shown);
    k := j + 2;
  }

  lemma FoundApprovalGoesOn(w: World, pid: Pid, g: Given, id: IntentId, row: Row, approval: ChainApproval, j: nat, pays: bool, shown: Hash)
    requires row.status == ApprovalSubmitted && id in w.approved && w.approved[id] == approval
    requires Last(row.approvals).Some? && Last(row.approvals).value.status == Submitted && Last(row.approvals).value.hash == Some(approval.hash)
    requires Ends(Enter(w, pid, ToConfirmApproval(id, approval.hash, approval.place)), pid, g, id, j, pays, shown)
    ensures Ends(Enter(w, pid, At(ApprovalBlock, id, row)), pid, g, id, j + 1, pays, shown)
  {
    BlockEnds(w, pid, g, ApprovalBlock, id, row, ToConfirmApproval(id, approval.hash, approval.place), j, pays, shown);
  }

  // An approval that is not, or not yet, on chain under that hash.
  lemma UnapprovedEnds(w: World, pid: Pid, g: Given, id: IntentId, shown: Hash)
    requires id in w.db.rows && w.db.rows[id].status == ApprovalSubmitted && !HasApproval(w, id)
    ensures Ends(Enter(w, pid, At(ApprovalBlock, id, w.db.rows[id])), pid, g, id, 1, false, shown)
  {
    IdleEnds(w, pid, g, id, shown);
    BlockEnds(w, pid, g, ApprovalBlock, id, w.db.rows[id], Idle, 0, false, shown);
  }

  lemma ApprovalSubmittedEnds(w: World, pid: Pid, g: Given, id: IntentId, pays: bool) returns (k: nat)
    requires id in w.db.rows && RowOk(w.db.rows[id]) && w.db.rows[id].status == ApprovalSubmitted && IsFresh(w, g)
    requires pays <==> HasApproval(w, id) && SettlesOnce(w, id, g)
    ensures k <= 18 && Ends(Enter(w, pid, At(ApprovalBlock, id, w.db.rows[id])), pid, g, id, k, pays, Shown(w, id, g).evidence.hash)
  {
    if HasApproval(w, id) {
      k := SubmittedEnds(w, pid, g, id, pays);
    } else {
      UnapprovedEnds(w, pid, g, id, Shown(w, id, g).evidence.hash);
      k := 1;
    }
  }

  // ---------------------------------------------------------------- finding an approval nobody reported

  // A signature was asked for and nothing was heard of it, and the chain has the approval.
  predicate Recovers(w: World, id: IntentId)
    requires id in w.db.rows
  {
    && w.db.rows[id].status == AwaitingApproval && id in w.approved
    && Last(w.db.rows[id].approvals).Some? && Last(w.db.rows[id].approvals).value.status == SubmissionUncertain
  }

  lemma ReportedAdds(w: World, w1: World, id: IntentId, g: Given)
    requires id in w.db.rows && RowOk(w.db.rows[id]) && Recovers(w, id)
    requires w1 == WithRow(w, id, Recovery.Reported(w.db.rows[id], w.approved[id].hash))
    ensures AllHashes(w1.db) == AllHashes(w.db) + {w.approved[id].hash} && AllTxs(w1.db) <= AllTxs(w.db)
    ensures Settleable(w1.db, w1.db.rows[id], Shown(w1, id, g)) <==> Settleable(w.db, w.db.rows[id], Shown(w, id, g))
  {
    var (row, hash) := (w.db.rows[id], w.approved[id].hash);
    var row' := Recovery.Reported(row, hash);
    Recovery.ReportedFacts(row, hash);
    SamePools(w.db, w1.db, row, row', Shown(w, id, g));
    forall tx | tx in AllTxs(w1.db) ensures tx in AllTxs(w.db) {
      var other, i :| other in w1.db.rows && 0 <= i < |w1.db.rows[other].payouts| && w1.db.rows[other].payouts[i].tx == Some(tx);
      assert i < |w.db.rows[other].payouts| && w.db.rows[other].payouts[i].tx == Some(tx);
    }
    ReportedHashSet(w.db, w1.db, id, hash);
  }

  lemma ReportedApprovals(row: Row, hash: Hash)
    requires RowOk(row) && row.status == AwaitingApproval && Last(row.approvals).Some? && Last(row.approvals).value.status == SubmissionUncertain
    ensures var ops' := Recovery.Reported(row, hash).approvals; Hashes(ops') == Hashes(row.approvals) + {hash}
  {
    var (ops, n) := (row.approvals, |row.approvals| - 1);
    assert LastWhere(ops, (op: Op) => op.status == SubmissionUncertain) == Some(n);
    var ops' := Recovery.Reported(row, hash).approvals;
    assert ops[n].hash.None? && ops'[n].hash == Some(hash);
    forall h | h in Hashes(ops) ensures h in Hashes(ops') {
      var i :| 0 <= i < |ops| && ops[i].hash == Some(h);
      assert ops'[i].hash == Some(h);
    }
    Recovery.ReportedHashes(row, hash);
  }

  lemma ReportedHashSet(db: Db, db': Db, id: IntentId, hash: Hash)
    requires id in db.rows && RowOk(db.rows[id]) && db.rows[id].status == AwaitingApproval
    requires Last(db.rows[id].approvals).Some? && Last(db.rows[id].approvals).value.status == SubmissionUncertain
    requires db'.rows == db.rows[id := Recovery.Reported(db.rows[id], hash)]
    ensures AllHashes(db') == AllHashes(db) + {hash}
  {
    ReportedApprovals(db.rows[id], hash);
    assert db'.rows[id].payouts == db.rows[id].payouts;
    forall h ensures h in AllHashes(db') <==> h in AllHashes(db) + {hash} {
      if h in AllHashes(db') {
        var other :| other in db'.rows && h in Hashes(db'.rows[other].approvals) + Hashes(db'.rows[other].payouts);
        assert h == hash || h in Hashes(db.rows[other].approvals) + Hashes(db.rows[other].payouts);
      }
      if h in AllHashes(db) {
        var other :| other in db.rows && h in Hashes(db.rows[other].approvals) + Hashes(db.rows[other].payouts);
        assert h in Hashes(db'.rows[other].approvals) + Hashes(db'.rows[other].payouts);
      }
      if h == hash { assert h in Hashes(db'.rows[id].approvals) + Hashes(db'.rows[id].payouts); }
    }
  }

  lemma ReportedHasApproval(w: World, w1: World, id: IntentId)
    requires id in w.db.rows && RowOk(w.db.rows[id]) && Recovers(w, id)
    requires w1 == WithRow(w, id, Recovery.Reported(w.db.rows[id], w.approved[id].hash))
    ensures id in w1.db.rows && RowOk(w1.db.rows[id]) && HasApproval(w1, id)
  {
    Recovery.ReportedFacts(w.db.rows[id], w.approved[id].hash);
  }

  lemma RecoveredEnds(w: World, w1: World, pid: Pid, g: Given, id: IntentId, pays: bool) returns (k: nat)
    requires id in w.db.rows && RowOk(w.db.rows[id]) && Recovers(w, id) && w.approved[id].hash !in AllHashes(w.db) && IsFresh(w, g)
    requires w1 == WithRow(w, id, Recovery.Reported(w.db.rows[id], w.approved[id].hash))
    requires pays <==> SettlesOnce(w, id, g) && Shown(w, id, g).evidence.hash != w.approved[id].hash
    ensures k <= 19 && Ends(Enter(w1, pid, Reread(ApprovalBlock, id)), pid, g, id, k, pays, Shown(w, id, g).evidence.hash)
  {
    ReportedHasApproval(w, w1, id);
    ReportedAdds(w, w1, id, g);
    var j := SubmittedEnds(w1, pid, g, id, pays);
    RereadEnds(w1, pid, g, ApprovalBlock, id, j, pays, Shown(w, id, g).evidence.hash);
    k := j + 1;
  }

  lemma ReportRejected(db: Db, id: IntentId, hash: Hash)
    requires id in db.rows && db.rows[id].status == AwaitingApproval && hash in AllHashes(db)
    ensures Call(db, id, ObserveApproval(true, Some(hash))).Rejected?
  {
  }

  lemma ObserveApprovalEnds(w: World, pid: Pid, g: Given, id: IntentId, pays: bool) returns (k: nat)
    requires id in w.db.rows && RowOk(w.db.rows[id]) && Recovers(w, id) && IsFresh(w, g)
    requires pays <==> w.approved[id].hash !in AllHashes(w.db) && SettlesOnce(w, id, g) && Shown(w, id, g).evidence.hash != w.approved[id].hash
    ensures k <= 20 && Ends(Enter(w, pid, ToObserveApproval(id, w.approved[id].hash)), pid, g, id, k, pays, Shown(w, id, g).evidence.hash)
  {
    var (hash, shown) := (w.approved[id].hash, Shown(w, id, g).evidence.hash);
    if hash in AllHashes(w.db) {
      ReportRejected(w.db, id, hash);
      RejectionEnds(w, pid, g, ToObserveApproval(id, hash), id, shown);
      k := 1;
    } else {
      var w1 := WithRow(w, id, Recovery.Reported(w.db.rows[id], hash));
      Recovery.ReportCommits(w.db, id, hash);
      var j := RecoveredEnds(w, w1, pid, g, id, pays);
      CallEnds(w, pid, g, ToObserveApproval(id, hash), id, w1.db, j, pays, shown);
      k := j + 1;
    }
  }

  lemma AwaitingEnds(w: World, pid: Pid, g: Given, id: IntentId, pays: bool) returns (k: nat)
    requires id in w.db.rows && RowOk(w.db.rows[id]) && w.db.rows[id].status == AwaitingApproval && IsFresh(w, g)
    requires pays <==> Recovers(w, id) && w.approved[id].hash !in AllHashes(w.db) && SettlesOnce(w, id, g) && Shown(w, id, g).evidence.hash != w.approved[id].hash
    ensures k <= 21 && Ends(Enter(w, pid, At(AwaitingBlock, id, w.db.rows[id])), pid, g, id, k, pays, Shown(w, id, g).evidence.hash)
  {
    var (row, shown) := (w.db.rows[id], Shown(w, id, g).evidence.hash);
    if Recovers(w, id) {
      var j := ObserveApprovalEnds(w, pid, g, id, pays);
      BlockEnds(w, pid, g, AwaitingBlock, id, row, ToObserveApproval(id, w.approved[id].hash), j, pays, shown);
      k := j + 1;
    } else {
      IdleEnds(w, pid, g, id, shown);
      BlockEnds(w, pid, g, AwaitingBlock, id, row, Idle, 0, false, shown);
      k := 1;
    }
  }

  // ---------------------------------------------------------------- the whole call

  lemma SubmittedMeansFree(w: World, id: IntentId, g: Given)
    requires id in w.db.rows && w.db.rows[id].status == ApprovalSubmitted
    ensures SettlesAfterApproval(w, id, g) <==> HasApproval(w, id) && SettlesOnce(w, id, g)
  {
    if HasApproval(w, id) {
      var ops := w.db.rows[id].approvals;
      assert ops[|ops| - 1].hash == Some(w.approved[id].hash);
      assert w.approved[id].hash in Hashes(w.db.rows[id].approvals) + Hashes(w.db.rows[id].payouts);
    }
  }

  lemma SoftCallEnds(w: World, pid: Pid, g: Given, id: IntentId, pays: bool) returns (k: nat)
    requires id in w.db.rows && RowOk(w.db.rows[id]) && Soft(w.db.rows[id].status) && IsFresh(w, g)
    requires pays <==> SettlesAfterApproval(w, id, g)
    ensures k <= 21 && Ends(Enter(w, pid, At(AwaitingBlock, id, w.db.rows[id])), pid, g, id, k, pays, Shown(w, id, g).evidence.hash)
  {
    var (row, shown) := (w.db.rows[id], Shown(w, id, g).evidence.hash);
    if row.status == AwaitingApproval {
      k := AwaitingEnds(w, pid, g, id, pays);
    } else {
      SubmittedMeansFree(w, id, g);
      var j := ApprovalSubmittedEnds(w, pid, g, id, pays);
      BlockEnds(w, pid, g, AwaitingBlock, id, row, At(ApprovalBlock, id, row), j, pays, shown);
      k := j + 1;
    }
  }

  lemma GoodSoftCall(w: World, pid: Pid, id: IntentId, g: Given)
    requires LedgerOk(w.db) && PhaseOf(w, pid).Idle? && id in w.db.rows && Soft(w.db.rows[id].status) && IsFresh(w, g)
    ensures AtRest(WholeCall(w, pid, id, g), pid, id, SettlesAfterApproval(w, id, g), Shown(w, id, g).evidence.hash)
  {
    Recovery.RowIsOk(w.db, id);
    var k := SoftCallEnds(w, pid, g, id, SettlesAfterApproval(w, id, g));
    StartEnters(w, pid, id);
    RestEnds(Enter(w, pid, At(AwaitingBlock, id, w.db.rows[id])), pid, g, id, k, AWAITS, SettlesAfterApproval(w, id, g), Shown(w, id, g).evidence.hash);
  }

  /** In every reachable world, an undisturbed call for an intent that waits for its approval ends with the payout
      settled, under its own transaction, if and only if: the chain has the approval, under the hash of the submitted
      attempt, or, when the newest attempt was never heard of, under a hash nobody has; the payout the chain has made,
      or makes when it is relayed, has a hash nobody has either; and that event is the intent's own, with consistent
      counters that match the pools. */
  lemma ApprovingCallPaysIff(actions: seq<Action>, pid: Pid, id: IntentId, g: Given)
    requires var w := RunAll(Empty(), actions);
             PhaseOf(w, pid).Idle? && id in w.db.rows && Soft(w.db.rows[id].status) && IsFresh(w, g)
    ensures var (w, w') := (RunAll(Empty(), actions), WholeCall(RunAll(Empty(), actions), pid, id, g));
            && PhaseOf(w', pid).Idle? && id in w'.db.rows
            && (w'.db.rows[id].status == PaidOut <==> SettlesAfterApproval(w, id, g))
            && (SettlesAfterApproval(w, id, g) ==> Last(w'.db.rows[id].payouts).Some? && Last(w'.db.rows[id].payouts).value.hash == Some(Shown(w, id, g).evidence.hash))
  {
    var w := RunAll(Empty(), actions);
    ReachableIsSafe(actions, w);
    GoodSoftCall(w, pid, id, g);
  }

  // ---------------------------------------------------------------- cancelling

  lemma CancelRequests(w: World, pid: Pid, id: IntentId)
    requires PhaseOf(w, pid).Idle? && id in w.db.rows
    ensures RequestOf(Next(w, Cancel(pid, id)), Resume(pid, Nothing))
            == Request(id, if id in w.approved then ObserveApproval(true, Some(w.approved[id].hash)) else CancelIntent)
    ensures Next(w, Cancel(pid, id)).db == w.db
  {
  }

  lemma CancelDb(w: World, pid: Pid, id: IntentId)
    requires PhaseOf(w, pid).Idle? && id in w.db.rows
    ensures var r := Call(w.db, id, if id in w.approved then ObserveApproval(true, Some(w.approved[id].hash)) else CancelIntent);
            Next(Next(w, Cancel(pid, id)), Resume(pid, Nothing)).db == if r.Committed? then r.db else w.db
  {
    CancelRequests(w, pid, id);
    DbStep(Next(w, Cancel(pid, id)), Resume(pid, Nothing));
  }

  /** In every reachable world, cancelling an intent ends it if and only if the chain has no approval and the intent
      waits without an open attempt; an approval that is there is reported instead, if nobody has its transaction. */
  lemma CancelEndsIff(actions: seq<Action>, pid: Pid, id: IntentId)
    requires var w := RunAll(Empty(), actions); PhaseOf(w, pid).Idle? && id in w.db.rows && Live(w.db.rows[id].status)
    ensures var (w, w') := (RunAll(Empty(), actions), Next(Next(RunAll(Empty(), actions), Cancel(pid, id)), Resume(pid, Nothing)));
            && id in w'.db.rows
            && (w'.db.rows[id].status == FailedIntent <==>
                  id !in w.approved && w.db.rows[id].status == AwaitingApproval && Procedures.Closed(w.db.rows[id].approvals))
            && (id in w.approved && w.db.rows[id].status == AwaitingApproval && w.approved[id].hash !in AllHashes(w.db) ==>
                  w'.db.rows[id].status == ApprovalSubmitted && Last(w'.db.rows[id].approvals).Some? && Last(w'.db.rows[id].approvals).value.hash == Some(w.approved[id].hash))
  {
    var w := RunAll(Empty(), actions);
    ReachableIsSafe(actions, w);
    Recovery.RowIsOk(w.db, id);
    CancelDb(w, pid, id);
    CancelEnds(w, id);
  }

  lemma CancelEnds(w: World, id: IntentId)
    requires LedgerOk(w.db) && id in w.db.rows && RowOk(w.db.rows[id]) && Live(w.db.rows[id].status)
    ensures var r := Call(w.db, id, if id in w.approved then ObserveApproval(true, Some(w.approved[id].hash)) else CancelIntent);
            var db' := if r.Committed? then r.db else w.db;
            && id in db'.rows
            && (db'.rows[id].status == FailedIntent <==>
                  id !in w.approved && w.db.rows[id].status == AwaitingApproval && Procedures.Closed(w.db.rows[id].approvals))
            && (id in w.approved && w.db.rows[id].status == AwaitingApproval && w.approved[id].hash !in AllHashes(w.db) ==>
                  db'.rows[id].status == ApprovalSubmitted && Last(db'.rows[id].approvals).Some? && Last(db'.rows[id].approvals).value.hash == Some(w.approved[id].hash))
  {
    if id in w.approved {
      Procedures.ReportApprovalIs(w.db, id, w.approved[id].hash);
    } else {
      Fate.AmountIsReserved(w.db, id);
      Procedures.CancelIs(w.db, id);
    }
  }
}
