/** Safety of concurrent funding reconciliation: one completion, one live sync transaction, stored keys only,
    and exactly one kind of write by a process whose lease was taken over: recording a reverted destination. */
module FundingReconciliationSafety {
  import opened Options
  import opened FundingReconciliation

  ghost predicate Dead(w: World, tx: TxId) {
    tx in w.outcomes && w.outcomes[tx] != Mined(false)
  }

  ghost predicate KeysOk(w: World) {
    && w.row.keys != []
    && (forall i, j :: 0 <= i < j < |w.row.keys| ==> w.row.keys[i] != w.row.keys[j])
    && (forall key :: key in w.provider ==> key in w.row.keys)
    && (forall a, b :: a in w.provider && b in w.provider && a != b ==> w.provider[a] != w.provider[b])
    && (forall i :: 0 <= i < |w.row.keys| - 1 ==> w.row.keys[i] in w.provider && Dead(w, w.provider[w.row.keys[i]]))
  }

  // Attempt i was made with key i; all but a stored current one are closed as failed.
  ghost predicate OpsOk(w: World) {
    && |w.row.ops| == |w.row.keys| - (if w.row.tx.Some? then 0 else 1)
    && (forall i :: 0 <= i < |w.row.ops| ==> w.row.keys[i] in w.provider && w.row.ops[i].tx == w.provider[w.row.keys[i]])
    && (forall i :: 0 <= i < |w.row.keys| - 1 ==> w.row.ops[i].status.Failed?)
    && (w.row.tx.Some? ==>
          w.row.ops != [] && w.row.ops[|w.row.ops| - 1] == SyncOp(w.row.tx.value, if w.row.status.Complete? then Confirmed else Pending))
  }

  ghost predicate CompletionOk(w: World) {
    if w.row.status.Complete? then
      && w.row.lease.None? && w.row.tx.Some? && w.row.dest.Some? && w.row.dest.value !in w.reverted
      && |w.row.completions| == 1 && w.row.completions[0].0 == w.row.tx.value && InBounds(w.row, w.row.completions[0].1)
      && w.row.tx.value in w.outcomes && w.outcomes[w.row.tx.value] == Mined(false)
    else w.row.completions == []
  }

  ghost predicate RowOk(w: World) {
    KeysOk(w) && OpsOk(w) && CompletionOk(w) && (w.row.lease.Some? ==> w.row.lease.value.id in w.leases)
  }

  ghost predicate Owns(w: World, pid: Pid, lease: LeaseId) {
    lease in w.leases && w.leases[lease] == pid
  }

  // The destination the process read is still the row's, unless the chain reverted it.
  ghost predicate DestOk(w: World, dest: Hash) {
    dest in w.reverted || w.row.dest == Some(dest)
  }

  ghost predicate Verified(w: World, dest: Hash, net: nat) {
    dest !in w.reverted && w.row.dest == Some(dest) && InBounds(w.row, net)
  }

  ghost predicate StatusUnder(w: World, lease: LeaseId, marked: bool) {
    Holds(w.row, lease) ==> w.row.status == if marked then SyncingPool else VerifyingDestination
  }

  ghost predicate Stored(w: World, lease: LeaseId, tx: TxId) {
    Holds(w.row, lease) ==> w.row.tx == Some(tx)
  }

  ghost predicate KeyOk(w: World, lease: LeaseId, key: Key) {
    key in w.row.keys && (Holds(w.row, lease) ==> key == w.row.keys[|w.row.keys| - 1])
  }

  ghost predicate PhaseOk(w: World, pid: Pid, p: Phase) {
    match p
    case Idle => true
    case Claiming(_, dest) => DestOk(w, dest)
    case Verifying(lease, _, dest) =>
      Owns(w, pid, lease) && DestOk(w, dest) && (dest !in w.reverted ==> StatusUnder(w, lease, false))
    case Marking(lease, dest, net) => Owns(w, pid, lease) && Verified(w, dest, net) && StatusUnder(w, lease, false)
    case Rereading(lease, dest, net, marked) => Owns(w, pid, lease) && Verified(w, dest, net) && StatusUnder(w, lease, marked)
    case Submitting(lease, dest, net, marked, key) =>
      Owns(w, pid, lease) && Verified(w, dest, net) && StatusUnder(w, lease, marked) && KeyOk(w, lease, key)
    case Storing(lease, dest, net, marked, key, tx) =>
      && Owns(w, pid, lease) && Verified(w, dest, net) && StatusUnder(w, lease, marked) && KeyOk(w, lease, key)
      && key in w.provider && w.provider[key] == tx
    case CheckingStored(lease, dest, net, tx) => Owns(w, pid, lease) && Verified(w, dest, net)
    case Waiting(lease, dest, net, tx) => Owns(w, pid, lease) && Verified(w, dest, net) && Stored(w, lease, tx)
    case VerifyingSync(lease, dest, net, tx) => Owns(w, pid, lease) && Verified(w, dest, net) && Stored(w, lease, tx)
    case FailingSync(lease, tx) => Owns(w, pid, lease) && Dead(w, tx) && Stored(w, lease, tx)
    case Completing(lease, dest, net, tx, postTotal) =>
      && Owns(w, pid, lease) && Verified(w, dest, net) && Stored(w, lease, tx)
      && tx in w.outcomes && w.outcomes[tx] == Mined(false)
    case RevertingDestination(lease, dest) => Owns(w, pid, lease) && dest in w.reverted
  }

  ghost predicate PhasesOk(w: World) {
    forall pid :: PhaseOk(w, pid, PhaseOf(w, pid))
  }

  ghost predicate Safe(w: World) {
    RowOk(w) && PhasesOk(w)
  }

  // ---------------------------------------------------------------- what one step leaves alone

  function LeaseOf(p: Phase): Option<LeaseId> {
    match p
    case Idle => None
    case Claiming(_, _) => None
    case _ => Some(p.lease)
  }

  // Maps only gain entries, amounts are fixed, and a destination the chain did not revert stays.
  ghost predicate Grows(w: World, w': World) {
    && w'.reverted == w.reverted
    && (forall key :: key in w.provider ==> key in w'.provider && w'.provider[key] == w.provider[key])
    && (forall tx :: tx in w.outcomes ==> tx in w'.outcomes && w'.outcomes[tx] == w.outcomes[tx])
    && (forall lease :: lease in w.leases ==> lease in w'.leases && w'.leases[lease] == w.leases[lease])
    && w'.row.gross == w.row.gross && w'.row.fee == w.row.fee && w'.row.preTotal == w.row.preTotal
    && w.row.keys <= w'.row.keys
    && (w.row.dest.Some? && w.row.dest.value !in w.reverted ==> w'.row.dest == w.row.dest)
  }

  // A lease that is still held guards the row against everyone else.
  ghost predicate Guarded(w: World, w': World, lease: LeaseId) {
    Holds(w'.row, lease) ==>
      && Holds(w.row, lease) && w'.row.tx == w.row.tx && w'.row.keys == w.row.keys
      && (w.row.dest.Some? && w.row.dest.value !in w.reverted ==> w'.row.status == w.row.status)
  }

  lemma PhaseStays(w: World, w': World, pid: Pid, p: Phase)
    requires PhaseOk(w, pid, p) && Grows(w, w')
    requires LeaseOf(p).Some? ==> Guarded(w, w', LeaseOf(p).value)
    ensures PhaseOk(w', pid, p)
  {
  }

  // A step of one process: the others keep their phases if it grows the world and respects their leases.
  lemma OthersStay(w: World, w': World, pid: Pid)
    requires PhasesOk(w) && Grows(w, w')
    requires forall q :: q != pid ==> PhaseOf(w', q) == PhaseOf(w, q)
    requires forall lease :: lease in w.leases && w.leases[lease] != pid ==> Guarded(w, w', lease)
    requires PhaseOk(w', pid, PhaseOf(w', pid))
    ensures PhasesOk(w')
  {
    forall q ensures PhaseOk(w', q, PhaseOf(w', q)) {
      if q != pid {
        var p := PhaseOf(w, q);
        assert PhaseOk(w, q, p);
        PhaseStays(w, w', q, p);
      }
    }
  }

  // ---------------------------------------------------------------- the steps

  lemma SameRow(w: World, w': World)
    requires RowOk(w) && w' == w.(procs := w'.procs)
    ensures RowOk(w')
  {
  }

  lemma MoveKeepsPhases(w: World, pid: Pid, p: Phase)
    requires PhasesOk(w) && PhaseOk(w, pid, p)
    ensures PhasesOk(Enter(w, pid, p))
  {
    var w' := Enter(w, pid, p);
    PhaseStays(w, w', pid, p);
    OthersStay(w, w', pid);
  }

  // A step that changes only the phase of one process.
  lemma MoveKeepsSafe(w: World, pid: Pid, p: Phase)
    requires Safe(w) && PhaseOk(w, pid, p)
    ensures Safe(Enter(w, pid, p))
  {
    MoveKeepsPhases(w, pid, p);
    SameRow(w, Enter(w, pid, p));
  }

  ghost predicate LeaseDrawn(w: World) {
    w.row.lease.Some? ==> w.row.lease.value.id in w.leases
  }

  lemma ClaimKeepsPhases(w: World, pid: Pid, lease: LeaseId)
    requires PhasesOk(w) && LeaseDrawn(w) && PhaseOf(w, pid).Claiming? && lease !in w.leases
    ensures PhasesOk(ClaimStep(w, pid, PhaseOf(w, pid), FreshLease(lease)))
  {
    assert PhaseOk(w, pid, PhaseOf(w, pid));
    OthersStay(w, ClaimStep(w, pid, PhaseOf(w, pid), FreshLease(lease)), pid);
  }

  lemma OpenRowStays(w: World, status: Status, lease: Option<Lease>, leases: map<LeaseId, Pid>, procs: map<Pid, Phase>)
    requires RowOk(w) && !w.row.status.Complete? && !status.Complete? && (lease.Some? ==> lease.value.id in leases)
    ensures RowOk(w.(row := w.row.(status := status, lease := lease), leases := leases, procs := procs))
  {
    var w' := w.(row := w.row.(status := status, lease := lease), leases := leases, procs := procs);
    assert KeysOk(w') && OpsOk(w');
  }

  lemma ClosedRowStays(w: World, leases: map<LeaseId, Pid>, procs: map<Pid, Phase>)
    requires RowOk(w) && forall lease :: lease in w.leases ==> lease in leases
    ensures RowOk(w.(leases := leases, procs := procs))
  {
    var w' := w.(leases := leases, procs := procs);
    assert KeysOk(w') && OpsOk(w');
  }

  // The row and the leases after a claim under a fresh lease.
  lemma ClaimOutcome(w: World, pid: Pid, lease: LeaseId)
    requires PhaseOf(w, pid).Claiming? && lease !in w.leases
    ensures var w' := ClaimStep(w, pid, PhaseOf(w, pid), FreshLease(lease));
            && w' == w.(row := w.row.(status := w'.row.status, lease := w'.row.lease), leases := w.leases[lease := pid], procs := w'.procs)
            && (w'.row == w.row ||
                (&& !w.row.status.Complete? && !w'.row.status.Complete?
                 && (w'.row.lease == w.row.lease || (w'.row.lease.Some? && w'.row.lease.value.id == lease))))
  {
  }

  lemma ClaimKeepsRow(w: World, pid: Pid, lease: LeaseId)
    requires RowOk(w) && PhaseOf(w, pid).Claiming? && lease !in w.leases
    ensures RowOk(ClaimStep(w, pid, PhaseOf(w, pid), FreshLease(lease)))
  {
    var w' := ClaimStep(w, pid, PhaseOf(w, pid), FreshLease(lease));
    ClaimOutcome(w, pid, lease);
    if w'.row == w.row {
      ClosedRowStays(w, w'.leases, w'.procs);
    } else {
      OpenRowStays(w, w'.row.status, w'.row.lease, w'.leases, w'.procs);
    }
  }

  lemma ClaimKeepsSafe(w: World, pid: Pid, answer: Answer)
    requires Safe(w) && PhaseOf(w, pid).Claiming?
    ensures Safe(ResumeStep(w, pid, answer))
  {
    if !answer.FreshLease? || answer.lease in w.leases {
      MoveKeepsSafe(w, pid, Idle);
    } else {
      ClaimKeepsPhases(w, pid, answer.lease);
      ClaimKeepsRow(w, pid, answer.lease);
    }
  }

  lemma VerifyKeepsSafe(w: World, pid: Pid, answer: Answer)
    requires Safe(w) && PhaseOf(w, pid).Verifying?
    ensures Safe(ResumeStep(w, pid, answer))
  {
    assert PhaseOk(w, pid, PhaseOf(w, pid));
    MoveKeepsSafe(w, pid, VerifyStep(w, PhaseOf(w, pid), answer));
  }

  lemma MarkKeepsPhases(w: World, pid: Pid, answer: Answer)
    requires PhasesOk(w) && PhaseOf(w, pid).Marking?
    ensures PhasesOk(ResumeStep(w, pid, answer))
  {
    assert PhaseOk(w, pid, PhaseOf(w, pid));
    OthersStay(w, ResumeStep(w, pid, answer), pid);
  }

  lemma MarkKeepsSafe(w: World, pid: Pid, answer: Answer)
    requires Safe(w) && PhaseOf(w, pid).Marking?
    ensures Safe(ResumeStep(w, pid, answer))
  {
    MarkKeepsPhases(w, pid, answer);
    var w' := ResumeStep(w, pid, answer);
    if w'.row == w.row {
      ClosedRowStays(w, w'.leases, w'.procs);
    } else {
      OpenRowStays(w, w'.row.status, w'.row.lease, w'.leases, w'.procs);
    }
  }

  lemma RereadKeepsSafe(w: World, pid: Pid, answer: Answer)
    requires Safe(w) && PhaseOf(w, pid).Rereading?
    ensures Safe(ResumeStep(w, pid, answer))
  {
    assert PhaseOk(w, pid, PhaseOf(w, pid));
    MoveKeepsSafe(w, pid, RereadStep(w, PhaseOf(w, pid)));
  }

  lemma SubmitKeepsRow(w: World, key: Key, tx: TxId, procs: map<Pid, Phase>)
    requires RowOk(w) && key in w.row.keys && key !in w.provider && tx !in w.provider.Values
    ensures RowOk(w.(provider := w.provider[key := tx], procs := procs))
  {
  }

  lemma SubmitKeepsPhases(w: World, pid: Pid, answer: Answer)
    requires PhasesOk(w) && PhaseOf(w, pid).Submitting?
    ensures PhasesOk(SubmitStep(w, pid, PhaseOf(w, pid), answer))
  {
    assert PhaseOk(w, pid, PhaseOf(w, pid));
    OthersStay(w, SubmitStep(w, pid, PhaseOf(w, pid), answer), pid);
  }

  lemma SubmitKeepsSafe(w: World, pid: Pid, answer: Answer)
    requires Safe(w) && PhaseOf(w, pid).Submitting?
    ensures Safe(ResumeStep(w, pid, answer))
  {
    var p := PhaseOf(w, pid);
    var w' := SubmitStep(w, pid, p, answer);
    SubmitKeepsPhases(w, pid, answer);
    if w'.provider == w.provider {
      SameRow(w, w');
    } else {
      assert PhaseOk(w, pid, p);
      SubmitKeepsRow(w, p.key, answer.tx, w'.procs);
    }
  }

  lemma StoreKeepsRow(w: World, lease: LeaseId, tx: TxId, key: Key)
    requires RowOk(w) && KeyOk(w, lease, key) && key in w.provider && w.provider[key] == tx
    ensures var r := StoreSync(w.row, w.now, lease, tx); r.Answered? ==> RowOk(w.(row := r.row))
  {
  }

  lemma StoreKeepsPhases(w: World, pid: Pid, answer: Answer)
    requires PhasesOk(w) && PhaseOf(w, pid).Storing?
    ensures PhasesOk(ResumeStep(w, pid, answer))
  {
    assert PhaseOk(w, pid, PhaseOf(w, pid));
    OthersStay(w, ResumeStep(w, pid, answer), pid);
  }

  lemma StoreKeepsSafe(w: World, pid: Pid, answer: Answer)
    requires Safe(w) && PhaseOf(w, pid).Storing?
    ensures Safe(ResumeStep(w, pid, answer))
  {
    var p := PhaseOf(w, pid);
    assert PhaseOk(w, pid, p);
    StoreKeepsRow(w, p.lease, p.tx, p.key);
    StoreKeepsPhases(w, pid, answer);
    OnlyRowMatters(w, StoreSync(w.row, w.now, p.lease, p.tx), ResumeStep(w, pid, answer));
  }

  // RowOk does not look at the phases.
  lemma OnlyRowMatters(w: World, reply: Reply, w': World)
    requires RowOk(w) && (reply.Answered? ==> RowOk(w.(row := reply.row)))
    requires w' == w.(procs := w'.procs, row := if reply.Answered? then reply.row else w.row)
    ensures RowOk(w')
  {
    if reply.Answered? {
      SameRow(w.(row := reply.row), w');
    } else {
      SameRow(w, w');
    }
  }

  lemma WaitKeepsSafe(w: World, pid: Pid, answer: Answer)
    requires Safe(w) && (PhaseOf(w, pid).CheckingStored? || PhaseOf(w, pid).Waiting? || PhaseOf(w, pid).VerifyingSync?)
    ensures Safe(ResumeStep(w, pid, answer))
  {
    var p := PhaseOf(w, pid);
    assert PhaseOk(w, pid, p);
    var w' := ResumeStep(w, pid, answer);
    MoveKeepsSafe(w, pid, PhaseOf(w', pid));
  }

  // The row after the stored transaction was recorded failed.
  function FailedRow(row: Row, tx: TxId, freshKey: Key): Row {
    row.(ops := Close(row.ops, tx, Failed), status := SyncFailed, tx := None, keys := row.keys + [freshKey], lease := None)
  }

  lemma FailKeepsKeys(w: World, tx: TxId, freshKey: Key)
    requires KeysOk(w) && OpsOk(w) && w.row.tx == Some(tx) && Dead(w, tx) && freshKey !in w.row.keys
    ensures KeysOk(w.(row := FailedRow(w.row, tx, freshKey)))
  {
    var n := |w.row.keys| - 1;
    var keys := w.row.keys + [freshKey];
    assert w.row.keys[n] in w.provider && w.row.ops[n].tx == w.provider[w.row.keys[n]];
    forall i | 0 <= i < |keys| - 1 ensures keys[i] in w.provider && Dead(w, w.provider[keys[i]]) {
      assert keys[i] == w.row.keys[i];
    }
  }

  // Closing the current attempt leaves the closed ones alone.
  lemma OnlyCurrentCloses(w: World, tx: TxId, status: OpStatus)
    requires OpsOk(w) && w.row.tx == Some(tx) && !w.row.status.Complete?
    ensures var n := |w.row.ops| - 1;
            && w.row.ops != [] && Close(w.row.ops, tx, status) == w.row.ops[..n] + [SyncOp(tx, status)]
  {
    var n := |w.row.ops| - 1;
    forall i | 0 <= i < n ensures Close(w.row.ops, tx, status)[i] == w.row.ops[i] { assert w.row.ops[i].status.Failed?; }
  }

  lemma FailKeepsOps(w: World, tx: TxId, freshKey: Key)
    requires KeysOk(w) && OpsOk(w) && w.row.tx == Some(tx) && !w.row.status.Complete?
    ensures OpsOk(w.(row := FailedRow(w.row, tx, freshKey)))
  {
    var n := |w.row.ops| - 1;
    var row' := FailedRow(w.row, tx, freshKey);
    OnlyCurrentCloses(w, tx, Failed);
    forall i | 0 <= i <= n ensures row'.keys[i] in w.provider && row'.ops[i].tx == w.provider[row'.keys[i]] && row'.ops[i].status.Failed? {
      assert w.row.keys[i] in w.provider && w.row.ops[i].tx == w.provider[w.row.keys[i]];
      assert i < n ==> w.row.ops[i].status.Failed? && row'.ops[i] == w.row.ops[i];
    }
  }

  lemma FailKeepsRow(w: World, lease: LeaseId, tx: TxId, freshKey: Key)
    requires RowOk(w) && Stored(w, lease, tx) && Dead(w, tx) && freshKey !in w.row.keys && freshKey !in w.provider
    ensures var r := FailSync(w.row, w.now, lease, tx, freshKey); r.Answered? ==> RowOk(w.(row := r.row))
  {
    var r := FailSync(w.row, w.now, lease, tx, freshKey);
    if r.Answered? && r.ok {
      FailKeepsKeys(w, tx, freshKey);
      FailKeepsOps(w, tx, freshKey);
      assert CompletionOk(w.(row := FailedRow(w.row, tx, freshKey)));
    }
  }

  lemma FailKeepsPhases(w: World, pid: Pid, answer: Answer)
    requires PhasesOk(w) && PhaseOf(w, pid).FailingSync?
    ensures PhasesOk(ResumeStep(w, pid, answer))
  {
    assert PhaseOk(w, pid, PhaseOf(w, pid));
    OthersStay(w, ResumeStep(w, pid, answer), pid);
  }

  lemma FailKeepsSafe(w: World, pid: Pid, answer: Answer)
    requires Safe(w) && PhaseOf(w, pid).FailingSync?
    ensures Safe(ResumeStep(w, pid, answer))
  {
    var p := PhaseOf(w, pid);
    FailKeepsPhases(w, pid, answer);
    if answer.FreshKey? && answer.key !in w.row.keys && answer.key !in w.provider {
      assert PhaseOk(w, pid, p);
      FailKeepsRow(w, p.lease, p.tx, answer.key);
      OnlyRowMatters(w, FailSync(w.row, w.now, p.lease, p.tx, answer.key), ResumeStep(w, pid, answer));
    } else {
      SameRow(w, ResumeStep(w, pid, answer));
    }
  }

  // The row after completion; the caller's transaction is the stored one.
  function CompletedRow(row: Row, tx: TxId, net: nat): Row {
    row.(ops := Close(row.ops, tx, Confirmed), status := Complete, lease := None, completions := row.completions + [(tx, net)])
  }

  lemma CompleteKeepsOps(w: World, tx: TxId, net: nat)
    requires OpsOk(w) && w.row.tx == Some(tx) && !w.row.status.Complete?
    ensures OpsOk(w.(row := CompletedRow(w.row, tx, net)))
  {
    OnlyCurrentCloses(w, tx, Confirmed);
  }

  lemma CompleteKeepsCompletion(w: World, tx: TxId, net: nat)
    requires CompletionOk(w) && w.row.tx == Some(tx) && !w.row.status.Complete?
    requires w.row.dest.Some? && w.row.dest.value !in w.reverted && InBounds(w.row, net)
    requires tx in w.outcomes && w.outcomes[tx] == Mined(false)
    ensures CompletionOk(w.(row := CompletedRow(w.row, tx, net)))
  {
  }

  lemma CompleteReply(row: Row, now: nat, p: Phase, accepts: bool, syncIsNew: bool)
    requires p.Completing? && row.tx == Some(p.tx)
    ensures var r := CompleteIntent(row, now, p.lease, p.dest, p.net, p.tx, p.postTotal, accepts, syncIsNew);
            r.Answered? ==>
              if r.ok then Holds(row, p.lease) && !row.status.Complete? && row.dest == Some(p.dest) && r.row == CompletedRow(row, p.tx, p.net)
              else r.row == row
  {
  }

  lemma CompletedRowOk(w: World, tx: TxId, net: nat)
    requires RowOk(w) && w.row.tx == Some(tx) && !w.row.status.Complete?
    requires w.row.dest.Some? && w.row.dest.value !in w.reverted && InBounds(w.row, net)
    requires tx in w.outcomes && w.outcomes[tx] == Mined(false)
    ensures RowOk(w.(row := CompletedRow(w.row, tx, net)))
  {
    CompleteKeepsOps(w, tx, net);
    CompleteKeepsCompletion(w, tx, net);
    assert KeysOk(w.(row := CompletedRow(w.row, tx, net)));
  }

  lemma CompleteKeepsRow(w: World, pid: Pid, p: Phase, accepts: bool, syncIsNew: bool)
    requires RowOk(w) && p.Completing? && PhaseOk(w, pid, p)
    ensures var r := CompleteIntent(w.row, w.now, p.lease, p.dest, p.net, p.tx, p.postTotal, accepts, syncIsNew);
            r.Answered? ==> RowOk(w.(row := r.row))
  {
    if Holds(w.row, p.lease) {
      CompleteReply(w.row, w.now, p, accepts, syncIsNew);
      if !w.row.status.Complete? { CompletedRowOk(w, p.tx, p.net); }
    }
  }

  lemma CompleteKeepsPhases(w: World, pid: Pid, answer: Answer)
    requires PhasesOk(w) && PhaseOf(w, pid).Completing?
    ensures PhasesOk(ResumeStep(w, pid, answer))
  {
    assert PhaseOk(w, pid, PhaseOf(w, pid));
    OthersStay(w, ResumeStep(w, pid, answer), pid);
  }

  lemma CompleteKeepsSafe(w: World, pid: Pid, answer: Answer)
    requires Safe(w) && PhaseOf(w, pid).Completing?
    ensures Safe(ResumeStep(w, pid, answer))
  {
    var p := PhaseOf(w, pid);
    CompleteKeepsPhases(w, pid, answer);
    if answer.LedgerSays? {
      assert PhaseOk(w, pid, p);
      CompleteKeepsRow(w, pid, p, answer.accepts, answer.syncIsNew);
      OnlyRowMatters(w, CompleteIntent(w.row, w.now, p.lease, p.dest, p.net, p.tx, p.postTotal, answer.accepts, answer.syncIsNew),
                     ResumeStep(w, pid, answer));
    } else {
      SameRow(w, ResumeStep(w, pid, answer));
    }
  }

  lemma RevertKeepsSafe(w: World, pid: Pid, answer: Answer)
    requires Safe(w) && PhaseOf(w, pid).RevertingDestination?
    ensures Safe(ResumeStep(w, pid, answer))
  {
    assert PhaseOk(w, pid, PhaseOf(w, pid));
    OthersStay(w, ResumeStep(w, pid, answer), pid);
  }

  lemma ResumeKeepsSafe(w: World, pid: Pid, answer: Answer)
    requires Safe(w)
    ensures Safe(ResumeStep(w, pid, answer))
  {
    match PhaseOf(w, pid)
    case Idle =>
    case Claiming(_, _) => ClaimKeepsSafe(w, pid, answer);
    case Verifying(_, _, _) => VerifyKeepsSafe(w, pid, answer);
    case Marking(_, _, _) => MarkKeepsSafe(w, pid, answer);
    case Rereading(_, _, _, _) => RereadKeepsSafe(w, pid, answer);
    case Submitting(_, _, _, _, _) => SubmitKeepsSafe(w, pid, answer);
    case Storing(_, _, _, _, _, _) => StoreKeepsSafe(w, pid, answer);
    case FailingSync(_, _) => FailKeepsSafe(w, pid, answer);
    case Completing(_, _, _, _, _) => CompleteKeepsSafe(w, pid, answer);
    case RevertingDestination(_, _) => RevertKeepsSafe(w, pid, answer);
    case _ => WaitKeepsSafe(w, pid, answer);
  }

  lemma SettleKeepsRow(w: World, tx: TxId, outcome: Outcome)
    requires RowOk(w) && tx !in w.outcomes
    ensures RowOk(w.(outcomes := w.outcomes[tx := outcome]))
  {
    var w' := w.(outcomes := w.outcomes[tx := outcome]);
    assert KeysOk(w') by {
      forall i | 0 <= i < |w.row.keys| - 1 ensures Dead(w', w.provider[w.row.keys[i]]) {
        assert Dead(w, w.provider[w.row.keys[i]]);
      }
    }
  }

  lemma AttachKeepsRow(w: World, dest: Option<Hash>, status: Status)
    requires RowOk(w) && !w.row.status.Complete? && !status.Complete?
    ensures RowOk(w.(row := w.row.(dest := dest, status := status)))
  {
    var w' := w.(row := w.row.(dest := dest, status := status));
    assert KeysOk(w') && OpsOk(w');
  }

  lemma TickKeepsRow(w: World, ms: nat)
    requires RowOk(w)
    ensures RowOk(w.(now := w.now + ms))
  {
    assert KeysOk(w.(now := w.now + ms)) && OpsOk(w.(now := w.now + ms));
  }

  lemma EnvironmentKeepsRow(w: World, a: Action)
    requires RowOk(w) && (a.Tick? || a.Settle? || a.AttachDestination?)
    ensures RowOk(Next(w, a))
  {
    match a
    case Tick(ms) => TickKeepsRow(w, ms);
    case Settle(tx, outcome) => if tx !in w.outcomes { SettleKeepsRow(w, tx, outcome); }
    case AttachDestination(hash, keepStatus) =>
      if Next(w, a) != w { AttachKeepsRow(w, Some(hash), if keepStatus then w.row.status else Open); }
  }

  lemma EnvironmentKeepsPhase(w: World, a: Action, pid: Pid, p: Phase)
    requires PhaseOk(w, pid, p) && (a.Tick? || a.Settle? || a.AttachDestination?)
    ensures PhaseOk(Next(w, a), pid, p)
  {
    PhaseStays(w, Next(w, a), pid, p);
  }

  lemma EnvironmentKeepsSafe(w: World, a: Action)
    requires Safe(w) && (a.Tick? || a.Settle? || a.AttachDestination?)
    ensures Safe(Next(w, a))
  {
    EnvironmentKeepsRow(w, a);
    forall pid ensures PhaseOk(Next(w, a), pid, PhaseOf(Next(w, a), pid)) {
      EnvironmentKeepsPhase(w, a, pid, PhaseOf(w, pid));
    }
  }

  lemma NextKeepsSafe(w: World, a: Action)
    requires Safe(w)
    ensures Safe(Next(w, a))
  {
    match a
    case Resume(pid, answer) => ResumeKeepsSafe(w, pid, answer);
    case Start(pid) =>
      if Next(w, a) != w { MoveKeepsSafe(w, pid, Claiming(w.row.status, w.row.dest.value)); }
    case Crash(pid) => MoveKeepsSafe(w, pid, Idle);
    case _ => EnvironmentKeepsSafe(w, a);
  }

  /** Whatever is interleaved, stopped or crashed, and however leases expire. */
  lemma {:induction false} EveryRunIsSafe(t: Terms, actions: seq<Action>)
    ensures Safe(RunAll(t, actions))
  {
    if actions != [] {
      EveryRunIsSafe(t, actions[..|actions| - 1]);
      NextKeepsSafe(RunAll(t, actions[..|actions| - 1]), actions[|actions| - 1]);
    }
  }

  // ---------------------------------------------------------------- what holds in every run

  lemma OldKeysAreDead(w: World, key: Key)
    requires KeysOk(w) && key in w.provider
    ensures key in w.row.keys && (key != w.row.keys[|w.row.keys| - 1] ==> Dead(w, w.provider[key]))
  {
    var i :| 0 <= i < |w.row.keys| && w.row.keys[i] == key;
  }

  /** Every key the provider was ever given is one the row stored, and a key other than the current one only
      ever produced a transaction that failed: no two live sync transactions. */
  lemma AtMostOneLiveSync(t: Terms, actions: seq<Action>, key: Key)
    requires key in RunAll(t, actions).provider
    ensures var w := RunAll(t, actions);
            key in w.row.keys && (key != w.row.keys[|w.row.keys| - 1] ==> Dead(w, w.provider[key]))
  {
    EveryRunIsSafe(t, actions);
    OldKeysAreDead(RunAll(t, actions), key);
  }

  /** Two processes never hold the row at once. */
  lemma LeaseIsExclusive(t: Terms, actions: seq<Action>, a: Pid, b: Pid)
    requires var w := RunAll(t, actions);
             && LeaseOf(PhaseOf(w, a)).Some? && Holds(w.row, LeaseOf(PhaseOf(w, a)).value)
             && LeaseOf(PhaseOf(w, b)).Some? && Holds(w.row, LeaseOf(PhaseOf(w, b)).value)
    ensures a == b
  {
    var w := RunAll(t, actions);
    EveryRunIsSafe(t, actions);
    assert PhaseOk(w, a, PhaseOf(w, a)) && PhaseOk(w, b, PhaseOf(w, b));
  }

  ghost predicate Stale(w: World, pid: Pid) {
    LeaseOf(PhaseOf(w, pid)).Some? && !Holds(w.row, LeaseOf(PhaseOf(w, pid)).value)
  }

  ghost predicate RecordsRevert(w: World, pid: Pid) {
    PhaseOf(w, pid).RevertingDestination? && w.row.dest == Some(PhaseOf(w, pid).dest)
  }

  /** A process whose lease was taken over or cleared writes to the row exactly when it is about to record a
      reverted destination that is still the row's; then it clears the destination and whoever's lease is there,
      and the chain did revert that destination. */
  lemma StaleProcessWritesIff(t: Terms, actions: seq<Action>, pid: Pid, answer: Answer)
    requires Stale(RunAll(t, actions), pid)
    ensures var w := RunAll(t, actions);
            var row := Next(w, Resume(pid, answer)).row;
            && (row != w.row <==> RecordsRevert(w, pid))
            && (RecordsRevert(w, pid) ==> row == w.row.(dest := None, status := Open, lease := None) && PhaseOf(w, pid).dest in w.reverted)
  {
    EveryRunIsSafe(t, actions);
    assert PhaseOk(RunAll(t, actions), pid, PhaseOf(RunAll(t, actions), pid));
  }

  lemma RunNone(t: Terms, actions: seq<Action>)
    ensures RunAll(t, actions[..0]) == StartWorld(t)
  {
    assert actions[..0] == [];
  }

  lemma RunStep(t: Terms, actions: seq<Action>, n: nat)
    requires n < |actions|
    ensures RunAll(t, actions[..n + 1]) == Next(RunAll(t, actions[..n]), actions[n])
  {
    assert actions[..n + 1][..n] == actions[..n];
  }

  // One more action, given the worlds before and after it.
  lemma RunTo(t: Terms, actions: seq<Action>, n: nat, w: World, a: Action, w': World)
    requires n < |actions| && actions[n] == a && RunAll(t, actions[..n]) == w && Next(w, a) == w'
    ensures RunAll(t, actions[..n + 1]) == w'
  {
    RunStep(t, actions, n);
  }

  // Process 0 claims and sleeps past its lease; process 1 claims; process 0 finds the destination reverted.
  function TakenOver(): seq<Action> {
    [AttachDestination(5, false), Start(0), Resume(0, FreshLease(1)), Tick(1_000_000),
     Start(1), Resume(1, FreshLease(2)), Resume(0, Proceed), Resume(0, Proceed)]
  }

  // After two, three and four steps.
  function Called(t: Terms): World {
    StartWorld(t).(row := StartWorld(t).row.(dest := Some(5)), procs := map[0 := Claiming(Open, 5)])
  }

  function Claimed(t: Terms): World {
    var row := Called(t).row.(status := VerifyingDestination, lease := Some(Lease(1, LeaseMs(t.config))));
    Called(t).(row := row, leases := map[1 := 0], procs := map[0 := Verifying(1, Open, 5)])
  }

  function Overslept(t: Terms): World {
    Claimed(t).(now := 1_000_000)
  }

  lemma CallAndClaim(t: Terms)
    requires t.expires > 0
    ensures Next(Next(StartWorld(t), AttachDestination(5, false)), Start(0)) == Called(t)
    ensures Next(Called(t), Resume(0, FreshLease(1))) == Claimed(t)
  {
  }

  lemma IsCalled(t: Terms, actions: seq<Action>)
    requires t.expires > 0 && |actions| >= 2 && actions[0] == AttachDestination(5, false) && actions[1] == Start(0)
    ensures RunAll(t, actions[..2]) == Called(t)
  {
    CallAndClaim(t);
    RunNone(t, actions);
    RunTo(t, actions, 0, StartWorld(t), actions[0], Next(StartWorld(t), actions[0]));
    RunTo(t, actions, 1, Next(StartWorld(t), actions[0]), actions[1], Called(t));
  }

  lemma IsClaimed(t: Terms, actions: seq<Action>)
    requires t.expires > 0 && |actions| >= 3 && actions[0] == AttachDestination(5, false) && actions[1] == Start(0)
    requires actions[2] == Resume(0, FreshLease(1))
    ensures RunAll(t, actions[..3]) == Claimed(t)
  {
    IsCalled(t, actions);
    CallAndClaim(t);
    RunTo(t, actions, 2, Called(t), actions[2], Claimed(t));
  }

  // After seven.
  function Superseded(t: Terms): World {
    var row := Overslept(t).row.(lease := Some(Lease(2, 1_000_000 + LeaseMs(t.config))));
    Overslept(t).(row := row, leases := map[1 := 0, 2 := 1],
                  procs := map[0 := RevertingDestination(1, 5), 1 := Verifying(2, VerifyingDestination, 5)])
  }

  // In between: process 1 has claimed.
  function Reclaimed(t: Terms): World {
    Superseded(t).(procs := map[0 := Verifying(1, Open, 5), 1 := Verifying(2, VerifyingDestination, 5)])
  }

  lemma OthersTakeOver(t: Terms)
    requires t.reverted == {5}
    ensures Next(Next(Overslept(t), Start(1)), Resume(1, FreshLease(2))) == Reclaimed(t)
    ensures Next(Reclaimed(t), Resume(0, Proceed)) == Superseded(t)
  {
    var w := Next(Overslept(t), Start(1));
    assert w.procs == map[0 := Verifying(1, Open, 5), 1 := Claiming(VerifyingDestination, 5)];
    assert Next(w, Resume(1, FreshLease(2))).leases == map[1 := 0, 2 := 1];
  }

  lemma IsReclaimed(t: Terms, actions: seq<Action>)
    requires t.reverted == {5} && t.expires > 0 && actions == TakenOver()
    ensures RunAll(t, actions[..6]) == Reclaimed(t)
  {
    IsClaimed(t, actions);
    RunTo(t, actions, 3, Claimed(t), Tick(1_000_000), Overslept(t));
    OthersTakeOver(t);
    RunTo(t, actions, 4, Overslept(t), Start(1), Next(Overslept(t), Start(1)));
    RunTo(t, actions, 5, Next(Overslept(t), Start(1)), Resume(1, FreshLease(2)), Reclaimed(t));
  }

  lemma SupersededIsReached(t: Terms, actions: seq<Action>)
    requires t.reverted == {5} && t.expires > 0 && actions == TakenOver()
    ensures RunAll(t, actions[..7]) == Superseded(t)
    ensures RunAll(t, actions) == Next(Superseded(t), Resume(0, Proceed))
  {
    IsReclaimed(t, actions);
    OthersTakeOver(t);
    RunTo(t, actions, 6, Reclaimed(t), Resume(0, Proceed), Superseded(t));
    RunTo(t, actions, 7, Superseded(t), Resume(0, Proceed), Next(Superseded(t), Resume(0, Proceed)));
    assert actions[..8] == actions;
  }

  /** It does happen: process 1 holds a valid lease, process 0 holds none, and its next step clears that lease. */
  lemma StaleProcessClearsALease(t: Terms)
    requires t.reverted == {5} && t.expires > 0
    ensures var w := RunAll(t, TakenOver()[..7]);
            && Stale(w, 0) && RecordsRevert(w, 0) && PhaseOf(w, 1).Verifying? && HoldsValid(w.row, PhaseOf(w, 1).lease, w.now)
    ensures RunAll(t, TakenOver()).row.lease == None
  {
    SupersededIsReached(t, TakenOver());
  }

  lemma CompleteStays(w: World, a: Action)
    requires Safe(w) && w.row.status.Complete?
    ensures Next(w, a).row == w.row
  {
    if a.Resume? { assert PhaseOk(w, a.pid, PhaseOf(w, a.pid)); }
  }

  lemma CompleteStep(t: Terms, actions: seq<Action>, a: Action)
    requires RunAll(t, actions).row.status.Complete?
    ensures Next(RunAll(t, actions), a).row == RunAll(t, actions).row
  {
    EveryRunIsSafe(t, actions);
    CompleteStays(RunAll(t, actions), a);
  }

  /** Completion happens once and is final: whatever follows, the row never changes again. */
  lemma {:induction false} CompleteIsFinal(t: Terms, actions: seq<Action>, more: seq<Action>)
    requires RunAll(t, actions).row.status.Complete?
    ensures RunAll(t, actions + more).row == RunAll(t, actions).row
    decreases |more|
  {
    if more == [] {
      assert actions + more == actions;
    } else {
      var front := more[..|more| - 1];
      CompleteIsFinal(t, actions, front);
      assert (actions + more)[..|actions + more| - 1] == actions + front;
      CompleteStep(t, actions + front, more[|more| - 1]);
    }
  }

  /** A completed row carries the evidence of its own stored sync transaction, which succeeded, and a net
      within the quoted bounds. */
  lemma CompletionIsProven(t: Terms, actions: seq<Action>)
    requires RunAll(t, actions).row.status.Complete?
    ensures var w := RunAll(t, actions);
            |w.row.completions| == 1 &&
            var (tx, net) := w.row.completions[0];
            && w.row.tx == Some(tx) && tx in w.outcomes && w.outcomes[tx] == Mined(false)
            && w.row.keys != [] && w.row.keys[|w.row.keys| - 1] in w.provider && w.provider[w.row.keys[|w.row.keys| - 1]] == tx
            && net <= w.row.gross <= net + w.row.fee
  {
    var w := RunAll(t, actions);
    EveryRunIsSafe(t, actions);
    assert w.row.ops[|w.row.keys| - 1].tx == w.provider[w.row.keys[|w.row.keys| - 1]];
  }

  lemma StoreAnswersIff(w: World, pid: Pid)
    requires Safe(w) && PhaseOf(w, pid).Storing? && HoldsValid(w.row, PhaseOf(w, pid).lease, w.now)
    ensures var p := PhaseOf(w, pid);
            var reply := StoreSync(w.row, w.now, p.lease, p.tx);
            (reply.Answered? <==> p.marked) && (reply.Answered? ==> reply.ok)
  {
    var p := PhaseOf(w, pid);
    assert PhaseOk(w, pid, p);
    if w.row.tx.Some? { assert w.row.ops[|w.row.keys| - 1].tx == w.provider[w.row.keys[|w.row.keys| - 1]]; }
    forall i | 0 <= i < |w.row.ops| && w.row.tx.None? ensures w.row.ops[i].tx != p.tx {
      assert w.row.keys[i] != w.row.keys[|w.row.keys| - 1];
    }
  }

  /** Storing the sync transaction under a valid lease succeeds exactly when this call marked the row as
      syncing. A call that read 'syncing_pool' before its claim skips the mark, although its own claim has
      put the row back to 'verifying_destination', and is rejected here after having submitted. */
  lemma StoreAcceptedIffMarked(t: Terms, actions: seq<Action>, pid: Pid)
    requires var w := RunAll(t, actions);
             PhaseOf(w, pid).Storing? && HoldsValid(w.row, PhaseOf(w, pid).lease, w.now)
    ensures var w := RunAll(t, actions);
            var p := PhaseOf(w, pid);
            var reply := StoreSync(w.row, w.now, p.lease, p.tx);
            (reply.Answered? <==> p.marked) && (reply.Answered? ==> reply.ok)
  {
    EveryRunIsSafe(t, actions);
    StoreAnswersIff(RunAll(t, actions), pid);
  }
}
