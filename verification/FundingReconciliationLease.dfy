/** The lease of a funding intent: when a process gets it, who can take it away, and which writes need it. */
module FundingReconciliationLease {
  import opened Options
  import opened FundingReconciliation
  import opened FundingReconciliationSafety

  // ---------------------------------------------------------------- the procedures

  predicate Over(status: Status) {
    status.Complete? || status.Cancelled?
  }

  // Somebody holds the row under a lease that has not expired.
  predicate Held(row: Row, now: nat) {
    row.lease.Some? && now < row.lease.value.expires
  }

  // Quoted, and not paid for in time.
  predicate Lapsed(row: Row, now: nat) {
    row.expires <= now && row.dest.None?
  }

  /** A claim is granted exactly for an intent that is open and has not lapsed, for a lease of at most fifteen minutes,
      and not while another lease is valid; a lapsed one it cancels. */
  lemma ClaimGrantsIff(row: Row, now: nat, lease: LeaseId, expires: nat)
    ensures var r := Claim(row, now, lease, expires);
            && (r == Answered(row.(status := VerifyingDestination, lease := Some(Lease(lease, expires))), true) <==>
                  !Over(row.status) && !Lapsed(row, now) && now < expires <= now + 900_000 && (Held(row, now) ==> row.lease.value.id == lease))
            && (r == Answered(row.(status := Cancelled), false) <== !Over(row.status) && Lapsed(row, now))
            && (r.Answered? && r.row != row ==> r.ok || Lapsed(row, now)) && (r.Answered? && r.ok ==> r.row.lease == Some(Lease(lease, expires)))
  {
  }

  ghost predicate HasTx(ops: seq<SyncOp>, tx: TxId) {
    exists i :: 0 <= i < |ops| && ops[i].tx == tx
  }

  /** A sync transaction is recorded exactly under a valid lease, on a row marked as syncing that has none, when every
      earlier one was closed as failed as far as the last shows it, and never twice. */
  lemma StoreRecordsIff(row: Row, now: nat, lease: LeaseId, tx: TxId)
    ensures var r := StoreSync(row, now, lease, tx);
            && (r == Answered(row.(tx := Some(tx), ops := row.ops + [SyncOp(tx, Pending)]), true) <==>
                  && HoldsValid(row, lease, now) && row.status.SyncingPool? && row.tx.None?
                  && (row.ops != [] ==> row.ops[|row.ops| - 1].status.Failed?) && !HasTx(row.ops, tx))
            && (r.Answered? && r.row == row ==> row.tx.Some? && (r.ok <==> row.tx.value == tx))
            && (r.Answered? && r.row != row ==> r == Answered(row.(tx := Some(tx), ops := row.ops + [SyncOp(tx, Pending)]), true))
  {
    if StoreSync(row, now, lease, tx).Answered? { assert row.ops + [SyncOp(tx, Pending)] != row.ops; }
  }

  /** Its failure is recorded exactly under a valid lease and while it is the row's and pending. */
  lemma FailRecordsIff(row: Row, now: nat, lease: LeaseId, tx: TxId, freshKey: Key)
    ensures var r := FailSync(row, now, lease, tx, freshKey);
            (r.Answered? && r.ok <==> HoldsValid(row, lease, now) && row.tx == Some(tx) && HasPending(row, tx))
            && (r.Answered? && !r.ok ==> r.row == row && !(HoldsValid(row, lease, now) && row.tx == Some(tx)))
            && (r.Answered? && r.ok ==> r.row.keys == row.keys + [freshKey] && r.row.tx.None? && r.row.lease.None? && r.row.status.SyncFailed?)
  {
  }

  /** The lease outlasts the polling, two more requests and a minute exactly if these fit in fourteen minutes; it is
      never refused for its length. */
  lemma LeaseOutlastsIff(c: Config)
    ensures LeaseMs(c) >= c.pollTimeout + 2 * c.requestTimeout + 60_000 <==> c.pollTimeout + 2 * c.requestTimeout <= 780_000
    ensures 0 < LeaseMs(c) <= 840_000
  {
  }

  // ---------------------------------------------------------------- getting the lease

  lemma DrawnIsNotHeld(w: World, lease: LeaseId)
    requires Safe(w) && lease !in w.leases
    ensures !Holds(w.row, lease)
  {
  }

  lemma ClaimedStep(w: World, pid: Pid, lease: LeaseId)
    requires PhaseOf(w, pid).Claiming? && lease !in w.leases && !Holds(w.row, lease)
    ensures var w' := Next(w, Resume(pid, FreshLease(lease)));
            && (Holds(w'.row, lease) <==> !Over(w.row.status) && !Lapsed(w.row, w.now) && !Held(w.row, w.now))
            && (Holds(w'.row, lease) <==> PhaseOf(w', pid).Verifying?)
            && (Holds(w'.row, lease) ==> w'.row.lease == Some(Lease(lease, w.now + LeaseMs(w.config))))
  {
    LeaseOutlastsIff(w.config);
  }

  /** In every run, a process that claims gets the row under its new lease exactly if the intent is open and has not
      lapsed, and nobody holds it. */
  lemma ClaimerHoldsIff(t: Terms, actions: seq<Action>, pid: Pid, lease: LeaseId)
    requires var w := RunAll(t, actions); PhaseOf(w, pid).Claiming? && lease !in w.leases
    ensures var (w, w') := (RunAll(t, actions), Next(RunAll(t, actions), Resume(pid, FreshLease(lease))));
            && (Holds(w'.row, lease) <==> !Over(w.row.status) && !Lapsed(w.row, w.now) && !Held(w.row, w.now))
            && (Holds(w'.row, lease) <==> PhaseOf(w', pid).Verifying?)
            && (Holds(w'.row, lease) ==> w'.row.lease == Some(Lease(lease, w.now + LeaseMs(w.config))))
  {
    EveryRunIsSafe(t, actions);
    DrawnIsNotHeld(RunAll(t, actions), lease);
    ClaimedStep(RunAll(t, actions), pid, lease);
  }

  /** A call asks for the lease at all exactly for an intent that has a destination and is not complete. */
  lemma CallsIff(w: World, pid: Pid)
    requires PhaseOf(w, pid).Idle?
    ensures var w' := Next(w, Start(pid));
            && (PhaseOf(w', pid).Claiming? <==> w.row.dest.Some? && !w.row.status.Complete?) && (PhaseOf(w', pid).Claiming? || w' == w)
            && (PhaseOf(w', pid).Claiming? ==> Some(PhaseOf(w', pid).dest) == w.row.dest && PhaseOf(w', pid).staleStatus == w.row.status)
  {
  }

  /** A destination is attached exactly to an open intent without one, and leaves its terms, attempts and lease alone. */
  lemma AttachesIff(w: World, hash: Hash, keepStatus: bool)
    ensures var row' := Next(w, AttachDestination(hash, keepStatus)).row;
            if w.row.dest.None? && !Over(w.row.status)
            then row' == w.row.(dest := Some(hash), status := row'.status) && row'.status == (if keepStatus then w.row.status else Open)
            else row' == w.row
  {
  }

  // ---------------------------------------------------------------- keeping it

  // Cancels a lapsed intent.
  ghost predicate Cancels(w: World, a: Action) {
    a.Resume? && PhaseOf(w, a.pid).Claiming? && a.answer.FreshLease? && a.answer.lease !in w.leases
    && Lapsed(w.row, w.now) && !Over(w.row.status)
  }

  ghost predicate Attaches(w: World, a: Action) {
    a.AttachDestination? && w.row.dest.None? && !Over(w.row.status)
  }

  lemma OthersClaim(w: World, pid: Pid, answer: Answer)
    requires Safe(w) && Held(w.row, w.now) && PhaseOf(w, pid).Claiming?
    ensures Next(w, Resume(pid, answer)).row != w.row <==> Cancels(w, Resume(pid, answer))
    ensures Cancels(w, Resume(pid, answer)) ==> Next(w, Resume(pid, answer)).row == w.row.(status := Cancelled)
  {
    assert w.row.lease.value.id in w.leases;
    if Cancels(w, Resume(pid, answer)) { assert w.row.(status := Cancelled) != w.row; }
  }

  lemma OthersResume(w: World, pid: Pid, answer: Answer)
    requires Safe(w) && Held(w.row, w.now) && !PhaseOf(w, pid).Claiming? && w.row.lease.value.id in w.leases && w.leases[w.row.lease.value.id] != pid
    ensures Next(w, Resume(pid, answer)).row != w.row <==> RecordsRevert(w, pid)
  {
    assert PhaseOk(w, pid, PhaseOf(w, pid));
    if RecordsRevert(w, pid) { assert w.row.(dest := None, status := Open, lease := None) != w.row; }
  }

  /** In every run, while a process holds the row under a valid lease, nobody else changes the row, except that a
      reverted destination is recorded, a lapsed intent cancelled, or a destination attached where there is none; and
      of these only the first takes the lease away. */
  lemma ValidLeaseGuardsIff(t: Terms, actions: seq<Action>, a: Action)
    requires var w := RunAll(t, actions);
             Held(w.row, w.now) && w.row.lease.value.id in w.leases && !(a.Resume? && a.pid == w.leases[w.row.lease.value.id])
    ensures var (w, row') := (RunAll(t, actions).row, Next(RunAll(t, actions), a).row);
            && (row' != w <==> (a.Resume? && RecordsRevert(RunAll(t, actions), a.pid)) || Cancels(RunAll(t, actions), a) || Attaches(RunAll(t, actions), a))
            && (row'.lease != w.lease <==> a.Resume? && RecordsRevert(RunAll(t, actions), a.pid))
  {
    var w := RunAll(t, actions);
    EveryRunIsSafe(t, actions);
    if a.Resume? {
      if PhaseOf(w, a.pid).Claiming? { OthersClaim(w, a.pid, a.answer); } else { OthersResume(w, a.pid, a.answer); }
    }
  }

  // ---------------------------------------------------------------- what needs it

  lemma StoringGoesOn(w: World, pid: Pid, answer: Answer)
    requires Safe(w) && PhaseOf(w, pid).Storing?
    ensures var (p, w') := (PhaseOf(w, pid), Next(w, Resume(pid, answer)));
            if p.marked && HoldsValid(w.row, p.lease, w.now) then PhaseOf(w', pid).Waiting? && w'.row.tx == Some(p.tx)
            else PhaseOf(w', pid).Idle? && w'.row == w.row
  {
    var p := PhaseOf(w, pid);
    assert PhaseOk(w, pid, p);
    if HoldsValid(w.row, p.lease, w.now) { StoreAnswersIff(w, pid); }
  }

  /** In every run, a call that comes to store its submission goes on exactly if it marked the row itself and still
      holds it under a valid lease; otherwise it ends there and the row stays. */
  lemma StoringGoesOnIff(t: Terms, actions: seq<Action>, pid: Pid, answer: Answer)
    requires PhaseOf(RunAll(t, actions), pid).Storing?
    ensures var (w, w') := (RunAll(t, actions), Next(RunAll(t, actions), Resume(pid, answer)));
            var p := PhaseOf(w, pid);
            if p.marked && HoldsValid(w.row, p.lease, w.now) then PhaseOf(w', pid).Waiting? && w'.row.tx == Some(p.tx)
            else PhaseOf(w', pid).Idle? && w'.row == w.row
  {
    EveryRunIsSafe(t, actions);
    StoringGoesOn(RunAll(t, actions), pid, answer);
  }

  lemma NobodyRechecks(w: World, a: Action, pid: Pid)
    requires Safe(w) && !PhaseOf(w, pid).CheckingStored?
    ensures !PhaseOf(Next(w, a), pid).CheckingStored?
  {
    if a.Resume? && a.pid == pid {
      if PhaseOf(w, pid).Storing? { StoringGoesOn(w, pid, a.answer); } else { OthersDoNotRecheck(w, pid, a.answer); }
    } else {
      OthersKeepPhase(w, a, pid);
    }
  }

  lemma OthersKeepPhase(w: World, a: Action, pid: Pid)
    requires !(a.Resume? && a.pid == pid)
    ensures PhaseOf(Next(w, a), pid) == PhaseOf(w, pid) || PhaseOf(Next(w, a), pid).Idle? || PhaseOf(Next(w, a), pid).Claiming?
  {
  }

  lemma OthersDoNotRecheck(w: World, pid: Pid, answer: Answer)
    requires !PhaseOf(w, pid).CheckingStored? && !PhaseOf(w, pid).Storing?
    ensures !PhaseOf(ResumeStep(w, pid, answer), pid).CheckingStored?
  {
  }

  /** Which is why the second look at the row after a refused store is dead code: no run gets there. */
  lemma {:induction false} RecheckUnreachable(t: Terms, actions: seq<Action>, pid: Pid)
    ensures !PhaseOf(RunAll(t, actions), pid).CheckingStored?
  {
    if actions != [] {
      var front := actions[..|actions| - 1];
      RecheckUnreachable(t, front, pid);
      EveryRunIsSafe(t, front);
      NobodyRechecks(RunAll(t, front), actions[|actions| - 1], pid);
    }
  }

  /** In every run, the failure of the sync is recorded exactly by a process that still holds the row under a valid
      lease. */
  lemma FailureNeedsLeaseIff(t: Terms, actions: seq<Action>, pid: Pid, key: Key)
    requires var w := RunAll(t, actions); PhaseOf(w, pid).FailingSync? && key !in w.row.keys && key !in w.provider
    ensures var (w, w') := (RunAll(t, actions), Next(RunAll(t, actions), Resume(pid, FreshKey(key))));
            && (w'.row != w.row <==> HoldsValid(w.row, PhaseOf(w, pid).lease, w.now))
            && (w'.row != w.row ==> w'.row.status.SyncFailed? && w'.row.keys == w.row.keys + [key] && w'.row.tx.None? && w'.row.lease.None?)
  {
    var w := RunAll(t, actions);
    EveryRunIsSafe(t, actions);
    var p := PhaseOf(w, pid);
    assert PhaseOk(w, pid, p);
    if HoldsValid(w.row, p.lease, w.now) {
      assert w.row.ops[|w.row.ops| - 1].tx == p.tx;
      CompleteHasNoLease(w);
      assert w.row.ops[|w.row.ops| - 1] == SyncOp(p.tx, Pending);
    }
  }

  lemma CompleteHasNoLease(w: World)
    requires Safe(w) && w.row.lease.Some?
    ensures !w.row.status.Complete?
  {
  }
}
