/** What one undisturbed `reconcileFunding` call achieves in any reachable world: whether it gets a sync
    transaction stored depends only on what a crash left behind. */
module FundingReconciliationRecovery {
  import opened Options
  import opened FundingReconciliation
  import Safety = FundingReconciliationSafety

  // A call that is not interrupted: it draws `lease`, sees `net` arrive, and the provider assigns `tx` if asked.
  function Attempt(pid: Pid, lease: LeaseId, net: nat, tx: TxId): seq<Action> {
    [Start(pid), Resume(pid, FreshLease(lease)), Resume(pid, Received(net)), Resume(pid, Assigned(tx)),
     Resume(pid, Assigned(tx)), Resume(pid, Assigned(tx)), Resume(pid, Assigned(tx))]
  }

  // The intent is open with a good destination, nobody holds it, and the answers are possible ones.
  ghost predicate Ready(w: World, pid: Pid, lease: LeaseId, net: nat, tx: TxId) {
    && PhaseOf(w, pid).Idle? && !w.row.status.Complete? && !w.row.status.Cancelled?
    && w.row.dest.Some? && w.row.dest.value !in w.reverted
    && (w.row.lease.Some? ==> w.row.lease.value.expires <= w.now)
    && lease !in w.leases && InBounds(w.row, net) && tx !in w.provider.Values
  }

  lemma RunMore(t: Terms, actions: seq<Action>, more: seq<Action>, n: nat)
    requires n < |more|
    ensures RunAll(t, actions + more[..n + 1]) == Next(RunAll(t, actions + more[..n]), more[n])
  {
    var (before, after) := (actions + more[..n], actions + more[..n + 1]);
    assert after == before + [more[n]];
    assert after[..|after| - 1] == before;
  }

  function Claimed(row: Row, now: nat, c: Config, lease: LeaseId): Row {
    row.(status := VerifyingDestination, lease := Some(Lease(lease, now + LeaseMs(c))))
  }

  ghost predicate SameOutside(w: World, w': World) {
    w'.now == w.now && w'.config == w.config && w'.reverted == w.reverted && w'.provider == w.provider && w'.outcomes == w.outcomes
  }

  // The mark is skipped exactly if the status read before the claim was 'syncing_pool'.
  ghost predicate Verified(w: World, w3: World, pid: Pid, lease: LeaseId, net: nat) {
    && SameOutside(w, w3) && w.row.dest.Some? && w3.row == Claimed(w.row, w.now, w.config, lease)
    && PhaseOf(w3, pid) == if w.row.status.SyncingPool? then Rereading(lease, w.row.dest.value, net, false)
                           else Marking(lease, w.row.dest.value, net)
  }

  lemma AttemptVerifies(w: World, pid: Pid, lease: LeaseId, net: nat, tx: TxId)
    requires Ready(w, pid, lease, net, tx)
    ensures var a := Attempt(pid, lease, net, tx);
            Verified(w, Next(Next(Next(w, a[0]), a[1]), a[2]), pid, lease, net)
  {
    var w1 := Next(w, Start(pid));
    assert PhaseOf(w1, pid) == Claiming(w.row.status, w.row.dest.value);
    var w2 := Next(w1, Resume(pid, FreshLease(lease)));
    assert PhaseOf(w2, pid) == Verifying(lease, w.row.status, w.row.dest.value);
  }

  // What the rest of a call does from the reread on; the steps left over after it are steps of an idle process.
  function Store(w: World, pid: Pid, tx: TxId): World {
    Next(Next(w, Resume(pid, Assigned(tx))), Resume(pid, Assigned(tx)))
  }

  lemma RereadStores(w: World, pid: Pid, tx: TxId)
    requires PhaseOf(w, pid).Rereading? && w.row.tx.None? && w.row.keys != [] && tx !in w.provider.Values
    ensures var w' := Store(w, pid, tx);
            && PhaseOf(w', pid).Storing? && PhaseOf(w', pid).marked == PhaseOf(w, pid).marked
            && PhaseOf(w', pid).lease == PhaseOf(w, pid).lease && w'.row == w.row && w'.now == w.now
  {
    var w1 := Next(w, Resume(pid, Assigned(tx)));
    assert PhaseOf(w1, pid).Submitting? && w1.provider == w.provider;
  }

  // The phases a call can be in after it found a stored transaction.
  predicate Past(p: Phase) {
    p.Idle? || p.Rereading? || p.Waiting? || p.VerifyingSync? || p.FailingSync?
  }

  lemma StoredStays(w: World, pid: Pid, tx: TxId)
    requires w.row.tx.Some? && Past(PhaseOf(w, pid))
    ensures var w' := Next(w, Resume(pid, Assigned(tx))); w'.row == w.row && Past(PhaseOf(w', pid))
  {
  }

  lemma StoredStaysStored(w: World, pid: Pid, tx: TxId)
    requires w.row.tx.Some? && Past(PhaseOf(w, pid))
    ensures Store(Next(w, Resume(pid, Assigned(tx))), pid, tx).row == w.row
  {
    StoredStays(w, pid, tx);
    StoredStays(Next(w, Resume(pid, Assigned(tx))), pid, tx);
    StoredStays(Next(Next(w, Resume(pid, Assigned(tx))), Resume(pid, Assigned(tx))), pid, tx);
  }

  lemma MarkMarks(w: World, w3: World, pid: Pid, lease: LeaseId, net: nat, tx: TxId)
    requires Verified(w, w3, pid, lease, net) && !w.row.status.SyncingPool?
    ensures var w4 := Next(w3, Resume(pid, Assigned(tx)));
            && w4.row == w3.row.(status := SyncingPool) && w4.provider == w3.provider && w4.now == w3.now
            && PhaseOf(w4, pid) == Rereading(lease, w.row.dest.value, net, true)
  {
  }

  // The attempt cut in two: up to the verification, and the four steps after it.
  lemma RunAttempt(t: Terms, actions: seq<Action>, pid: Pid, lease: LeaseId, net: nat, tx: TxId)
    ensures var (w, a) := (RunAll(t, actions), Attempt(pid, lease, net, tx));
            && RunAll(t, actions + a[..3]) == Next(Next(Next(w, a[0]), a[1]), a[2])
            && RunAll(t, actions + a[..4]) == Next(RunAll(t, actions + a[..3]), a[3])
            && RunAll(t, actions + a[..5]) == Store(RunAll(t, actions + a[..3]), pid, tx)
            && RunAll(t, actions + a[..6]) == Store(RunAll(t, actions + a[..4]), pid, tx)
            && RunAll(t, actions + a) == Store(RunAll(t, actions + a[..5]), pid, tx)
  {
    var a := Attempt(pid, lease, net, tx);
    assert actions + a[..0] == actions && a[..7] == a;
    RunMore(t, actions, a, 0);
    RunMore(t, actions, a, 1);
    RunMore(t, actions, a, 2);
    RunMore(t, actions, a, 3);
    RunMore(t, actions, a, 4);
    RunMore(t, actions, a, 5);
    RunMore(t, actions, a, 6);
  }

  lemma StepAfterStoring(t: Terms, actions: seq<Action>, pid: Pid, tx: TxId)
    requires var w := RunAll(t, actions); PhaseOf(w, pid).Storing? && HoldsValid(w.row, PhaseOf(w, pid).lease, w.now)
    ensures var w := RunAll(t, actions);
            var w' := Next(w, Resume(pid, Assigned(tx)));
            if PhaseOf(w, pid).marked then w'.row.tx.Some? else w'.row == w.row && PhaseOf(w', pid).Idle?
  {
    Safety.StoreAcceptedIffMarked(t, actions, pid);
  }

  lemma AttemptThatMarks(t: Terms, actions: seq<Action>, pid: Pid, lease: LeaseId, net: nat, tx: TxId)
    requires Ready(RunAll(t, actions), pid, lease, net, tx)
    requires RunAll(t, actions).row.tx.None? && !RunAll(t, actions).row.status.SyncingPool?
    ensures RunAll(t, actions + Attempt(pid, lease, net, tx)).row.tx.Some?
  {
    var (w, a) := (RunAll(t, actions), Attempt(pid, lease, net, tx));
    RunAttempt(t, actions, pid, lease, net, tx);
    AttemptVerifies(w, pid, lease, net, tx);
    MarkMarks(w, RunAll(t, actions + a[..3]), pid, lease, net, tx);
    Safety.EveryRunIsSafe(t, actions);
    RereadStores(RunAll(t, actions + a[..4]), pid, tx);
    StepAfterStoring(t, actions + a[..6], pid, tx);
    assert actions + a[..7] == actions + a;
    RunMore(t, actions, a, 6);
  }

  lemma AttemptThatSkips(t: Terms, actions: seq<Action>, pid: Pid, lease: LeaseId, net: nat, tx: TxId)
    requires Ready(RunAll(t, actions), pid, lease, net, tx)
    requires RunAll(t, actions).row.tx.None? && RunAll(t, actions).row.status.SyncingPool?
    ensures var w := RunAll(t, actions);
            var w5 := RunAll(t, actions + Attempt(pid, lease, net, tx)[..5]);
            var w7 := RunAll(t, actions + Attempt(pid, lease, net, tx));
            && PhaseOf(w5, pid).Storing? && !PhaseOf(w5, pid).marked && HoldsValid(w5.row, PhaseOf(w5, pid).lease, w5.now)
            && w7.row == Claimed(w.row, w.now, w.config, lease)
  {
    var (w, a) := (RunAll(t, actions), Attempt(pid, lease, net, tx));
    RunAttempt(t, actions, pid, lease, net, tx);
    AttemptVerifies(w, pid, lease, net, tx);
    Safety.EveryRunIsSafe(t, actions);
    RereadStores(RunAll(t, actions + a[..3]), pid, tx);
    StepAfterStoring(t, actions + a[..5], pid, tx);
  }

  lemma AttemptThatFinds(t: Terms, actions: seq<Action>, pid: Pid, lease: LeaseId, net: nat, tx: TxId)
    requires Ready(RunAll(t, actions), pid, lease, net, tx) && RunAll(t, actions).row.tx.Some?
    ensures RunAll(t, actions + Attempt(pid, lease, net, tx)).row.tx == RunAll(t, actions).row.tx
  {
    var (w, a) := (RunAll(t, actions), Attempt(pid, lease, net, tx));
    RunAttempt(t, actions, pid, lease, net, tx);
    AttemptVerifies(w, pid, lease, net, tx);
    var w3 := RunAll(t, actions + a[..3]);
    if w.row.status.SyncingPool? {
      StoredStays(w3, pid, tx);
    } else {
      MarkMarks(w, w3, pid, lease, net, tx);
    }
    StoredStays(RunAll(t, actions + a[..4]), pid, tx);
    StoredStaysStored(RunAll(t, actions + a[..4]), pid, tx);
  }

  /** An undisturbed call ends with a stored sync transaction if and only if there was one already or the
      status it first read was not 'syncing_pool'; if it fails, it leaves the status at 'verifying_destination'. */
  lemma AttemptStoresIff(t: Terms, actions: seq<Action>, pid: Pid, lease: LeaseId, net: nat, tx: TxId)
    requires Ready(RunAll(t, actions), pid, lease, net, tx)
    ensures var w := RunAll(t, actions);
            var w' := RunAll(t, actions + Attempt(pid, lease, net, tx));
            && (w'.row.tx.Some? <==> w.row.tx.Some? || !w.row.status.SyncingPool?)
            && (w'.row.tx.None? ==> w'.row == Claimed(w.row, w.now, w.config, lease))
  {
    if RunAll(t, actions).row.tx.Some? {
      AttemptThatFinds(t, actions, pid, lease, net, tx);
    } else if RunAll(t, actions).row.status.SyncingPool? {
      AttemptThatSkips(t, actions, pid, lease, net, tx);
    } else {
      AttemptThatMarks(t, actions, pid, lease, net, tx);
    }
  }

  /** So whatever call comes next after a refused one, once that one's lease is over, gets through. */
  lemma NextAttemptStores(t: Terms, actions: seq<Action>, pid: Pid, lease: LeaseId, net: nat, tx: TxId, wait: nat, second: seq<Action>,
                          pid': Pid, lease': LeaseId, net': nat, tx': TxId)
    requires Ready(RunAll(t, actions), pid, lease, net, tx) && second == actions + Attempt(pid, lease, net, tx) + [Tick(wait)]
    requires RunAll(t, actions + Attempt(pid, lease, net, tx)).row.tx.None? && Ready(RunAll(t, second), pid', lease', net', tx')
    ensures RunAll(t, second + Attempt(pid', lease', net', tx')).row.tx.Some?
  {
    AttemptStoresIff(t, actions, pid, lease, net, tx);
    assert second[..|second| - 1] == actions + Attempt(pid, lease, net, tx);
    AttemptStoresIff(t, second, pid', lease', net', tx');
  }

  // ---------------------------------------------------------------- a run in which it is refused

  // Process 0 marks the row as syncing and crashes before it stores anything.
  function CrashAfterMark(net: nat): seq<Action> {
    [AttachDestination(5, false), Start(0), Resume(0, FreshLease(1)), Resume(0, Received(net)), Resume(0, Proceed), Crash(0), Tick(1_000_000)]
  }

  // After four and five steps.
  function Arrived(t: Terms, net: nat): World {
    Safety.Claimed(t).(procs := map[0 := Marking(1, 5, net)])
  }

  function Marked(t: Terms, net: nat): World {
    Arrived(t, net).(row := Arrived(t, net).row.(status := SyncingPool), procs := map[0 := Rereading(1, 5, net, true)])
  }

  lemma ProcessMarks(t: Terms, net: nat)
    requires 5 !in t.reverted && InBounds(StartWorld(t).row, net)
    ensures Next(Safety.Claimed(t), Resume(0, Received(net))) == Arrived(t, net)
    ensures Next(Arrived(t, net), Resume(0, Proceed)) == Marked(t, net)
  {
  }

  lemma IsMarked(t: Terms, net: nat, a: seq<Action>)
    requires 5 !in t.reverted && InBounds(StartWorld(t).row, net)
    requires |a| >= 5 && a[3] == Resume(0, Received(net)) && a[4] == Resume(0, Proceed) && RunAll(t, a[..3]) == Safety.Claimed(t)
    ensures RunAll(t, a[..5]) == Marked(t, net)
  {
    ProcessMarks(t, net);
    Safety.RunTo(t, a, 3, Safety.Claimed(t), a[3], Arrived(t, net));
    Safety.RunTo(t, a, 4, Arrived(t, net), a[4], Marked(t, net));
  }

  function Abandoned(t: Terms, net: nat): World {
    Marked(t, net).(now := 1_000_000, procs := map[0 := Idle])
  }

  lemma IsAbandoned(t: Terms, net: nat, a: seq<Action>)
    requires |a| >= 7 && a[5] == Crash(0) && a[6] == Tick(1_000_000) && RunAll(t, a[..5]) == Marked(t, net)
    ensures RunAll(t, a[..7]) == Abandoned(t, net)
  {
    Safety.RunTo(t, a, 5, Marked(t, net), a[5], Marked(t, net).(procs := map[0 := Idle]));
    Safety.RunTo(t, a, 6, Marked(t, net).(procs := map[0 := Idle]), a[6], Abandoned(t, net));
  }

  lemma MarkedRun(t: Terms, net: nat, a: seq<Action>)
    requires 5 !in t.reverted && t.expires > 0 && InBounds(StartWorld(t).row, net) && a == CrashAfterMark(net)
    ensures RunAll(t, a) == Abandoned(t, net)
  {
    Safety.IsClaimed(t, a);
    IsMarked(t, net, a);
    IsAbandoned(t, net, a);
    assert a[..7] == a;
  }

  /** It happens: process 1 comes to store its submission under a valid lease without having marked the row,
      and is refused. */
  lemma RefusedStoreHappens(t: Terms, net: nat, tx: TxId)
    requires 5 !in t.reverted && t.expires > 0 && InBounds(StartWorld(t).row, net)
    ensures var w := RunAll(t, CrashAfterMark(net) + Attempt(1, 2, net, tx)[..5]);
            && PhaseOf(w, 1).Storing? && !PhaseOf(w, 1).marked && HoldsValid(w.row, PhaseOf(w, 1).lease, w.now)
    ensures RunAll(t, CrashAfterMark(net) + Attempt(1, 2, net, tx)).row.tx.None?
  {
    MarkedRun(t, net, CrashAfterMark(net));
    AttemptThatSkips(t, CrashAfterMark(net), 1, 2, net, tx);
  }
}
