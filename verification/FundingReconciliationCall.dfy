/** What one whole `reconcileFunding` call achieves in any reachable world, from its claim to the completed
    intent, when nobody disturbs it: exactly when it completes the intent, fails the sync, or gives the
    destination up. */
module FundingReconciliationCall {
  import opened Iteration
  import opened Options
  import opened FundingReconciliation
  import opened Safety = FundingReconciliationSafety

  // What the outside world gives the call: the lease and the key it may draw, the net amount that arrived, the
  // transaction the provider assigns and what becomes of it, the total read after the sync, the ledger's answer.
  datatype Given = Given(lease: LeaseId, net: nat, tx: TxId, outcome: Outcome, postTotal: nat, key: Key, accepts: bool, syncIsNew: bool)

  function AnswerTo(p: Phase, g: Given): Answer {
    match p
    case Claiming(_, _) => FreshLease(g.lease)
    case Verifying(_, _, _) => Received(g.net)
    case Submitting(_, _, _, _, _) => Assigned(g.tx)
    case VerifyingSync(_, _, _, _) => Synced(g.postTotal)
    case FailingSync(_, _) => FreshKey(g.key)
    case Completing(_, _, _, _, _) => LedgerSays(g.accepts, g.syncIsNew)
    case _ => Proceed
  }

  // One await: while the call waits for the provider, the transaction is decided if it was not before.
  function Turn(w: World, pid: Pid, g: Given): World {
    var p := PhaseOf(w, pid);
    Next(if p.Waiting? then Next(w, Settle(p.tx, g.outcome)) else w, Resume(pid, AnswerTo(p, g)))
  }

  function TurnOf(pid: Pid, g: Given): World -> World {
    w => Turn(w, pid, g)
  }

  function Turns(w: World, pid: Pid, g: Given, n: nat): World {
    Iterate(TurnOf(pid, g), w, n)
  }

  const AWAITS: nat := 9

  function WholeCall(w: World, pid: Pid, g: Given): World {
    Turns(Next(w, Start(pid)), pid, g, AWAITS)
  }

  lemma TurnIsARun(t: Terms, actions: seq<Action>, pid: Pid, g: Given) returns (more: seq<Action>)
    ensures RunAll(t, actions + more) == Turn(RunAll(t, actions), pid, g)
  {
    var p := PhaseOf(RunAll(t, actions), pid);
    var last := Resume(pid, AnswerTo(p, g));
    if p.Waiting? {
      var settled := actions + [Settle(p.tx, g.outcome)];
      assert settled[..|settled| - 1] == actions;
      more := [Settle(p.tx, g.outcome), last];
      assert (actions + more)[..|actions + more| - 1] == settled;
    } else {
      more := [last];
      assert (actions + more)[..|actions + more| - 1] == actions;
    }
  }

  lemma {:induction false} TurnsAreARun(t: Terms, actions: seq<Action>, pid: Pid, g: Given, step: World -> World, n: nat) returns (more: seq<Action>)
    requires step == TurnOf(pid, g)
    ensures RunAll(t, actions + more) == Iterate(step, RunAll(t, actions), n)
    decreases n
  {
    if n == 0 {
      more := [];
      assert actions + more == actions;
    } else {
      var first := TurnIsARun(t, actions, pid, g);
      var rest := TurnsAreARun(t, actions + first, pid, g, step, n - 1);
      more := first + rest;
      assert actions + first + rest == actions + more;
    }
  }

  lemma FirstTurn(w: World, pid: Pid, g: Given, n: nat)
    requires n > 0
    ensures Turns(w, pid, g, n) == Turns(Turn(w, pid, g), pid, g, n - 1)
  {
  }

  lemma TurnsAdd(w: World, pid: Pid, g: Given, a: nat, b: nat)
    ensures Turns(w, pid, g, a + b) == Turns(Turns(w, pid, g, a), pid, g, b)
  {
    IterateAdd(TurnOf(pid, g), w, a, b);
  }

  lemma IdleTurn(w: World, pid: Pid, g: Given)
    requires PhaseOf(w, pid).Idle?
    ensures TurnOf(pid, g)(w) == w
  {
  }

  lemma IdleStays(w: World, pid: Pid, g: Given, n: nat)
    requires PhaseOf(w, pid).Idle?
    ensures Turns(w, pid, g, n) == w
  {
    IdleTurn(w, pid, g);
    IterateRests(TurnOf(pid, g), w, n);
  }

  // The intent is open and nobody holds it; the lease, the key and the transaction are new ones.
  ghost predicate Possible(w: World, pid: Pid, g: Given) {
    && PhaseOf(w, pid).Idle? && !w.row.status.Complete? && !w.row.status.Cancelled? && w.row.dest.Some?
    && (w.row.lease.Some? ==> w.row.lease.value.expires <= w.now)
    && g.lease !in w.leases && g.tx !in w.provider.Values && g.key !in w.row.keys && g.key !in w.provider
  }

  // ---------------------------------------------------------------- what the call depends on

  // The sync transaction it comes to wait for: stored, submitted before a crash, or its own.
  function TheTx(w: World, g: Given): TxId
    requires w.row.keys != []
  {
    var key := w.row.keys[|w.row.keys| - 1];
    if w.row.tx.Some? then w.row.tx.value else if key in w.provider then w.provider[key] else g.tx
  }

  function TheOutcome(w: World, g: Given): Outcome
    requires w.row.keys != []
  {
    if TheTx(w, g) in w.outcomes then w.outcomes[TheTx(w, g)] else g.outcome
  }

  predicate DestinationStands(w: World, g: Given)
    requires w.row.dest.Some?
  {
    w.row.dest.value !in w.reverted && g.net <= w.row.gross <= g.net + w.row.fee
  }

  // It has a transaction already, or did not read 'syncing_pool', under which it would skip the mark.
  predicate GetsThrough(w: World, g: Given)
    requires w.row.dest.Some?
  {
    DestinationStands(w, g) && (w.row.tx.Some? || !w.row.status.SyncingPool?)
  }

  predicate Completes(w: World, g: Given)
    requires w.row.dest.Some? && w.row.keys != []
  {
    && GetsThrough(w, g) && TheOutcome(w, g) == Mined(false)
    && g.net > 0 && g.postTotal >= w.row.preTotal + g.net && g.accepts && g.syncIsNew
  }

  predicate SyncFails(w: World, g: Given)
    requires w.row.dest.Some? && w.row.keys != []
  {
    GetsThrough(w, g) && TheOutcome(w, g) != Mined(false)
  }

  // ---------------------------------------------------------------- up to the sync transaction

  function Claimed(row: Row, now: nat, c: Config, lease: LeaseId): Row {
    row.(status := VerifyingDestination, lease := Some(Lease(lease, now + LeaseMs(c))))
  }

  // Nothing but the row and this process has changed, and the provider has at most one more transaction.
  ghost predicate SameOutside(w: World, w': World) {
    w'.now == w.now && w'.config == w.config && w'.reverted == w.reverted && w'.outcomes == w.outcomes
  }

  ghost predicate Started(w: World, w': World, pid: Pid, g: Given) {
    && SameOutside(w, w') && w'.provider == w.provider && w'.row == Claimed(w.row, w.now, w.config, g.lease)
    && w.row.dest.Some? && PhaseOf(w', pid) == Verifying(g.lease, w.row.status, w.row.dest.value)
  }

  lemma CallStarts(w: World, pid: Pid, g: Given)
    requires Possible(w, pid, g)
    ensures Started(w, Turn(Next(w, Start(pid)), pid, g), pid, g)
  {
    assert PhaseOf(Next(w, Start(pid)), pid) == Claiming(w.row.status, w.row.dest.value);
  }

  lemma CallVerifies(w: World, w1: World, pid: Pid, g: Given)
    requires Started(w, w1, pid, g)
    ensures var w2 := Turn(w1, pid, g);
            && SameOutside(w, w2) && w2.provider == w.provider && w2.row == w1.row
            && PhaseOf(w2, pid) == if w.row.dest.value in w.reverted then RevertingDestination(g.lease, w.row.dest.value)
                                   else if !InBounds(w.row, g.net) then Idle
                                   else if w.row.status.SyncingPool? then Rereading(g.lease, w.row.dest.value, g.net, false)
                                   else Marking(g.lease, w.row.dest.value, g.net)
  {
  }

  // Before the transaction is known; `marked` says that this call marked the row.
  ghost predicate AtReread(w: World, w': World, pid: Pid, g: Given, marked: bool) {
    && SameOutside(w, w') && w'.provider == w.provider && w.row.dest.Some?
    && w'.row == Claimed(w.row, w.now, w.config, g.lease).(status := if marked then SyncingPool else VerifyingDestination)
    && PhaseOf(w', pid) == Rereading(g.lease, w.row.dest.value, g.net, marked)
  }

  lemma CallMarks(w: World, w2: World, pid: Pid, g: Given)
    requires SameOutside(w, w2) && w2.provider == w.provider && w.row.dest.Some? && w2.row == Claimed(w.row, w.now, w.config, g.lease)
    requires PhaseOf(w2, pid) == Marking(g.lease, w.row.dest.value, g.net)
    ensures AtReread(w, Turn(w2, pid, g), pid, g, true)
  {
  }

  // The call waits for the stored transaction under its valid lease.
  ghost predicate AtWaiting(w: World, w': World, pid: Pid, g: Given) {
    && SameOutside(w, w') && w.row.dest.Some? && w.row.keys != [] && !w'.row.status.Complete?
    && HoldsValid(w'.row, g.lease, w'.now) && w'.row.tx == Some(TheTx(w, g)) && HasPending(w'.row, TheTx(w, g))
    && w'.row.keys == w.row.keys && w'.row.dest == w.row.dest && w'.row.completions == w.row.completions
    && w'.row.gross == w.row.gross && w'.row.preTotal == w.row.preTotal
    && (w'.row.status.SyncingPool? || w'.row.status.VerifyingDestination?)
    && (forall key :: key in w.provider ==> key in w'.provider)
    && (forall key :: key in w'.provider && key !in w.provider ==> key in w.row.keys)
    && PhaseOf(w', pid) == Waiting(g.lease, w.row.dest.value, g.net, TheTx(w, g))
  }

  lemma LeaseIsValid(w: World, c: Config)
    ensures w.now + LeaseMs(c) > w.now
  {
  }

  lemma StoredIsPending(w: World)
    requires Safe(w) && w.row.tx.Some? && !w.row.status.Complete?
    ensures HasPending(w.row, w.row.tx.value) && w.row.keys != []
  {
    assert w.row.ops[|w.row.ops| - 1] == SyncOp(w.row.tx.value, Pending);
  }

  lemma FindsStored(w: World, w3: World, pid: Pid, g: Given, marked: bool)
    requires Safe(w) && w.row.tx.Some? && !w.row.status.Complete? && AtReread(w, w3, pid, g, marked)
    ensures AtWaiting(w, Turn(w3, pid, g), pid, g)
  {
    StoredIsPending(w);
    LeaseIsValid(w, w.config);
  }

  // The call has a transaction for the current key and is about to store it.
  ghost predicate AtStoring(w: World, w': World, pid: Pid, g: Given, marked: bool) {
    && SameOutside(w, w') && w.row.dest.Some? && w.row.keys != [] && w.row.tx.None?
    && w'.row == Claimed(w.row, w.now, w.config, g.lease).(status := if marked then SyncingPool else VerifyingDestination)
    && (forall key :: key in w.provider ==> key in w'.provider)
    && (forall key :: key in w'.provider && key !in w.provider ==> key in w.row.keys)
    && PhaseOf(w', pid) == Storing(g.lease, w.row.dest.value, g.net, marked, w.row.keys[|w.row.keys| - 1], TheTx(w, g))
  }

  lemma CallSubmits(w: World, w3: World, pid: Pid, g: Given, marked: bool)
    requires w.row.tx.None? && w.row.keys != [] && g.tx !in w.provider.Values && AtReread(w, w3, pid, g, marked)
    ensures AtStoring(w, Turn(Turn(w3, pid, g), pid, g), pid, g, marked)
  {
    var w4 := Turn(w3, pid, g);
    assert PhaseOf(w4, pid) == Submitting(g.lease, w.row.dest.value, g.net, marked, w.row.keys[|w.row.keys| - 1]);
    assert w4.provider == w.provider && w4.row == w3.row;
  }

  lemma CallStores(w: World, w5: World, pid: Pid, g: Given)
    requires Safe(w5) && AtStoring(w, w5, pid, g, true)
    ensures AtWaiting(w, Turn(w5, pid, g), pid, g)
  {
    LeaseIsValid(w, w.config);
    StoreAnswersIff(w5, pid);
    var w6 := Turn(w5, pid, g);
    assert w6.row == w5.row.(tx := Some(TheTx(w, g)), ops := w5.row.ops + [SyncOp(TheTx(w, g), Pending)]);
    assert w6.row.ops[|w5.row.ops|] == SyncOp(TheTx(w, g), Pending);
  }

  lemma CallIsRefused(w: World, w5: World, pid: Pid, g: Given)
    requires Safe(w5) && AtStoring(w, w5, pid, g, false)
    ensures PhaseOf(Turn(w5, pid, g), pid).Idle? && Turn(w5, pid, g).row == w5.row
  {
    LeaseIsValid(w, w.config);
    StoreAnswersIff(w5, pid);
  }

  // ---------------------------------------------------------------- from the transaction to the end

  lemma TurnKeepsSafe(w: World, pid: Pid, g: Given)
    requires Safe(w)
    ensures Safe(Turn(w, pid, g))
  {
    var p := PhaseOf(w, pid);
    if p.Waiting? {
      NextKeepsSafe(w, Settle(p.tx, g.outcome));
      NextKeepsSafe(Next(w, Settle(p.tx, g.outcome)), Resume(pid, AnswerTo(p, g)));
    } else {
      NextKeepsSafe(w, Resume(pid, AnswerTo(p, g)));
    }
  }

  // The provider's answer has come.
  ghost predicate Decided(w: World, w': World, pid: Pid, g: Given) {
    && w.row.dest.Some? && w.row.keys != [] && w'.now == w.now && HoldsValid(w'.row, g.lease, w'.now) && !w'.row.status.Complete?
    && w'.row.tx == Some(TheTx(w, g)) && HasPending(w'.row, TheTx(w, g))
    && w'.row.keys == w.row.keys && w'.row.dest == w.row.dest && w'.row.completions == w.row.completions
    && w'.row.gross == w.row.gross && w'.row.preTotal == w.row.preTotal
    && (w'.row.status.SyncingPool? || w'.row.status.VerifyingDestination?)
    && TheTx(w, g) in w'.outcomes && w'.outcomes[TheTx(w, g)] == TheOutcome(w, g)
    && g.key !in w'.row.keys && g.key !in w'.provider
    && PhaseOf(w', pid) == if TheOutcome(w, g).ProviderFailed? then FailingSync(g.lease, TheTx(w, g))
                           else VerifyingSync(g.lease, w.row.dest.value, g.net, TheTx(w, g))
  }

  lemma SettlingDecides(w: World, w6: World, g: Given)
    requires SameOutside(w, w6) && w.row.keys != []
    ensures var w7 := Next(w6, Settle(TheTx(w, g), g.outcome));
            && w7 == w6.(outcomes := w7.outcomes) && TheTx(w, g) in w7.outcomes && w7.outcomes[TheTx(w, g)] == TheOutcome(w, g)
  {
  }

  lemma CallHears(w: World, w6: World, pid: Pid, g: Given)
    requires AtWaiting(w, w6, pid, g) && g.key !in w.row.keys && g.key !in w.provider
    ensures Decided(w, Turn(w6, pid, g), pid, g)
  {
    SettlingDecides(w, w6, g);
  }

  // What a failed sync leaves: a new key, no transaction, no lease.
  ghost predicate SyncFailedFrom(w: World, row': Row, g: Given) {
    row'.status.SyncFailed? && row'.tx.None? && row'.keys == w.row.keys + [g.key] && row'.lease.None? && row'.dest == w.row.dest
  }

  lemma FailingFails(w: World, w8: World, pid: Pid, g: Given)
    requires w.row.dest.Some? && w.row.keys != [] && HoldsValid(w8.row, g.lease, w8.now)
    requires w8.row.tx == Some(TheTx(w, g)) && HasPending(w8.row, TheTx(w, g)) && w8.row.keys == w.row.keys && w8.row.dest == w.row.dest
    requires g.key !in w8.row.keys && g.key !in w8.provider && PhaseOf(w8, pid) == FailingSync(g.lease, TheTx(w, g))
    ensures var w9 := Turn(w8, pid, g); PhaseOf(w9, pid).Idle? && SyncFailedFrom(w, w9.row, g)
  {
  }

  // What completing leaves: this transaction and this net amount, and no lease.
  ghost predicate CompletedFrom(w: World, row': Row, g: Given)
    requires w.row.keys != []
  {
    && row'.status.Complete? && row'.lease.None? && row'.tx == Some(TheTx(w, g)) && row'.dest == w.row.dest
    && row'.completions == w.row.completions + [(TheTx(w, g), g.net)] && row'.keys == w.row.keys
  }

  lemma MinedSyncEnds(w: World, w7: World, pid: Pid, g: Given)
    requires Decided(w, w7, pid, g) && TheOutcome(w, g) == Mined(false) && g.net <= w.row.gross
    ensures var w9 := Turn(Turn(w7, pid, g), pid, g);
            && PhaseOf(w9, pid).Idle?
            && (if g.net > 0 && g.postTotal >= w.row.preTotal + g.net && g.accepts && g.syncIsNew
                then CompletedFrom(w, w9.row, g) else w9.row == w7.row)
  {
    var w8 := Turn(w7, pid, g);
    assert w8.row == w7.row && w8.now == w7.now;
    if g.postTotal >= w.row.preTotal + g.net {
      assert PhaseOf(w8, pid) == Completing(g.lease, w.row.dest.value, g.net, TheTx(w, g), g.postTotal);
    } else {
      assert PhaseOf(w8, pid).Idle?;
    }
  }

  lemma RevertedSyncEnds(w: World, w7: World, pid: Pid, g: Given)
    requires Decided(w, w7, pid, g) && TheOutcome(w, g) == Mined(true)
    ensures var w9 := Turn(Turn(w7, pid, g), pid, g); PhaseOf(w9, pid).Idle? && SyncFailedFrom(w, w9.row, g)
  {
    var w8 := Turn(w7, pid, g);
    assert PhaseOf(w8, pid) == FailingSync(g.lease, TheTx(w, g)) && w8.row == w7.row && w8.now == w7.now && w8.provider == w7.provider;
    FailingFails(w, w8, pid, g);
  }

  lemma FailedSyncEnds(w: World, w7: World, pid: Pid, g: Given)
    requires Decided(w, w7, pid, g) && TheOutcome(w, g).ProviderFailed?
    ensures var w9 := Turn(Turn(w7, pid, g), pid, g); PhaseOf(w9, pid).Idle? && SyncFailedFrom(w, w9.row, g)
  {
    FailingFails(w, w7, pid, g);
    assert Turn(Turn(w7, pid, g), pid, g) == Turn(w7, pid, g);
  }

  // How the call ends, by what it depends on.
  ghost predicate EndsAs(w: World, w': World, pid: Pid, g: Given)
    requires w.row.dest.Some? && w.row.keys != []
  {
    && PhaseOf(w', pid).Idle?
    && (if Completes(w, g) then CompletedFrom(w, w'.row, g)
        else if SyncFails(w, g) then SyncFailedFrom(w, w'.row, g)
        else if w.row.dest.value in w.reverted then w'.row.status == Open && w'.row.dest.None? && w'.row.lease.None?
        else w'.row.dest == w.row.dest && w'.row.completions == w.row.completions && w'.row.keys == w.row.keys
             && (w'.row.status.VerifyingDestination? || w'.row.status.SyncingPool?) && Holds(w'.row, g.lease))
  }

  lemma WaitingEnds(w: World, w6: World, pid: Pid, g: Given)
    requires AtWaiting(w, w6, pid, g) && GetsThrough(w, g) && g.key !in w.row.keys && g.key !in w.provider
    ensures EndsAs(w, Turns(w6, pid, g, 3), pid, g)
  {
    CallHears(w, w6, pid, g);
    var w7 := Turn(w6, pid, g);
    FirstTurn(w6, pid, g, 3);
    FirstTurn(w7, pid, g, 2);
    FirstTurn(Turn(w7, pid, g), pid, g, 1);
    match TheOutcome(w, g)
    case ProviderFailed => FailedSyncEnds(w, w7, pid, g);
    case Mined(reverted) => if reverted { RevertedSyncEnds(w, w7, pid, g); } else { MinedSyncEnds(w, w7, pid, g); }
  }

  lemma EndedStays(w: World, w': World, pid: Pid, g: Given, n: nat)
    requires w.row.dest.Some? && w.row.keys != [] && EndsAs(w, w', pid, g)
    ensures EndsAs(w, Turns(w', pid, g, n), pid, g)
  {
    IdleStays(w', pid, g, n);
  }

  lemma FoundEnds(w: World, w3: World, pid: Pid, g: Given, marked: bool)
    requires Safe(w) && Possible(w, pid, g) && DestinationStands(w, g) && w.row.tx.Some? && AtReread(w, w3, pid, g, marked)
    ensures EndsAs(w, Turns(w3, pid, g, 6), pid, g)
  {
    FindsStored(w, w3, pid, g, marked);
    WaitingEnds(w, Turn(w3, pid, g), pid, g);
    FirstTurn(w3, pid, g, 6);
    TurnsAdd(Turn(w3, pid, g), pid, g, 3, 2);
    EndedStays(w, Turns(Turn(w3, pid, g), pid, g, 3), pid, g, 2);
  }

  lemma ThreeTurns(w: World, pid: Pid, g: Given)
    ensures Turns(w, pid, g, 6) == Turns(Turn(Turn(Turn(w, pid, g), pid, g), pid, g), pid, g, 3)
  {
    FirstTurn(w, pid, g, 6);
    FirstTurn(Turn(w, pid, g), pid, g, 5);
    FirstTurn(Turn(Turn(w, pid, g), pid, g), pid, g, 4);
  }

  lemma MarkedEnds(w: World, w3: World, pid: Pid, g: Given)
    requires Possible(w, pid, g) && GetsThrough(w, g) && w.row.tx.None? && w.row.keys != [] && Safe(w3) && AtReread(w, w3, pid, g, true)
    ensures EndsAs(w, Turns(w3, pid, g, 6), pid, g)
  {
    var w5 := Turn(Turn(w3, pid, g), pid, g);
    CallSubmits(w, w3, pid, g, true);
    TurnKeepsSafe(w3, pid, g);
    TurnKeepsSafe(Turn(w3, pid, g), pid, g);
    CallStores(w, w5, pid, g);
    WaitingEnds(w, Turn(w5, pid, g), pid, g);
    ThreeTurns(w3, pid, g);
  }

  lemma RefusedEndsAs(w: World, w5: World, w6: World, pid: Pid, g: Given)
    requires AtStoring(w, w5, pid, g, false) && !GetsThrough(w, g) && w.row.dest.value !in w.reverted
    requires PhaseOf(w6, pid).Idle? && w6.row == w5.row
    ensures EndsAs(w, w6, pid, g)
  {
  }

  lemma UnmarkedEnds(w: World, w3: World, pid: Pid, g: Given)
    requires Possible(w, pid, g) && DestinationStands(w, g) && w.row.status.SyncingPool?
    requires w.row.tx.None? && w.row.keys != [] && Safe(w3) && AtReread(w, w3, pid, g, false)
    ensures EndsAs(w, Turns(w3, pid, g, 6), pid, g)
  {
    var w5 := Turn(Turn(w3, pid, g), pid, g);
    CallSubmits(w, w3, pid, g, false);
    TurnKeepsSafe(w3, pid, g);
    TurnKeepsSafe(Turn(w3, pid, g), pid, g);
    CallIsRefused(w, w5, pid, g);
    RefusedEndsAs(w, w5, Turn(w5, pid, g), pid, g);
    ThreeTurns(w3, pid, g);
    EndedStays(w, Turn(w5, pid, g), pid, g, 3);
  }

  // From the reread on, with at most six awaits to go.
  lemma RereadEnds(w: World, w3: World, pid: Pid, g: Given, marked: bool)
    requires Safe(w) && Safe(w3) && Possible(w, pid, g) && DestinationStands(w, g) && AtReread(w, w3, pid, g, marked)
    requires marked <==> !w.row.status.SyncingPool?
    ensures w.row.keys != [] && EndsAs(w, Turns(w3, pid, g, 6), pid, g)
  {
    KeysThere(w);
    if w.row.tx.Some? {
      FoundEnds(w, w3, pid, g, marked);
    } else if marked {
      MarkedEnds(w, w3, pid, g);
    } else {
      UnmarkedEnds(w, w3, pid, g);
    }
  }

  lemma VerifiedEnds(w: World, w2: World, pid: Pid, g: Given)
    requires Safe(w) && Safe(w2) && Possible(w, pid, g) && DestinationStands(w, g)
    requires SameOutside(w, w2) && w2.provider == w.provider && w2.row == Claimed(w.row, w.now, w.config, g.lease)
    requires PhaseOf(w2, pid) == if w.row.status.SyncingPool? then Rereading(g.lease, w.row.dest.value, g.net, false)
                                 else Marking(g.lease, w.row.dest.value, g.net)
    ensures EndsAs(w, Turns(w2, pid, g, 7), pid, g)
  {
    if w.row.status.SyncingPool? {
      RereadEnds(w, w2, pid, g, false);
      TurnsAdd(w2, pid, g, 6, 1);
      EndedStays(w, Turns(w2, pid, g, 6), pid, g, 1);
    } else {
      FirstTurn(w2, pid, g, 7);
      CallMarks(w, w2, pid, g);
      TurnKeepsSafe(w2, pid, g);
      RereadEnds(w, Turn(w2, pid, g), pid, g, true);
    }
  }

  lemma RevertedEnds(w: World, w2: World, pid: Pid, g: Given)
    requires w.row.dest.Some? && w.row.keys != [] && w.row.dest.value in w.reverted
    requires w2.row == Claimed(w.row, w.now, w.config, g.lease) && PhaseOf(w2, pid) == RevertingDestination(g.lease, w.row.dest.value)
    ensures EndsAs(w, Turns(w2, pid, g, 7), pid, g)
  {
    var w3 := Turn(w2, pid, g);
    assert PhaseOf(w3, pid).Idle? && w3.row == w2.row.(dest := None, status := Open, lease := None);
    FirstTurn(w2, pid, g, 7);
    IdleStays(w3, pid, g, 6);
  }

  lemma KeysThere(w: World)
    requires Safe(w)
    ensures w.row.keys != []
  {
  }

  lemma TwoTurns(w: World, pid: Pid, g: Given, w1: World, w2: World)
    requires w1 == Turn(Next(w, Start(pid)), pid, g) && w2 == Turn(w1, pid, g)
    ensures WholeCall(w, pid, g) == Turns(w2, pid, g, 7)
  {
    FirstTurn(Next(w, Start(pid)), pid, g, 9);
    FirstTurn(w1, pid, g, 8);
  }

  lemma SafeAfterTwo(w: World, pid: Pid, g: Given, w1: World, w2: World)
    requires Safe(w) && w1 == Turn(Next(w, Start(pid)), pid, g) && w2 == Turn(w1, pid, g)
    ensures Safe(w1) && Safe(w2)
  {
    NextKeepsSafe(w, Start(pid));
    TurnKeepsSafe(Next(w, Start(pid)), pid, g);
    TurnKeepsSafe(w1, pid, g);
  }

  lemma CallEnds(w: World, pid: Pid, g: Given)
    requires Safe(w) && Possible(w, pid, g) && w.row.keys != []
    ensures EndsAs(w, WholeCall(w, pid, g), pid, g)
  {
    var w1 := Turn(Next(w, Start(pid)), pid, g);
    var w2 := Turn(w1, pid, g);
    TwoTurns(w, pid, g, w1, w2);
    CallStarts(w, pid, g);
    CallVerifies(w, w1, pid, g);
    SafeAfterTwo(w, pid, g, w1, w2);
    if DestinationStands(w, g) {
      VerifiedEnds(w, w2, pid, g);
    } else if w.row.dest.value in w.reverted {
      RevertedEnds(w, w2, pid, g);
    } else {
      IdleStays(w2, pid, g, 7);
    }
  }

  // ---------------------------------------------------------------- main results

  /** In every reachable world in which nobody holds the intent, an undisturbed call completes it, with this net
      amount and the transaction it waited for, if and only if the destination was not reverted and the amount
      is within the bounds and positive, the call got a transaction stored, that transaction succeeded, the
      total grew by the amount and the ledger accepts. */
  lemma CallCompletesIff(t: Terms, actions: seq<Action>, pid: Pid, g: Given)
    requires Possible(RunAll(t, actions), pid, g)
    ensures var (w, w') := (RunAll(t, actions), WholeCall(RunAll(t, actions), pid, g));
            && w.row.keys != [] && PhaseOf(w', pid).Idle?
            && (w'.row.status.Complete? <==> Completes(w, g))
            && (Completes(w, g) ==> w'.row.completions == [(TheTx(w, g), g.net)] && w'.row.tx == Some(TheTx(w, g)) && w'.row.lease.None?)
  {
    EveryRunIsSafe(t, actions);
    KeysThere(RunAll(t, actions));
    CallEnds(RunAll(t, actions), pid, g);
    assert RunAll(t, actions).row.completions == [];
  }

  /** It records the sync as failed, with a fresh key for the next one, if and only if it got that far and the
      transaction failed or was reverted; and it gives the destination up if and only if the chain reverted it. */
  lemma CallFailsIff(t: Terms, actions: seq<Action>, pid: Pid, g: Given)
    requires Possible(RunAll(t, actions), pid, g)
    ensures var (w, w') := (RunAll(t, actions), WholeCall(RunAll(t, actions), pid, g));
            && w.row.keys != []
            && (w'.row.status.SyncFailed? <==> SyncFails(w, g))
            && (SyncFails(w, g) ==> w'.row.tx.None? && w'.row.keys == w.row.keys + [g.key] && w'.row.lease.None?)
            && (w'.row.dest.None? <==> w.row.dest.value in w.reverted)
            && (w'.row.dest.None? ==> w'.row.status == Open && w'.row.lease.None?)
  {
    EveryRunIsSafe(t, actions);
    KeysThere(RunAll(t, actions));
    CallEnds(RunAll(t, actions), pid, g);
  }

  /** Such a call is one of the runs all other results are about. */
  lemma WholeCallIsARun(t: Terms, actions: seq<Action>, pid: Pid, g: Given) returns (more: seq<Action>)
    ensures RunAll(t, actions + more) == WholeCall(RunAll(t, actions), pid, g)
  {
    var started := actions + [Start(pid)];
    assert started[..|started| - 1] == actions;
    var rest := TurnsAreARun(t, started, pid, g, TurnOf(pid, g), AWAITS);
    more := [Start(pid)] + rest;
    assert started + rest == actions + more;
  }
}
