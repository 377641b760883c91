/** Transfers in an intent's destination transaction: every scan leaves them to the intent, so they reach the
    pool through it or not at all. */
module FundingLedgerGaps {
  import opened Options
  import opened LateFundingScan
  import opened FundingLedger
  import opened FundingLedgerSafety

  // The reconciliation of the intent can still go through and credit what it finds.
  predicate CanComplete(w: World, id: Id)
    requires id in w.db.intents
  {
    var intent := w.db.intents[id];
    var found := VerifyDestination(w.chain, intent);
    && intent.status.Open? && found.Some?
    && 0 < Total(found.value) <= intent.gross <= Total(found.value) + intent.fee
    && KeyOf(found.value[0]) !in w.db.late && w.db.pool + Total(found.value) <= MAX_POOL
  }

  /** It matches the intent, what arrived is within the intent's bounds and the pool's, and the first matching
      transfer was not recorded as late funding before the intent claimed it. */
  predicate Creditable(w: World, id: Id, log: Log)
    requires id in w.db.intents
  {
    log.value > 0 && Matches(w.db.intents[id], log) && CanComplete(w, id)
  }

  predicate OnlyClaim(db: Db, id: Id, hash: nat) {
    forall other :: other in db.intents && db.intents[other].dest == Some(hash) ==> other == id
  }

  // The transfer is in the intent's transaction and nobody has credited it.
  predicate Uncredited(w: World, id: Id, log: Log) {
    && id in w.db.intents && w.db.intents[id].dest == Some(log.hash)
    && log in w.chain && KeyOf(log) !in w.db.late && log !in w.db.credits
  }

  predicate Lost(w: World, id: Id, log: Log) {
    Uncredited(w, id, log) && log.hash !in w.reverted && OnlyClaim(w.db, id, log.hash) && !Creditable(w, id, log)
  }

  // ---------------------------------------------------------------- no step recovers a lost transfer

  lemma ChainedIsMined(w: World, log: Log)
    requires log in w.chain
    ensures Mined(w.chain, log.hash)
  {
    var i :| 0 <= i < |w.chain| && w.chain[i] == log;
    assert w.chain[i].hash == log.hash;
  }

  lemma MineKeepsLost(w: World, logs: seq<Log>, id: Id, log: Log)
    requires Lost(w, id, log)
    ensures Lost(Next(w, Mine(logs)), id, log)
  {
    if NextBlock(w, logs) {
      ChainedIsMined(w, log);
      forall i | 0 <= i < |logs| ensures !Matches(w.db.intents[id], logs[i]) { assert logs[i].hash != log.hash; }
      MatchingAppend(w.chain, logs, w.db.intents[id]);
    }
  }

  // How the database moves, as far as a claimed transfer depends on it.
  ghost predicate Leaves(db: Db, db': Db, id: Id, log: Log) {
    && id in db.intents && id in db'.intents
    && KeyOf(log) !in db'.late && log !in db'.credits && db.late.Keys <= db'.late.Keys && db.pool <= db'.pool
    && db'.intents[id] == db.intents[id].(status := db'.intents[id].status)
    && (db'.intents[id].status.Open? ==> db.intents[id].status.Open?)
    && (OnlyClaim(db, id, log.hash) ==> OnlyClaim(db', id, log.hash))
  }

  lemma LeavesKeepsLost(w: World, w': World, id: Id, log: Log)
    requires Lost(w, id, log) && Leaves(w.db, w'.db, id, log) && w'.chain == w.chain && w'.reverted == w.reverted
    ensures Lost(w', id, log)
  {
    MatchingSame(w.chain, w.db.intents[id], w'.db.intents[id]);
  }

  lemma {:induction false} FoldLeavesClaimed(db: Db, through: nat, events: seq<Log>, log: Log)
    requires IsDestination(db, log.hash) && KeyOf(log) !in db.late && log !in db.credits && LateFold(db, through, events).Some?
    ensures var r := LateFold(db, through, events).value;
            && r.intents == db.intents && KeyOf(log) !in r.late && log !in r.credits && db.late.Keys <= r.late.Keys && db.pool <= r.pool
  {
    if events != [] { FoldLeavesClaimed(db, through, events[..|events| - 1], log); }
  }

  lemma RecordingLeaves(w: World, through: nat, events: seq<Log>, advance: bool, id: Id, log: Log)
    requires Lost(w, id, log) && LateRpc(w.db, through, events, advance).Some?
    ensures Leaves(w.db, LateRpc(w.db, through, events, advance).value, id, log)
  {
    assert IsDestination(w.db, log.hash);
    FoldLeavesClaimed(w.db, through, events, log);
  }

  lemma CallKeepsLost(w: World, pid: Pid, scan: Scan, events: seq<Log>, advance: bool, after: map<Pid, Scan>, id: Id, log: Log)
    requires Lost(w, id, log)
    ensures Lost(LateCall(w, pid, scan, events, advance, after), id, log)
  {
    if LateRpc(w.db, scan.through, events, advance).Some? {
      RecordingLeaves(w, scan.through, events, advance, id, log);
      LeavesKeepsLost(w, LateCall(w, pid, scan, events, advance, after), id, log);
    }
  }

  lemma ScanKeepsLost(w: World, a: Action, id: Id, log: Log)
    requires Lost(w, id, log) && (a.StartScan? || a.RecordBatch? || a.AdvanceCursor? || a.CrashScan?)
    ensures Lost(Next(w, a), id, log)
  {
    if a.RecordBatch? && a.pid in w.scans && w.scans[a.pid].done < |w.scans[a.pid].events| {
      var scan := w.scans[a.pid];
      CallKeepsLost(w, a.pid, scan, Batch(scan), false, w.scans[a.pid := scan.(done := scan.done + |Batch(scan)|)], id, log);
    } else if a.AdvanceCursor? && a.pid in w.scans && w.scans[a.pid].done >= |w.scans[a.pid].events| {
      CallKeepsLost(w, a.pid, w.scans[a.pid], [], true, w.scans - {a.pid}, id, log);
    }
  }

  lemma IntentStepKeepsLost(w: World, a: Action, id: Id, log: Log)
    requires Lost(w, id, log) && (a.OpenIntent? || a.AttachHash? || a.ClearReverted?)
    ensures Lost(Next(w, a), id, log)
  {
    assert IsDestination(w.db, log.hash);
    assert Leaves(w.db, Next(w, a).db, id, log);
    LeavesKeepsLost(w, Next(w, a), id, log);
  }

  // An answer that does not credit the transfer.
  lemma AnswerLeaves(db: Db, target: Id, found: seq<Log>, sync: Option<Key>, postTotal: nat, id: Id, log: Log)
    requires target in db.intents && id in db.intents && found != [] && KeyOf(log) !in db.late && log !in db.credits
    requires log !in NonZero(found) || KeyOf(found[0]) in db.late
    requires ReconcileRpc(db, target, found, sync, postTotal).Answered?
    ensures Leaves(db, ReconcileRpc(db, target, found, sync, postTotal).db, id, log)
  {
  }

  lemma AnsweredKeepsLost(w: World, target: Id, found: seq<Log>, sync: Option<Key>, postTotal: nat, id: Id, log: Log)
    requires Lost(w, id, log) && Evidence(w, target, found) && ReconcileRpc(w.db, target, found, sync, postTotal).Answered?
    requires log !in NonZero(found) || KeyOf(found[0]) in w.db.late
    ensures Lost(w.(db := ReconcileRpc(w.db, target, found, sync, postTotal).db), id, log)
  {
    AnswerLeaves(w.db, target, found, sync, postTotal, id, log);
    LeavesKeepsLost(w, w.(db := ReconcileRpc(w.db, target, found, sync, postTotal).db), id, log);
  }

  // What somebody else's reconciliation credits is in another transaction.
  lemma NotInOthers(w: World, target: Id, id: Id, log: Log)
    requires Lost(w, id, log) && target in w.db.intents && target != id
    ensures log !in NonZero(Matching(w.chain, w.db.intents[target]))
  {
    NonZeroMembers(Matching(w.chain, w.db.intents[target]), log);
    MatchingMembers(w.chain, w.db.intents[target], log);
  }

  lemma UnmatchedIsNotFound(w: World, id: Id, log: Log)
    requires id in w.db.intents && (log.value == 0 || !Matches(w.db.intents[id], log))
    ensures log !in NonZero(Matching(w.chain, w.db.intents[id]))
  {
    NonZeroMembers(Matching(w.chain, w.db.intents[id]), log);
    MatchingMembers(w.chain, w.db.intents[id], log);
  }

  // Its own reconciliation, if it goes through at all, credits nothing or not this.
  lemma OwnAnswer(w: World, id: Id, found: seq<Log>, sync: Option<Key>, postTotal: nat, log: Log)
    requires Lost(w, id, log) && Evidence(w, id, found) && Total(found) + w.db.intents[id].fee >= w.db.intents[id].gross
    requires ReconcileRpc(w.db, id, found, sync, postTotal).Answered?
    ensures ReconcileRpc(w.db, id, found, sync, postTotal).db == w.db || log !in NonZero(found) || KeyOf(found[0]) in w.db.late
  {
    if log.value == 0 || !Matches(w.db.intents[id], log) { UnmatchedIsNotFound(w, id, log); }
  }

  lemma ReconcileKeepsLost(w: World, target: Id, sync: Option<Key>, postTotal: nat, id: Id, log: Log)
    requires Lost(w, id, log)
    ensures Lost(Next(w, Reconcile(target, sync, postTotal)), id, log)
  {
    var a := Reconcile(target, sync, postTotal);
    if target in w.db.intents && Next(w, a) != w {
      var found := VerifyDestination(w.chain, w.db.intents[target]).value;
      assert Next(w, a) == w.(db := ReconcileRpc(w.db, target, found, sync, postTotal).db);
      if target == id { OwnAnswer(w, id, found, sync, postTotal, log); } else { NotInOthers(w, target, id, log); }
      AnsweredKeepsLost(w, target, found, sync, postTotal, id, log);
    }
  }

  lemma StepKeepsLost(w: World, a: Action, id: Id, log: Log)
    requires Lost(w, id, log)
    ensures Lost(Next(w, a), id, log)
  {
    match a
    case Mine(logs) => MineKeepsLost(w, logs, id, log);
    case MineReverted(_) => ChainedIsMined(w, log);
    case OpenIntent(_, _) => IntentStepKeepsLost(w, a, id, log);
    case AttachHash(_, _) => IntentStepKeepsLost(w, a, id, log);
    case ClearReverted(_) => IntentStepKeepsLost(w, a, id, log);
    case Reconcile(target, sync, postTotal) => ReconcileKeepsLost(w, target, sync, postTotal, id, log);
    case _ => ScanKeepsLost(w, a, id, log);
  }

  /** A transfer that is not creditable is never credited: the intent keeps its transaction for ever, so every
      scan that finds the transfer leaves it to the intent, and the intent's reconciliation never takes it. */
  lemma {:induction false} LostForever(deploy: nat, actions: seq<Action>, more: seq<Action>, id: Id, log: Log)
    requires Lost(RunAll(deploy, actions), id, log)
    ensures Lost(RunAll(deploy, actions + more), id, log)
    decreases |more|
  {
    if more == [] {
      assert actions + more == actions;
    } else {
      var front := more[..|more| - 1];
      LostForever(deploy, actions, front, id, log);
      assert (actions + more)[..|actions + more| - 1] == actions + front;
      StepKeepsLost(RunAll(deploy, actions + front), more[|more| - 1], id, log);
    }
  }

  // ---------------------------------------------------------------- and otherwise the next reconciliation credits it

  ghost predicate ClaimsUnique(db: Db) {
    forall a, b :: a in db.intents && b in db.intents && db.intents[a].dest.Some? && db.intents[a].dest == db.intents[b].dest ==> a == b
  }

  lemma {:induction false} FoldKeepsIntents(db: Db, through: nat, events: seq<Log>)
    requires LateFold(db, through, events).Some?
    ensures LateFold(db, through, events).value.intents == db.intents
  {
    if events != [] { FoldKeepsIntents(db, through, events[..|events| - 1]); }
  }

  lemma LateCallKeepsIntents(w: World, pid: Pid, scan: Scan, events: seq<Log>, advance: bool, after: map<Pid, Scan>)
    ensures LateCall(w, pid, scan, events, advance, after).db.intents == w.db.intents
  {
    if LateFold(w.db, scan.through, events).Some? { FoldKeepsIntents(w.db, scan.through, events); }
  }

  lemma StepKeepsClaims(w: World, a: Action)
    requires ClaimsUnique(w.db)
    ensures ClaimsUnique(Next(w, a).db)
  {
    if a.RecordBatch? && a.pid in w.scans && w.scans[a.pid].done < |w.scans[a.pid].events| {
      var scan := w.scans[a.pid];
      LateCallKeepsIntents(w, a.pid, scan, Batch(scan), false, w.scans[a.pid := scan.(done := scan.done + |Batch(scan)|)]);
    } else if a.AdvanceCursor? && a.pid in w.scans && w.scans[a.pid].done >= |w.scans[a.pid].events| {
      LateCallKeepsIntents(w, a.pid, w.scans[a.pid], [], true, w.scans - {a.pid});
    }
  }

  lemma {:induction false} EveryRunKeepsClaims(deploy: nat, actions: seq<Action>)
    ensures ClaimsUnique(RunAll(deploy, actions).db)
  {
    if actions != [] {
      EveryRunKeepsClaims(deploy, actions[..|actions| - 1]);
      StepKeepsClaims(RunAll(deploy, actions[..|actions| - 1]), actions[|actions| - 1]);
    }
  }

  lemma AttributedIsOwn(w: World, id: Id, found: seq<Log>)
    requires OwnersOk(w.chain, w.db) && ClaimsUnique(w.db) && Evidence(w, id, found) && KeyOf(found[0]) in w.db.attributed
    ensures w.db.attributed[KeyOf(found[0])] == id
  {
    var owner := w.db.attributed[KeyOf(found[0])];
    assert Proven(w.chain, w.db, KeyOf(found[0]), owner);
    MatchingIsMined(w.chain, w.db.intents[owner]);
    MatchingIsMined(w.chain, w.db.intents[id]);
  }

  lemma CompletionCredits(w: World, id: Id, found: seq<Log>, postTotal: nat, log: Log)
    requires OwnersOk(w.chain, w.db) && ClaimsUnique(w.db) && Evidence(w, id, found) && CanComplete(w, id)
    requires log in NonZero(found) && postTotal == w.db.intents[id].preTotal + Total(found)
    ensures log in Next(w, Reconcile(id, None, postTotal)).db.credits
  {
    MatchingIsMined(w.chain, w.db.intents[id]);
    if KeyOf(found[0]) in w.db.attributed { AttributedIsOwn(w, id, found); }
    var r := ReconcileRpc(w.db, id, found, None, postTotal);
    assert r.Answered? && r.db.credits == w.db.credits + NonZero(found);
  }

  lemma CreditableIsCredited(deploy: nat, actions: seq<Action>, id: Id, log: Log)
    requires CleanRun(deploy, actions)
    requires var w := RunAll(deploy, actions); Uncredited(w, id, log) && Creditable(w, id, log)
    ensures exists more :: log in RunAll(deploy, actions + more).db.credits
  {
    var w := RunAll(deploy, actions);
    EveryRunIsSafe(deploy, actions);
    EveryRunKeepsClaims(deploy, actions);
    var found := VerifyDestination(w.chain, w.db.intents[id]).value;
    MatchingMembers(w.chain, w.db.intents[id], log);
    NonZeroMembers(found, log);
    var a := Reconcile(id, None, w.db.intents[id].preTotal + Total(found));
    CompletionCredits(w, id, found, a.postTotal, log);
    assert (actions + [a])[..|actions|] == actions;
    assert log in RunAll(deploy, actions + [a]).db.credits;
  }

  lemma UncreditableIsLost(deploy: nat, actions: seq<Action>, id: Id, log: Log)
    requires CleanRun(deploy, actions)
    requires var w := RunAll(deploy, actions); Uncredited(w, id, log) && !Creditable(w, id, log)
    ensures !exists more :: log in RunAll(deploy, actions + more).db.credits
  {
    var w := RunAll(deploy, actions);
    EveryRunIsSafe(deploy, actions);
    EveryRunKeepsClaims(deploy, actions);
    ChainedIsMined(w, log);
    forall more ensures log !in RunAll(deploy, actions + more).db.credits { LostForever(deploy, actions, more, id, log); }
  }

  /** A transfer in an intent's destination transaction that nobody has credited: some continuation credits it
      if and only if it is creditable now. */
  lemma EverCreditedIff(deploy: nat, actions: seq<Action>, id: Id, log: Log)
    requires CleanRun(deploy, actions) && Uncredited(RunAll(deploy, actions), id, log)
    ensures (exists more :: log in RunAll(deploy, actions + more).db.credits) <==> Creditable(RunAll(deploy, actions), id, log)
  {
    if Creditable(RunAll(deploy, actions), id, log) {
      CreditableIsCredited(deploy, actions, id, log);
    } else {
      UncreditableIsLost(deploy, actions, id, log);
    }
  }

  // ---------------------------------------------------------------- when the pool is everything received

  // Left to an intent by the scan, and not taken over by it.
  ghost predicate Withheld(w: World, log: Log) {
    log in w.chain && log.value > 0 && IsDestination(w.db, log.hash) && KeyOf(log) !in w.db.late && !CompleteMatch(w.db, log)
  }

  // Distinct transfers that make up the whole of what arrived leave out nothing but empty ones.
  lemma {:induction false} FullTotalTakesAll(logs: seq<Log>, chain: seq<Log>, log: Log)
    requires NoDup(logs) && log in chain && log !in logs && forall other :: other in logs ==> other in chain
    ensures Total(logs) + log.value <= Total(chain)
  {
    var all := logs + [log];
    DistinctTotalIsBounded(all, chain);
    TotalConcat(logs, [log]);
    assert Total([log]) == log.value by { assert [log][..0] == []; }
  }

  lemma AllCreditedIsEverything(w: World)
    requires LedgerOk(w) && forall log :: log in w.chain && log.value > 0 ==> log in w.db.credits
    ensures w.db.pool == Total(w.chain)
  {
    var received := NonZero(w.chain);
    NonZeroTotal(w.chain);
    NonZeroNoDup(w.chain);
    forall log | log in received ensures log in w.db.credits { NonZeroMembers(w.chain, log); }
    DistinctTotalIsBounded(received, w.db.credits);
    DistinctTotalIsBounded(w.db.credits, w.chain);
  }

  lemma CreditedIffNotWithheld(w: World, log: Log)
    requires Safe(w) && w.db.cursor == w.head && log in w.chain && log.value > 0 && log.block >= w.db.deploy
    ensures log !in w.db.credits <==> Withheld(w, log)
  {
    var i :| 0 <= i < |w.chain| && w.chain[i] == log;
    assert w.chain[i].block <= w.head;
    assert Handled(w.db, log);
  }

  lemma {:induction false} BlocksAreLater(deploy: nat, actions: seq<Action>, log: Log)
    requires log in RunAll(deploy, actions).chain
    ensures log.block >= deploy && RunAll(deploy, actions).head >= deploy
  {
    HeadGrows(deploy, actions);
    if actions != [] {
      var front := actions[..|actions| - 1];
      HeadGrows(deploy, front);
      if log in RunAll(deploy, front).chain { BlocksAreLater(deploy, front, log); }
    }
  }

  lemma {:induction false} HeadGrows(deploy: nat, actions: seq<Action>)
    ensures RunAll(deploy, actions).head >= deploy
  {
    if actions != [] { HeadGrows(deploy, actions[..|actions| - 1]); }
  }

  /** When the scans have caught up with the chain, the pool is everything the escrow has received if and only
      if no transfer is withheld: left to an intent that has not completed with it. */
  lemma PoolIsEverythingIff(deploy: nat, actions: seq<Action>)
    requires CleanRun(deploy, actions)
    requires RunAll(deploy, actions).db.cursor == RunAll(deploy, actions).head
    ensures var w := RunAll(deploy, actions);
            w.db.pool == Total(w.chain) <==> forall log :: !Withheld(w, log)
  {
    var w := RunAll(deploy, actions);
    EveryRunIsSafe(deploy, actions);
    DeployIsFixed(deploy, actions);
    forall log | log in w.chain && log.value > 0 ensures log !in w.db.credits <==> Withheld(w, log) {
      BlocksAreLater(deploy, actions, log);
      CreditedIffNotWithheld(w, log);
    }
    if exists log :: Withheld(w, log) {
      var log :| Withheld(w, log);
      FullTotalTakesAll(w.db.credits, w.chain, log);
    } else {
      AllCreditedIsEverything(w);
    }
  }

  // ---------------------------------------------------------------- a run that loses a transfer

  // An intent claims its transaction, the wallet sends more than was quoted, and a scan passes the transfer.
  function LosingRun(intent: Intent, log: Log): seq<Action> {
    [OpenIntent(0, intent), AttachHash(0, log.hash), Mine([log]), StartScan(0), RecordBatch(0), AdvanceCursor(0)]
  }

  predicate Overpays(intent: Intent, log: Log) {
    && intent.route.Send? && intent.dest.None? && intent.status.Open?
    && log.block == 1 && log.from == intent.wallet && log.value > intent.gross
  }

  function Claiming(intent: Intent, log: Log): map<Id, Intent> {
    map[0 := intent.(dest := Some(log.hash))]
  }

  lemma OneMatching(log: Log, intent: Intent)
    requires Matches(intent, log)
    ensures Matching([log], intent) == [log] && Total([log]) == log.value
  {
    assert [log][..0] == [];
  }

  lemma OneFound(log: Log, lo: nat, hi: nat)
    requires lo <= log.block <= hi && log.value > 0
    ensures FullScan([log], lo, hi) == [log]
  {
    assert [log][..0] == [];
    assert NonZero([log][..0]) == [] && LogsIn([log], lo, hi) == [log];
    assert NonZero([log]) == [log];
  }

  lemma Attaches(w: World, intent: Intent, log: Log)
    requires w == Start(0) && Overpays(intent, log)
    ensures Next(Next(w, OpenIntent(0, intent)), AttachHash(0, log.hash)) == w.(db := w.db.(intents := Claiming(intent, log)))
  {
    var w1 := Next(w, OpenIntent(0, intent));
    assert w1 == w.(db := w.db.(intents := map[0 := intent]));
    assert !IsDestination(w1.db, log.hash);
    assert w1.db.intents[0 := intent.(dest := Some(log.hash))] == Claiming(intent, log);
  }

  lemma MinesOne(w: World, log: Log)
    requires w.chain == [] && w.head == 0 && w.reverted == {} && log.block == 1
    ensures Next(w, Mine([log])) == w.(chain := [log], head := 1)
  {
    assert !Mined(w.chain, log.hash);
    assert NextBlock(w, [log]);
    assert w.chain + [log] == [log];
  }

  // A scan of one transfer that an intent claims, step by step.
  lemma StartsScan(w: World, log: Log)
    requires w.chain == [log] && log.value > 0 && log.block == w.head == 1 && w.scans == map[] && w.db.deploy == 0 && w.db.cursor == 0
    ensures Next(w, StartScan(0)) == w.(scans := map[0 := Scan(0, 1, [log], 0)])
  {
    OneFound(log, 0, 1);
    assert w.scans[0 := Scan(0, 1, [log], 0)] == map[0 := Scan(0, 1, [log], 0)];
  }

  lemma RecordsClaimed(w: World, scan: Scan, log: Log)
    requires w.scans == map[0 := scan] && scan.events == [log] && scan.done == 0 && scan.through >= w.db.deploy
    requires w.db.deploy <= log.block <= scan.through && IsDestination(w.db, log.hash) && w.db.pool <= MAX_POOL
    ensures Next(w, RecordBatch(0)) == w.(scans := map[0 := scan.(done := 1)])
  {
    assert Batch(scan) == [log] && [log][..0] == [];
    assert LateFold(w.db, scan.through, [log]) == LateEvent(w.db, scan.through, log) == Some(w.db);
    assert w.scans[0 := scan.(done := 1)] == map[0 := scan.(done := 1)];
  }

  lemma FinishesScan(w: World, scan: Scan)
    requires w.scans == map[0 := scan] && scan.done == |scan.events| && scan.through >= w.db.deploy && w.db.pool <= MAX_POOL
    requires scan.through > w.db.cursor
    ensures Next(w, AdvanceCursor(0)) == w.(db := w.db.(cursor := scan.through), scans := map[])
  {
    assert LateFold(w.db, scan.through, []) == Some(w.db);
    assert w.scans - {0} == map[];
  }

  lemma ScansClaimed(w: World, log: Log)
    requires w.chain == [log] && log.value > 0 && log.block == w.head == 1 && w.scans == map[]
    requires w.db.deploy == 0 && w.db.cursor == 0 && w.db.pool == 0 && IsDestination(w.db, log.hash)
    ensures Next(Next(Next(w, StartScan(0)), RecordBatch(0)), AdvanceCursor(0)) == w.(db := w.db.(cursor := 1))
  {
    var scan := Scan(0, 1, [log], 0);
    StartsScan(w, log);
    RecordsClaimed(w.(scans := map[0 := scan]), scan, log);
    FinishesScan(w.(scans := map[0 := scan.(done := 1)]), scan.(done := 1));
  }

  lemma ClaimedAndMined(w: World, intent: Intent, log: Log)
    requires w == Start(0) && Overpays(intent, log)
    ensures Next(Next(Next(w, OpenIntent(0, intent)), AttachHash(0, log.hash)), Mine([log]))
            == w.(chain := [log], head := 1, db := w.db.(intents := Claiming(intent, log)))
  {
    Attaches(w, intent, log);
    MinesOne(w.(db := w.db.(intents := Claiming(intent, log))), log);
  }

  lemma RunSixSteps(actions: seq<Action>)
    requires |actions| == 6
    ensures var w := Next(Next(Next(Start(0), actions[0]), actions[1]), actions[2]);
            RunAll(0, actions) == Next(Next(Next(w, actions[3]), actions[4]), actions[5])
  {
    assert actions[..0] == [] && actions[..6] == actions;
    RunStep(0, actions, 0);
    RunStep(0, actions, 1);
    RunStep(0, actions, 2);
    RunStep(0, actions, 3);
    RunStep(0, actions, 4);
    RunStep(0, actions, 5);
  }

  lemma LosingRunEnds(intent: Intent, log: Log)
    requires Overpays(intent, log)
    ensures var w := RunAll(0, LosingRun(intent, log));
            && w.chain == [log] && w.head == 1 && w.reverted == {}
            && w.db == Start(0).db.(intents := Claiming(intent, log), cursor := 1)
  {
    var w := Start(0).(chain := [log], head := 1, db := Start(0).db.(intents := Claiming(intent, log)));
    RunSixSteps(LosingRun(intent, log));
    ClaimedAndMined(Start(0), intent, log);
    assert w.db.intents[0].dest == Some(log.hash);
    ScansClaimed(w, log);
  }

  lemma OverpaymentIsLost(w: World, intent: Intent, log: Log)
    requires Overpays(intent, log) && w.chain == [log] && w.reverted == {} && w.db.late == map[] && w.db.credits == []
    requires w.db.intents == Claiming(intent, log)
    ensures Lost(w, 0, log) && Total(w.chain) == log.value
  {
    OneMatching(log, w.db.intents[0]);
    assert VerifyDestination(w.chain, w.db.intents[0]) == Some([log]);
  }

  /** Whenever the wallet sends more than the quoted gross amount, the scan passes the transfer, the pool stays
      empty, and no continuation ever credits it. */
  lemma LosingHappens(intent: Intent, log: Log, more: seq<Action>)
    requires Overpays(intent, log)
    ensures var w := RunAll(0, LosingRun(intent, log)); w.db.cursor == w.head && w.db.pool == 0 && Total(w.chain) == log.value > 0
    ensures Lost(RunAll(0, LosingRun(intent, log) + more), 0, log)
  {
    var run := LosingRun(intent, log);
    LosingRunEnds(intent, log);
    OverpaymentIsLost(RunAll(0, run), intent, log);
    LostForever(0, run, more, 0, log);
  }
}
