/** The two ledger procedures in closed form: what a batch of late transfers adds, and when a reconciliation completes
    its intent, on any ledger and in every run. */
module FundingLedgerCalls {
  import opened Options
  import opened LateFundingScan
  import opened FundingLedger
  import opened FundingLedgerSafety
  import Gaps = FundingLedgerGaps

  // ---------------------------------------------------------------- a batch of late transfers

  // Left to an intent: in its destination transaction, or attributed to it.
  predicate Claimed(db: Db, log: Log) {
    IsDestination(db, log.hash) || KeyOf(log) in db.attributed
  }

  // The batch has no error at this transfer: in range, and if it is recorded, then as it is.
  predicate Readable(db: Db, through: nat, log: Log) {
    log.value > 0 ==>
      && db.deploy <= log.block <= through
      && (!Claimed(db, log) && KeyOf(log) in db.late ==> db.late[KeyOf(log)].log == log)
  }

  predicate AllReadable(db: Db, through: nat, events: seq<Log>) {
    forall i :: 0 <= i < |events| ==> Readable(db, through, events[i])
  }

  predicate IsNews(db: Db, log: Log) {
    log.value > 0 && !Claimed(db, log) && KeyOf(log) !in db.late
  }

  // The transfers of a batch that nobody has recorded or claims.
  function News(db: Db, events: seq<Log>): seq<Log> {
    if events == [] then []
    else
      var last := events[|events| - 1];
      News(db, events[..|events| - 1]) + if IsNews(db, last) then [last] else []
  }

  function WithRows(late: map<Key, LateRow>, logs: seq<Log>): map<Key, LateRow> {
    if logs == [] then late
    else WithRows(late, logs[..|logs| - 1])[KeyOf(logs[|logs| - 1]) := LateRow(logs[|logs| - 1], None)]
  }

  // The ledger with these transfers recorded and credited.
  function WithNews(db: Db, logs: seq<Log>): Db {
    db.(late := WithRows(db.late, logs), pool := db.pool + Total(logs), credits := db.credits + logs)
  }

  ghost predicate Distinct(events: seq<Log>) {
    forall i, j :: 0 <= i < j < |events| ==> KeyOf(events[i]) != KeyOf(events[j])
  }

  lemma {:induction false} NewsMember(db: Db, events: seq<Log>, log: Log)
    ensures log in News(db, events) <==> log in events && IsNews(db, log)
  {
    if events != [] {
      NewsMember(db, events[..|events| - 1], log);
      assert events == events[..|events| - 1] + [events[|events| - 1]];
    }
  }

  lemma {:induction false} RowsAdded(late: map<Key, LateRow>, logs: seq<Log>, key: Key)
    requires forall i :: 0 <= i < |logs| ==> KeyOf(logs[i]) != key
    ensures key in WithRows(late, logs) <==> key in late
    ensures key in late ==> WithRows(late, logs)[key] == late[key]
  {
    if logs != [] { RowsAdded(late, logs[..|logs| - 1], key); }
  }

  lemma AddOne(db: Db, logs: seq<Log>, log: Log)
    ensures WithNews(db, logs + [log])
            == WithNews(db, logs).(late := WithNews(db, logs).late[KeyOf(log) := LateRow(log, None)],
                                   pool := WithNews(db, logs).pool + log.value, credits := WithNews(db, logs).credits + [log])
  {
    assert (logs + [log])[..|logs|] == logs;
  }

  // One more transfer, after the news before it.
  lemma NextEvent(db: Db, through: nat, front: seq<Log>, log: Log)
    requires forall i :: 0 <= i < |front| ==> KeyOf(front[i]) != KeyOf(log)
    ensures LateEvent(WithNews(db, News(db, front)), through, log)
            == if !Readable(db, through, log) then None
               else Some(WithNews(db, News(db, front) + if IsNews(db, log) then [log] else []))
  {
    var news := News(db, front);
    forall i | 0 <= i < |news| ensures KeyOf(news[i]) != KeyOf(log) { NewsMember(db, front, news[i]); }
    RowsAdded(db.late, news, KeyOf(log));
    AddOne(db, news, log);
    assert news + [] == news;
    assert IsDestination(WithNews(db, news), log.hash) <==> IsDestination(db, log.hash);
  }

  lemma NoNews(db: Db)
    ensures WithNews(db, []) == db
  {
    assert db.credits + [] == db.credits;
  }

  lemma {:induction false} FoldIs(db: Db, through: nat, events: seq<Log>)
    requires Distinct(events)
    ensures LateFold(db, through, events) == if AllReadable(db, through, events) then Some(WithNews(db, News(db, events))) else None
  {
    if events == [] {
      NoNews(db);
    } else {
      var (front, last) := (events[..|events| - 1], events[|events| - 1]);
      FoldIs(db, through, front);
      NextEvent(db, through, front, last);
      assert forall i :: 0 <= i < |front| ==> front[i] == events[i];
      assert AllReadable(db, through, events) <==> AllReadable(db, through, front) && Readable(db, through, last);
    }
  }

  /** A batch of distinct transfers goes through exactly if the range and the size are right, every transfer can be
      read and the pool holds what is new; then the new ones, and no others, are recorded and credited, in order. */
  lemma LateBatchIs(db: Db, through: nat, events: seq<Log>, advance: bool)
    requires Distinct(events)
    ensures LateRpc(db, through, events, advance)
            == if through >= db.deploy && |events| <= 1000 && AllReadable(db, through, events) && db.pool + Total(News(db, events)) <= MAX_POOL
               then Some(WithNews(db, News(db, events)).(cursor := if advance && through > db.cursor then through else db.cursor)) else None
  {
    FoldIs(db, through, events);
  }

  // ---------------------------------------------------------------- one reconciliation

  // The amounts are within the quotation, the total has grown by them, and the pool can hold them.
  predicate Affordable(db: Db, intent: Intent, net: nat, postTotal: nat) {
    0 < net <= intent.gross && intent.preTotal + net <= postTotal && db.pool + net <= MAX_POOL
  }

  // What is known of the first transfer is that it is this intent's, and all of the amount.
  predicate FirstIsOwn(db: Db, id: Id, first: Log, net: nat) {
    && (KeyOf(first) in db.attributed ==> db.attributed[KeyOf(first)] == id)
    && (KeyOf(first) in db.late ==> db.late[KeyOf(first)].log.value == net)
    && (KeyOf(first) in db.late && db.late[KeyOf(first)].intent.Some? ==> db.late[KeyOf(first)].intent == Some(id))
  }

  predicate SyncIsNew(db: Db, sync: Option<Key>) {
    sync.Some? ==> sync.value !in db.syncRows
  }

  predicate IsRefused(db: Db, id: Id, found: seq<Log>, postTotal: nat)
    requires found != []
  {
    || id !in db.intents
    || (db.intents[id].status.Open?
        && !(db.intents[id].dest == Some(found[0].hash) && Affordable(db, db.intents[id], Total(found), postTotal) && FirstIsOwn(db, id, found[0], Total(found))))
  }

  /** The procedure refuses exactly an unknown intent, or an open one whose amounts or first transfer are not in order;
      it completes exactly an open one with a new sync transaction; otherwise at most the first transfer is attributed. */
  lemma ReconcileIs(db: Db, id: Id, found: seq<Log>, sync: Option<Key>, postTotal: nat)
    requires found != []
    ensures var r := ReconcileRpc(db, id, found, sync, postTotal);
            && (r.Rejected? <==> IsRefused(db, id, found, postTotal))
            && (r.Answered? && r.completed <==> !IsRefused(db, id, found, postTotal) && db.intents[id].status.Open? && SyncIsNew(db, sync))
            && (r.Answered? && !r.completed ==>
                  r.db.pool == db.pool && r.db.credits == db.credits && r.db.intents == db.intents && r.db.syncRows == db.syncRows)
            && (r.Answered? && id in db.intents && db.intents[id].status.Complete? ==> r.db == db)
    ensures var (r, key) := (ReconcileRpc(db, id, found, sync, postTotal), KeyOf(found[0]));
            r.Answered? && r.completed ==>
              && r.db.intents == db.intents[id := db.intents[id].(status := Complete(Total(found), postTotal))]
              && (if key in db.late then r.db.pool == db.pool && r.db.credits == db.credits
                  else r.db.pool == db.pool + Total(found) && r.db.credits == db.credits + NonZero(found))
              && r.db.syncRows == db.syncRows + (if sync.Some? then {sync.value} else {})
    ensures var (r, key) := (ReconcileRpc(db, id, found, sync, postTotal), KeyOf(found[0]));
            r.Answered? ==>
              && r.db.deploy == db.deploy && r.db.cursor == db.cursor && r.db.late.Keys == db.late.Keys
              && (forall k :: k in db.late ==> r.db.late[k] == db.late[k] || (k == key && r.db.late[k] == db.late[k].(intent := Some(id))))
              && (id in db.intents && db.intents[id].status.Open? ==>
                    r.db.attributed == db.attributed[key := id] && (key in db.late ==> r.db.late[key].intent == Some(id)))
  {
  }

  // ---------------------------------------------------------------- in every run

  // A late row that was given to an intent is attributed to it.
  ghost predicate LateOwned(db: Db) {
    forall key :: key in db.late && db.late[key].intent.Some? ==> key in db.attributed && Some(db.attributed[key]) == db.late[key].intent
  }

  lemma EventKeepsOwned(db: Db, through: nat, log: Log)
    requires LateOwned(db) && LateEvent(db, through, log).Some?
    ensures LateOwned(LateEvent(db, through, log).value)
  {
  }

  lemma {:induction false} FoldKeepsOwned(db: Db, through: nat, events: seq<Log>)
    requires LateOwned(db) && LateFold(db, through, events).Some?
    ensures LateOwned(LateFold(db, through, events).value)
  {
    if events != [] {
      FoldKeepsOwned(db, through, events[..|events| - 1]);
      EventKeepsOwned(LateFold(db, through, events[..|events| - 1]).value, through, events[|events| - 1]);
    }
  }

  lemma LateCallKeepsOwned(w: World, pid: Pid, scan: Scan, events: seq<Log>, advance: bool, after: map<Pid, Scan>)
    requires LateOwned(w.db)
    ensures LateOwned(LateCall(w, pid, scan, events, advance, after).db)
  {
    if LateFold(w.db, scan.through, events).Some? { FoldKeepsOwned(w.db, scan.through, events); }
  }

  lemma AnswerKeepsOwned(db: Db, id: Id, found: seq<Log>, sync: Option<Key>, postTotal: nat)
    requires LateOwned(db) && found != [] && ReconcileRpc(db, id, found, sync, postTotal).Answered?
    ensures LateOwned(ReconcileRpc(db, id, found, sync, postTotal).db)
  {
  }

  lemma ReconcileKeepsOwned(w: World, a: Action)
    requires LateOwned(w.db) && a.Reconcile?
    ensures LateOwned(Next(w, a).db)
  {
    if a.id in w.db.intents && VerifyDestination(w.chain, w.db.intents[a.id]).Some? {
      var found := VerifyDestination(w.chain, w.db.intents[a.id]).value;
      if ReconcileRpc(w.db, a.id, found, a.sync, a.postTotal).Answered? { AnswerKeepsOwned(w.db, a.id, found, a.sync, a.postTotal); }
    }
  }

  lemma StepKeepsOwned(w: World, a: Action)
    requires LateOwned(w.db)
    ensures LateOwned(Next(w, a).db)
  {
    if a.RecordBatch? && a.pid in w.scans && w.scans[a.pid].done < |w.scans[a.pid].events| {
      var scan := w.scans[a.pid];
      LateCallKeepsOwned(w, a.pid, scan, Batch(scan), false, w.scans[a.pid := scan.(done := scan.done + |Batch(scan)|)]);
    } else if a.AdvanceCursor? && a.pid in w.scans && w.scans[a.pid].done >= |w.scans[a.pid].events| {
      LateCallKeepsOwned(w, a.pid, w.scans[a.pid], [], true, w.scans - {a.pid});
    } else if a.Reconcile? {
      ReconcileKeepsOwned(w, a);
    }
  }

  lemma {:induction false} EveryRunKeepsOwned(deploy: nat, actions: seq<Action>)
    ensures LateOwned(RunAll(deploy, actions).db)
  {
    if actions != [] {
      EveryRunKeepsOwned(deploy, actions[..|actions| - 1]);
      StepKeepsOwned(RunAll(deploy, actions[..|actions| - 1]), actions[|actions| - 1]);
    }
  }

  // The transfers that count towards an intent, and what they must be for it to complete.
  predicate Completable(w: World, id: Id, sync: Option<Key>, postTotal: nat)
    requires id in w.db.intents
  {
    var (intent, found) := (w.db.intents[id], Matching(w.chain, w.db.intents[id]));
    && intent.status.Open? && found != [] && (intent.route == UnifiedBalance || |found| == 1)
    && 0 < Total(found) <= intent.gross <= Total(found) + intent.fee
    && intent.preTotal + Total(found) <= postTotal && w.db.pool + Total(found) <= MAX_POOL
    && (KeyOf(found[0]) in w.db.late ==> w.db.late[KeyOf(found[0])].log.value == Total(found))
    && SyncIsNew(w.db, sync)
  }

  lemma FirstIsItsOwn(w: World, id: Id, found: seq<Log>)
    requires OwnersOk(w.chain, w.db) && Gaps.ClaimsUnique(w.db) && LateOwned(w.db) && Evidence(w, id, found)
    ensures found != [] && w.db.intents[id].dest == Some(found[0].hash)
    ensures FirstIsOwn(w.db, id, found[0], Total(found)) <==> (KeyOf(found[0]) in w.db.late ==> w.db.late[KeyOf(found[0])].log.value == Total(found))
  {
    MatchingIsMined(w.chain, w.db.intents[id]);
    if KeyOf(found[0]) in w.db.attributed { Gaps.AttributedIsOwn(w, id, found); }
  }

  lemma CompletesStep(w: World, id: Id, sync: Option<Key>, postTotal: nat)
    requires OwnersOk(w.chain, w.db) && Gaps.ClaimsUnique(w.db) && LateOwned(w.db) && id in w.db.intents && w.db.intents[id].status.Open?
    ensures var w' := Next(w, Reconcile(id, sync, postTotal));
            && id in w'.db.intents && (w'.db.intents[id].status.Complete? <==> Completable(w, id, sync, postTotal))
            && (Completable(w, id, sync, postTotal) ==>
                  w'.db.intents[id].status == Complete(Total(Matching(w.chain, w.db.intents[id])), postTotal))
  {
    if VerifyDestination(w.chain, w.db.intents[id]).Some? {
      var found := VerifyDestination(w.chain, w.db.intents[id]).value;
      FirstIsItsOwn(w, id, found);
      ReconcileIs(w.db, id, found, sync, postTotal);
    }
  }

  /** In every run, a reconciliation completes an open intent exactly if transfers from the expected sender are in its
      transaction, one of them unless it is a unified balance; their sum is positive and within the quotation; the
      total has grown by it and the pool can hold it; the first of them, if it was recorded as late funding, was
      recorded with all of it; and the sync transaction is new. */
  lemma CompletesIff(deploy: nat, actions: seq<Action>, id: Id, sync: Option<Key>, postTotal: nat)
    requires CleanRun(deploy, actions)
    requires var w := RunAll(deploy, actions); id in w.db.intents && w.db.intents[id].status.Open?
    ensures var (w, w') := (RunAll(deploy, actions), Next(RunAll(deploy, actions), Reconcile(id, sync, postTotal)));
            && id in w'.db.intents && (w'.db.intents[id].status.Complete? <==> Completable(w, id, sync, postTotal))
            && (Completable(w, id, sync, postTotal) ==>
                  w'.db.intents[id].status == Complete(Total(Matching(w.chain, w.db.intents[id])), postTotal))
  {
    EveryRunIsSafe(deploy, actions);
    Gaps.EveryRunKeepsClaims(deploy, actions);
    EveryRunKeepsOwned(deploy, actions);
    CompletesStep(RunAll(deploy, actions), id, sync, postTotal);
  }

  lemma {:induction false} InLogsIff(chain: seq<Log>, lo: int, hi: int, log: Log)
    ensures log in LogsIn(chain, lo, hi) <==> log in chain && lo <= log.block <= hi
  {
    if chain != [] {
      InLogsIff(chain[..|chain| - 1], lo, hi, log);
      assert chain == chain[..|chain| - 1] + [chain[|chain| - 1]];
    }
  }

  /** A scan lists every transfer of value from the block before the cursor to the head, and nothing else; the first one
      starts at the deployment. */
  lemma ScanListsIff(w: World, pid: Pid, log: Log)
    requires w.db.deploy <= w.db.cursor
    ensures var w' := Next(w, StartScan(pid));
            pid in w'.scans && w'.scans[pid].done == 0 && w'.scans[pid].through == w.head
            && (log in w'.scans[pid].events <==>
                  log in w.chain && log.value > 0 && w.db.deploy <= log.block <= w.head && w.db.cursor <= log.block + 1)
  {
    InLogsIff(w.chain, ScanFrom(w.db), w.head, log);
    NonZeroMembers(LogsIn(w.chain, ScanFrom(w.db), w.head), log);
  }
}
