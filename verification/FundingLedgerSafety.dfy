/** What every run of the pool ledger keeps: no transfer is credited twice, the pool is the sum of the
    credited transfers, and the cursor never passes a transfer nobody accounts for. */
module FundingLedgerSafety {
  import opened Options
  import opened LateFundingScan
  import opened FundingLedger

  ghost predicate ChainOk(w: World) {
    && Ordered(w.chain)
    && (forall i :: 0 <= i < |w.chain| ==> w.chain[i].block <= w.head && w.chain[i].hash !in w.reverted)
    && (forall i, j :: 0 <= i < j < |w.chain| ==> KeyOf(w.chain[i]) != KeyOf(w.chain[j]))
    && (forall i, j :: 0 <= i < j < |w.chain| && w.chain[i].hash == w.chain[j].hash ==> w.chain[i].block == w.chain[j].block)
    && w.db.deploy <= w.db.cursor <= w.head
  }

  ghost predicate LateOk(chain: seq<Log>, db: Db) {
    forall key :: key in db.late ==>
      var log := db.late[key].log; KeyOf(log) == key && log in chain && log.value > 0 && log.block >= db.deploy
  }

  ghost predicate Proven(chain: seq<Log>, db: Db, key: Key, id: Id) {
    id in db.intents && Matching(chain, db.intents[id]) != [] && KeyOf(Matching(chain, db.intents[id])[0]) == key
  }

  // What a completed intent promises about its amounts.
  ghost predicate Settled(chain: seq<Log>, db: Db, id: Id)
    requires id in db.intents && db.intents[id].status.Complete?
  {
    var intent := db.intents[id];
    var found := VerifyDestination(chain, intent);
    && found.Some? && intent.status.net == Total(found.value)
    && intent.gross <= intent.status.net + intent.fee && intent.status.net <= intent.gross
    && intent.preTotal + intent.status.net <= intent.status.postTotal
    && KeyOf(found.value[0]) in db.attributed && db.attributed[KeyOf(found.value[0])] == id
  }

  ghost predicate OwnersOk(chain: seq<Log>, db: Db) {
    && (forall key :: key in db.attributed ==> Proven(chain, db, key, db.attributed[key]))
    && (forall id :: id in db.intents && db.intents[id].status.Complete? ==> Settled(chain, db, id))
  }

  // Within one transaction, a recorded transfer is preceded only by recorded ones.
  ghost predicate Closed(chain: seq<Log>, db: Db) {
    forall i, j :: 0 <= i < j < |chain| && chain[i].hash == chain[j].hash && chain[i].value > 0 && KeyOf(chain[j]) in db.late ==>
      KeyOf(chain[i]) in db.late
  }

  ghost predicate CompleteMatch(db: Db, log: Log) {
    exists id :: id in db.intents && db.intents[id].status.Complete? && Matches(db.intents[id], log)
  }

  ghost predicate Credited(db: Db, log: Log) {
    KeyOf(log) in db.late || CompleteMatch(db, log)
  }

  ghost predicate NoDup(logs: seq<Log>) {
    forall i, j :: 0 <= i < j < |logs| ==> logs[i] != logs[j]
  }

  /** The pool is the sum of the credited transfers, each credited once, and a transfer is credited
      exactly when a late-funding row records it or a completed intent matches it. */
  ghost predicate CreditsOk(chain: seq<Log>, db: Db) {
    && NoDup(db.credits) && Total(db.credits) == db.pool
    && (forall log :: log in db.credits ==> log in chain && log.value > 0)
    && (forall log :: log in chain && log.value > 0 ==> (log in db.credits <==> Credited(db, log)))
  }

  ghost predicate LedgerOk(w: World) {
    ChainOk(w) && LateOk(w.chain, w.db) && OwnersOk(w.chain, w.db) && Closed(w.chain, w.db) && CreditsOk(w.chain, w.db)
  }

  // Recorded, or left to the intent whose destination transaction it belongs to.
  ghost predicate Handled(db: Db, log: Log) {
    KeyOf(log) in db.late || IsDestination(db, log.hash)
  }

  ghost predicate CursorOk(w: World) {
    forall log :: log in w.chain && Wanted(log, w.db.deploy, w.db.cursor) ==> Handled(w.db, log)
  }

  ghost predicate ScanOk(w: World, scan: Scan) {
    && w.db.deploy <= scan.from <= w.db.cursor && scan.from <= scan.through + 1 && w.db.deploy <= scan.through <= w.head
    && scan.events == FullScan(w.chain, scan.from, scan.through)
    && scan.done <= |scan.events|
    && forall k :: 0 <= k < scan.done ==> Handled(w.db, scan.events[k])
  }

  ghost predicate ScansOk(w: World) {
    forall pid :: pid in w.scans ==> ScanOk(w, w.scans[pid])
  }

  ghost predicate Safe(w: World) {
    LedgerOk(w) && CursorOk(w) && ScansOk(w)
  }

  // ---------------------------------------------------------------- matching transfers

  lemma {:induction false} MatchingMembers(chain: seq<Log>, intent: Intent, log: Log)
    ensures log in Matching(chain, intent) <==> log in chain && Matches(intent, log)
  {
    if chain != [] {
      var front := chain[..|chain| - 1];
      MatchingMembers(front, intent, log);
      assert chain == front + [chain[|chain| - 1]];
    }
  }

  lemma {:induction false} MatchingAppend(chain: seq<Log>, more: seq<Log>, intent: Intent)
    requires forall i :: 0 <= i < |more| ==> !Matches(intent, more[i])
    ensures Matching(chain + more, intent) == Matching(chain, intent)
    decreases |more|
  {
    if more == [] {
      assert chain + more == chain;
    } else {
      var front := more[..|more| - 1];
      MatchingAppend(chain, front, intent);
      assert (chain + more)[..|chain + more| - 1] == chain + front;
    }
  }

  // The matching transfers are listed in chain order.
  lemma {:induction false} MatchingOrder(chain: seq<Log>, intent: Intent, a: nat, b: nat) returns (i: nat, j: nat)
    requires a < b < |Matching(chain, intent)|
    ensures i < j < |chain| && chain[i] == Matching(chain, intent)[a] && chain[j] == Matching(chain, intent)[b]
  {
    assert chain == [] ==> Matching(chain, intent) == [];
    var front := chain[..|chain| - 1];
    var found := Matching(front, intent);
    if b < |found| {
      i, j := MatchingOrder(front, intent, a, b);
    } else {
      MatchingMembers(front, intent, found[a]);
      i :| 0 <= i < |front| && front[i] == found[a];
      j := |chain| - 1;
    }
  }

  lemma {:induction false} MatchingSame(chain: seq<Log>, a: Intent, b: Intent)
    requires a.dest == b.dest && ExpectedFrom(a) == ExpectedFrom(b)
    ensures Matching(chain, a) == Matching(chain, b)
  {
    if chain != [] { MatchingSame(chain[..|chain| - 1], a, b); }
  }

  lemma {:induction false} TotalConcat(a: seq<Log>, b: seq<Log>)
    ensures Total(a + b) == Total(a) + Total(b)
    decreases |b|
  {
    if b == [] {
      assert a + b == a;
    } else {
      TotalConcat(a, b[..|b| - 1]);
      assert (a + b)[..|a + b| - 1] == a + b[..|b| - 1];
    }
  }

  lemma {:induction false} NonZeroTotal(logs: seq<Log>)
    ensures Total(NonZero(logs)) == Total(logs)
  {
    if logs != [] {
      var last := logs[|logs| - 1];
      NonZeroTotal(logs[..|logs| - 1]);
      TotalConcat(NonZero(logs[..|logs| - 1]), [last]);
      assert Total([last]) == last.value by { assert [last][..0] == []; }
    }
  }

  lemma {:induction false} NonZeroMembers(logs: seq<Log>, log: Log)
    ensures log in NonZero(logs) <==> log in logs && log.value > 0
  {
    if logs != [] {
      var front := logs[..|logs| - 1];
      NonZeroMembers(front, log);
      assert logs == front + [logs[|logs| - 1]];
    }
  }

  lemma {:induction false} NonZeroNoDup(logs: seq<Log>)
    requires NoDup(logs)
    ensures NoDup(NonZero(logs))
  {
    if logs != [] {
      var front := logs[..|logs| - 1];
      NonZeroNoDup(front);
      var last := logs[|logs| - 1];
      NonZeroMembers(front, last);
      assert last !in front;
    }
  }

  lemma MatchingNoDup(w: World, intent: Intent)
    requires ChainOk(w)
    ensures NoDup(Matching(w.chain, intent))
  {
    var found := Matching(w.chain, intent);
    forall a, b | 0 <= a < b < |found| ensures found[a] != found[b] {
      var i, j := MatchingOrder(w.chain, intent, a, b);
      assert KeyOf(w.chain[i]) != KeyOf(w.chain[j]);
    }
  }

  lemma {:induction false} OneIsAll(logs: seq<Log>, k: nat)
    requires 0 < k < |logs| && Total(logs) == logs[0].value
    ensures logs[k].value == 0
  {
    var front := logs[..|logs| - 1];
    TotalAtLeastFirst(front);
    if k < |logs| - 1 { OneIsAll(front, k); }
  }

  lemma {:induction false} TotalAtLeastFirst(logs: seq<Log>)
    requires logs != []
    ensures Total(logs) >= logs[0].value
  {
    if |logs| > 1 { TotalAtLeastFirst(logs[..|logs| - 1]); }
  }

  // ---------------------------------------------------------------- changes that record nothing

  lemma MatchingIsMined(chain: seq<Log>, intent: Intent)
    requires Matching(chain, intent) != []
    ensures intent.dest.Some? && Mined(chain, intent.dest.value)
    ensures Matches(intent, Matching(chain, intent)[0]) && Matching(chain, intent)[0] in chain
  {
    MatchingMembers(chain, intent, Matching(chain, intent)[0]);
  }

  // A step that leaves the chain alone and forgets no transfer keeps the scans.
  lemma ScansStay(w: World, w': World)
    requires ScansOk(w) && w'.chain == w.chain && w'.head == w.head && w'.scans.Keys <= w.scans.Keys
    requires forall pid :: pid in w'.scans ==> w'.scans[pid] == w.scans[pid]
    requires w'.db.deploy == w.db.deploy && w.db.cursor <= w'.db.cursor
    requires forall log :: log in w.chain && Handled(w.db, log) ==> Handled(w'.db, log)
    ensures ScansOk(w')
  {
    forall pid, k: nat | pid in w'.scans && k < w'.scans[pid].done ensures Handled(w'.db, w'.scans[pid].events[k]) {
      assert ScanOk(w, w.scans[pid]);
      var scan := w.scans[pid];
      var i := ScanIsFromChain(w.chain, k, scan.from, scan.through);
    }
    forall pid | pid in w'.scans ensures ScanOk(w', w'.scans[pid]) {
      assert ScanOk(w, w.scans[pid]);
    }
  }

  ghost predicate Editable(w: World, id: Id, intent: Intent) {
    && intent.status.Open?
    && (id in w.db.intents ==>
          var old_ := w.db.intents[id]; old_.status.Open? && (old_.dest.None? || !Mined(w.chain, old_.dest.value)))
  }

  lemma EditKeepsOwners(w: World, id: Id, intent: Intent, db': Db)
    requires OwnersOk(w.chain, w.db) && Editable(w, id, intent) && db' == w.db.(intents := w.db.intents[id := intent])
    ensures OwnersOk(w.chain, db')
  {
    forall key | key in db'.attributed ensures Proven(w.chain, db', key, db'.attributed[key]) {
      assert Proven(w.chain, w.db, key, w.db.attributed[key]);
      MatchingIsMined(w.chain, w.db.intents[w.db.attributed[key]]);
    }
    forall id2 | id2 in db'.intents && db'.intents[id2].status.Complete? ensures Settled(w.chain, db', id2) {
      assert Settled(w.chain, w.db, id2);
    }
  }

  lemma EditKeepsCredits(w: World, id: Id, intent: Intent, db': Db)
    requires CreditsOk(w.chain, w.db) && Editable(w, id, intent) && db' == w.db.(intents := w.db.intents[id := intent])
    ensures CreditsOk(w.chain, db')
  {
    forall log ensures CompleteMatch(w.db, log) <==> CompleteMatch(db', log) {
      if CompleteMatch(w.db, log) {
        var id2 :| id2 in w.db.intents && w.db.intents[id2].status.Complete? && Matches(w.db.intents[id2], log);
        assert db'.intents[id2] == w.db.intents[id2];
      }
    }
    assert forall log :: Credited(w.db, log) <==> Credited(db', log);
  }

  lemma EditKeepsHandled(w: World, id: Id, intent: Intent, db': Db, log: Log)
    requires Editable(w, id, intent) && db' == w.db.(intents := w.db.intents[id := intent])
    requires log in w.chain && Handled(w.db, log)
    ensures Handled(db', log)
  {
    if KeyOf(log) !in w.db.late {
      var id2 :| id2 in w.db.intents && w.db.intents[id2].dest == Some(log.hash);
      assert id2 in db'.intents && db'.intents[id2] == w.db.intents[id2];
    }
  }

  lemma EditKeepsSafe(w: World, id: Id, intent: Intent)
    requires Safe(w) && Editable(w, id, intent)
    ensures Safe(w.(db := w.db.(intents := w.db.intents[id := intent])))
  {
    var db' := w.db.(intents := w.db.intents[id := intent]);
    var w' := w.(db := db');
    EditKeepsOwners(w, id, intent, db');
    EditKeepsCredits(w, id, intent, db');
    forall log | log in w.chain && Handled(w.db, log) ensures Handled(db', log) {
      EditKeepsHandled(w, id, intent, db', log);
    }
    ScansStay(w, w');
  }

  lemma IntentStepKeepsSafe(w: World, a: Action)
    requires Safe(w) && (a.OpenIntent? || a.AttachHash? || a.ClearReverted?)
    ensures Safe(Next(w, a))
  {
    if Next(w, a) != w {
      if a.OpenIntent? {
        EditKeepsSafe(w, a.id, a.intent);
      } else if a.AttachHash? {
        EditKeepsSafe(w, a.id, w.db.intents[a.id].(dest := Some(a.hash)));
      } else {
        ClearableIsOpen(w, a.id);
        EditKeepsSafe(w, a.id, w.db.intents[a.id].(dest := None));
      }
    }
  }

  // A reverted transaction leaves no transfer, so no completed intent can rest on it.
  lemma ClearableIsOpen(w: World, id: Id)
    requires LedgerOk(w) && id in w.db.intents && w.db.intents[id].dest.Some? && w.db.intents[id].dest.value in w.reverted
    ensures w.db.intents[id].status.Open? && !Mined(w.chain, w.db.intents[id].dest.value)
  {
    if w.db.intents[id].status.Complete? {
      assert Settled(w.chain, w.db, id);
      MatchingIsMined(w.chain, w.db.intents[id]);
    }
  }

  // ---------------------------------------------------------------- a new block

  lemma MineKeepsChain(w: World, logs: seq<Log>)
    requires ChainOk(w) && NextBlock(w, logs)
    ensures ChainOk(Next(w, Mine(logs)))
  {
    var w' := Next(w, Mine(logs));
    var n := |w.chain|;
    forall i, j | 0 <= i < j < |w'.chain|
      ensures KeyOf(w'.chain[i]) != KeyOf(w'.chain[j])
      ensures w'.chain[i].hash == w'.chain[j].hash ==> w'.chain[i].block == w'.chain[j].block
    {
      if i < n && j >= n { assert w'.chain[i] == w.chain[i]; assert !Mined(w.chain, logs[j - n].hash); }
    }
  }

  lemma MinedMatchingStays(w: World, logs: seq<Log>, intent: Intent)
    requires NextBlock(w, logs) && Matching(w.chain, intent) != []
    ensures Matching(w.chain + logs, intent) == Matching(w.chain, intent)
    ensures forall i :: 0 <= i < |logs| ==> !Matches(intent, logs[i])
  {
    MatchingIsMined(w.chain, intent);
    MatchingAppend(w.chain, logs, intent);
  }

  lemma MineKeepsOwners(w: World, logs: seq<Log>)
    requires OwnersOk(w.chain, w.db) && NextBlock(w, logs)
    ensures OwnersOk(w.chain + logs, w.db)
  {
    forall key | key in w.db.attributed ensures Proven(w.chain + logs, w.db, key, w.db.attributed[key]) {
      assert Proven(w.chain, w.db, key, w.db.attributed[key]);
      MinedMatchingStays(w, logs, w.db.intents[w.db.attributed[key]]);
    }
    forall id | id in w.db.intents && w.db.intents[id].status.Complete? ensures Settled(w.chain + logs, w.db, id) {
      assert Settled(w.chain, w.db, id);
      MinedMatchingStays(w, logs, w.db.intents[id]);
    }
  }

  lemma NewLogIsUnknown(w: World, logs: seq<Log>, i: nat)
    requires LateOk(w.chain, w.db) && OwnersOk(w.chain, w.db) && NextBlock(w, logs) && i < |logs|
    ensures KeyOf(logs[i]) !in w.db.late && !CompleteMatch(w.db, logs[i]) && logs[i] !in w.chain
  {
    assert !Mined(w.chain, logs[i].hash);
    if CompleteMatch(w.db, logs[i]) {
      var id :| id in w.db.intents && w.db.intents[id].status.Complete? && Matches(w.db.intents[id], logs[i]);
      assert Settled(w.chain, w.db, id);
      MinedMatchingStays(w, logs, w.db.intents[id]);
    }
  }

  lemma MineKeepsCredits(w: World, logs: seq<Log>)
    requires LateOk(w.chain, w.db) && OwnersOk(w.chain, w.db) && CreditsOk(w.chain, w.db) && NextBlock(w, logs)
    ensures CreditsOk(w.chain + logs, w.db)
  {
    forall log | log in logs ensures log !in w.chain && !Credited(w.db, log) {
      var i :| 0 <= i < |logs| && logs[i] == log;
      NewLogIsUnknown(w, logs, i);
    }
  }

  lemma MineKeepsClosed(w: World, logs: seq<Log>)
    requires LateOk(w.chain, w.db) && OwnersOk(w.chain, w.db) && Closed(w.chain, w.db) && NextBlock(w, logs)
    ensures Closed(w.chain + logs, w.db)
  {
    var chain := w.chain + logs;
    forall k | 0 <= k < |logs| ensures KeyOf(logs[k]) !in w.db.late { NewLogIsUnknown(w, logs, k); }
    forall i, j | 0 <= i < j < |chain| && chain[i].hash == chain[j].hash && chain[i].value > 0 && KeyOf(chain[j]) in w.db.late
      ensures KeyOf(chain[i]) in w.db.late
    {
      assert j < |w.chain|;
      assert chain[i] == w.chain[i] && chain[j] == w.chain[j];
    }
  }

  lemma MineKeepsScans(w: World, logs: seq<Log>)
    requires ScansOk(w) && NextBlock(w, logs)
    ensures ScansOk(Next(w, Mine(logs)))
  {
    var w' := Next(w, Mine(logs));
    forall pid | pid in w'.scans ensures ScanOk(w', w'.scans[pid]) {
      var scan := w.scans[pid];
      assert ScanOk(w, scan);
      ScanStable(w.chain, logs, scan.from, scan.through);
    }
  }

  lemma MineKeepsSafe(w: World, logs: seq<Log>)
    requires Safe(w)
    ensures Safe(Next(w, Mine(logs)))
  {
    if NextBlock(w, logs) {
      MineKeepsChain(w, logs);
      MineKeepsOwners(w, logs);
      MineKeepsCredits(w, logs);
      MineKeepsClosed(w, logs);
      MineKeepsScans(w, logs);
    }
  }

  // ---------------------------------------------------------------- recording late funding

  ghost predicate BooksOk(chain: seq<Log>, db: Db) {
    LateOk(chain, db) && OwnersOk(chain, db) && Closed(chain, db) && CreditsOk(chain, db)
  }

  // What a late-funding call may change.
  ghost predicate LateGrows(db: Db, db': Db) {
    && db' == db.(late := db'.late, pool := db'.pool, credits := db'.credits)
    && db.pool <= db'.pool
    && (forall key :: key in db.late ==> key in db'.late && db'.late[key] == db.late[key])
  }

  ghost predicate EarlierHandled(chain: seq<Log>, db: Db, p: nat)
    requires p < |chain|
  {
    forall i :: 0 <= i < p && chain[i].hash == chain[p].hash && chain[i].value > 0 ==> Handled(db, chain[i])
  }

  ghost predicate NewTransfer(db: Db, log: Log) {
    log.value > 0 && log.block >= db.deploy && !IsDestination(db, log.hash) && KeyOf(log) !in db.late
  }

  function Recorded(db: Db, log: Log): Db {
    db.(late := db.late[KeyOf(log) := LateRow(log, None)], pool := db.pool + log.value, credits := db.credits + [log])
  }

  lemma RecordKeepsClosed(w: World, db: Db, p: nat)
    requires ChainOk(w) && Closed(w.chain, db) && p < |w.chain| && NewTransfer(db, w.chain[p]) && EarlierHandled(w.chain, db, p)
    ensures Closed(w.chain, Recorded(db, w.chain[p]))
  {
    var db' := Recorded(db, w.chain[p]);
    forall i, j | 0 <= i < j < |w.chain| && w.chain[i].hash == w.chain[j].hash && w.chain[i].value > 0 && KeyOf(w.chain[j]) in db'.late
      ensures KeyOf(w.chain[i]) in db'.late
    {
      if j != p { assert KeyOf(w.chain[j]) != KeyOf(w.chain[p]); }
    }
  }

  lemma RecordKeepsCredits(w: World, db: Db, p: nat)
    requires ChainOk(w) && CreditsOk(w.chain, db) && p < |w.chain| && NewTransfer(db, w.chain[p])
    ensures CreditsOk(w.chain, Recorded(db, w.chain[p]))
  {
    var log := w.chain[p];
    var db' := Recorded(db, log);
    assert !Credited(db, log) && log !in db.credits;
    assert Total(db'.credits) == db'.pool by { assert db'.credits[..|db'.credits| - 1] == db.credits; }
    assert NoDup(db'.credits);
    assert forall other :: CompleteMatch(db', other) <==> CompleteMatch(db, other);
    forall other | other in w.chain && other.value > 0 ensures other in db'.credits <==> Credited(db', other) {
      var q :| 0 <= q < |w.chain| && w.chain[q] == other;
      assert q != p ==> KeyOf(other) != KeyOf(log);
    }
  }

  lemma RecordKeepsOwners(chain: seq<Log>, db: Db, log: Log)
    requires OwnersOk(chain, db)
    ensures OwnersOk(chain, Recorded(db, log))
  {
    var db' := Recorded(db, log);
    forall key | key in db'.attributed ensures Proven(chain, db', key, db'.attributed[key]) {
      assert Proven(chain, db, key, db.attributed[key]);
    }
    forall id | id in db'.intents && db'.intents[id].status.Complete? ensures Settled(chain, db', id) {
      assert Settled(chain, db, id);
    }
  }

  lemma AttributedIsDestination(chain: seq<Log>, db: Db, log: Log)
    requires OwnersOk(chain, db) && KeyOf(log) in db.attributed
    ensures IsDestination(db, log.hash)
  {
    var id := db.attributed[KeyOf(log)];
    assert Proven(chain, db, KeyOf(log), id);
    MatchingIsMined(chain, db.intents[id]);
  }

  lemma RecordKeepsBooks(w: World, db: Db, p: nat)
    requires ChainOk(w) && BooksOk(w.chain, db) && p < |w.chain| && NewTransfer(db, w.chain[p]) && EarlierHandled(w.chain, db, p)
    ensures BooksOk(w.chain, Recorded(db, w.chain[p]))
  {
    RecordKeepsClosed(w, db, p);
    RecordKeepsCredits(w, db, p);
    RecordKeepsOwners(w.chain, db, w.chain[p]);
    assert LateOk(w.chain, Recorded(db, w.chain[p]));
  }

  // A late event is either skipped for one of four reasons or recorded.
  lemma LateEventCases(db: Db, through: nat, log: Log, db': Db)
    requires LateEvent(db, through, log) == Some(db')
    ensures if db' == db then log.value == 0 || Handled(db, log) || KeyOf(log) in db.attributed
            else NewTransfer(db, log) && db' == Recorded(db, log)
  {
    assert NewTransfer(db, log) && KeyOf(log) !in db.attributed ==> |db'.credits| == |db.credits| + 1;
  }

  lemma LateEventGrows(chain: seq<Log>, db: Db, through: nat, log: Log, db': Db)
    requires OwnersOk(chain, db) && LateEvent(db, through, log) == Some(db')
    ensures LateGrows(db, db') && (log.value > 0 ==> Handled(db', log))
  {
    LateEventCases(db, through, log, db');
    if db' == db && KeyOf(log) in db.attributed { AttributedIsDestination(chain, db, log); }
  }

  lemma LateEventKeepsBooks(w: World, db: Db, through: nat, p: nat, db': Db)
    requires ChainOk(w) && BooksOk(w.chain, db) && p < |w.chain| && EarlierHandled(w.chain, db, p)
    requires LateEvent(db, through, w.chain[p]) == Some(db')
    ensures BooksOk(w.chain, db') && LateGrows(db, db')
    ensures w.chain[p].value > 0 ==> Handled(db', w.chain[p])
  {
    LateEventGrows(w.chain, db, through, w.chain[p], db');
    LateEventCases(db, through, w.chain[p], db');
    if db' != db { RecordKeepsBooks(w, db, p); }
  }

  lemma LateGrowthKeepsHandled(db: Db, db': Db, log: Log)
    requires LateGrows(db, db') && Handled(db, log)
    ensures Handled(db', log)
  {
  }

  ghost predicate HandledUpTo(db: Db, events: seq<Log>, n: nat)
    requires n <= |events|
  {
    forall k :: 0 <= k < n ==> Handled(db, events[k])
  }

  ghost predicate IsScan(w: World, scan: Scan) {
    w.db.deploy <= scan.from && scan.events == FullScan(w.chain, scan.from, scan.through)
  }

  // The transfers before an event in its transaction come before it in the scan.
  lemma EarlierInScan(w: World, scan: Scan, k: nat, db: Db) returns (p: nat)
    requires ChainOk(w) && IsScan(w, scan) && k < |scan.events| && HandledUpTo(db, scan.events, k)
    ensures p < |w.chain| && w.chain[p] == scan.events[k] && Wanted(w.chain[p], scan.from, scan.through)
    ensures EarlierHandled(w.chain, db, p)
  {
    p := ScanIsFromChain(w.chain, k, scan.from, scan.through);
    forall i | 0 <= i < p && w.chain[i].hash == w.chain[p].hash && w.chain[i].value > 0 ensures Handled(db, w.chain[i]) {
      var before := w.chain[..p];
      ScanFinds(before, i, scan.from, scan.through);
      var m := |FullScan(before[..i], scan.from, scan.through)|;
      assert FullScan(before, scan.from, scan.through) == scan.events[..k];
      assert (FullScan(before[..i], scan.from, scan.through) + [before[i]])[m] == w.chain[i];
      assert scan.events[m] == w.chain[i];
    }
  }

  // The books are in order and the first n events of the scan are accounted for.
  ghost predicate FoldOk(w: World, scan: Scan, n: nat, db: Db) {
    n <= |scan.events| && ChainOk(w) && BooksOk(w.chain, db) && IsScan(w, scan) && HandledUpTo(db, scan.events, n)
  }

  // One event of the scan, its predecessors being accounted for.
  lemma FoldEvent(w: World, scan: Scan, k: nat, db: Db, db': Db)
    requires ChainOk(w) && BooksOk(w.chain, db) && IsScan(w, scan) && k < |scan.events| && HandledUpTo(db, scan.events, k)
    requires LateEvent(db, scan.through, scan.events[k]) == Some(db')
    ensures BooksOk(w.chain, db') && LateGrows(db, db') && Handled(db', scan.events[k])
  {
    var p := EarlierInScan(w, scan, k, db);
    LateEventKeepsBooks(w, db, scan.through, p, db');
  }

  lemma GrowthKeepsHandled(db: Db, db': Db, events: seq<Log>, n: nat)
    requires n <= |events| && LateGrows(db, db') && HandledUpTo(db, events, n)
    ensures HandledUpTo(db', events, n)
  {
    forall m | 0 <= m < n ensures Handled(db', events[m]) {
      LateGrowthKeepsHandled(db, db', events[m]);
    }
  }

  lemma FoldStep(w: World, scan: Scan, k: nat, db: Db, db': Db)
    requires FoldOk(w, scan, k, db) && k < |scan.events|
    requires LateEvent(db, scan.through, scan.events[k]) == Some(db')
    ensures FoldOk(w, scan, k + 1, db')
  {
    FoldEvent(w, scan, k, db, db');
    GrowthKeepsHandled(db, db', scan.events, k);
  }

  lemma {:induction false} FoldGrows(db: Db, through: nat, events: seq<Log>, db': Db)
    requires LateFold(db, through, events) == Some(db')
    ensures LateGrows(db, db')
  {
    if events != [] {
      var last := events[|events| - 1];
      var front := LateFold(db, through, events[..|events| - 1]).value;
      FoldGrows(db, through, events[..|events| - 1], front);
      LateEventCases(front, through, last, db');
    }
  }

  // Whatever one event keeps, a batch keeps.
  lemma {:induction false} FoldInduction(inv: (nat, Db) -> bool, through: nat, events: seq<Log>, lo: nat, hi: nat, db: Db, db': Db)
    requires lo <= hi <= |events| && inv(lo, db) && LateFold(db, through, events[lo..hi]) == Some(db')
    requires forall k: nat, a, b :: k < |events| && inv(k, a) && LateEvent(a, through, events[k]) == Some(b) ==> inv(k + 1, b)
    ensures inv(hi, db')
    decreases hi
  {
    if lo == hi {
      assert events[lo..hi] == [];
    } else {
      assert events[lo..hi][..hi - lo - 1] == events[lo..hi - 1];
      var front := LateFold(db, through, events[lo..hi - 1]).value;
      FoldInduction(inv, through, events, lo, hi - 1, db, front);
      assert LateEvent(front, through, events[hi - 1]) == Some(db');
    }
  }

  lemma FoldKeepsBooks(w: World, scan: Scan, hi: nat, db: Db, db': Db)
    requires FoldOk(w, scan, scan.done, db) && scan.done <= hi <= |scan.events|
    requires LateFold(db, scan.through, scan.events[scan.done..hi]) == Some(db')
    ensures FoldOk(w, scan, hi, db')
  {
    forall k: nat, a, b | k < |scan.events| && FoldOk(w, scan, k, a) && LateEvent(a, scan.through, scan.events[k]) == Some(b)
      ensures FoldOk(w, scan, k + 1, b)
    {
      FoldStep(w, scan, k, a, b);
    }
    FoldInduction((k: nat, a: Db) => FoldOk(w, scan, k, a), scan.through, scan.events, scan.done, hi, db, db');
  }

  // The scan itself goes on; the others stay.
  lemma BatchKeepsScans(w: World, pid: Pid, scan: Scan, db': Db)
    requires Safe(w) && pid in w.scans && w.scans[pid] == scan && scan.done < |scan.events|
    requires LateGrows(w.db, db') && db'.cursor == w.db.cursor && FoldOk(w, scan, scan.done + |Batch(scan)|, db')
    ensures ScansOk(w.(db := db', scans := w.scans[pid := scan.(done := scan.done + |Batch(scan)|)]))
  {
    var w' := w.(db := db', scans := w.scans[pid := scan.(done := scan.done + |Batch(scan)|)]);
    forall log | log in w.chain && Handled(w.db, log) ensures Handled(db', log) {
      LateGrowthKeepsHandled(w.db, db', log);
    }
    var rest := w.(db := db', scans := w.scans - {pid});
    ScansStay(w, rest);
    assert ScanOk(w, scan);
    assert ScanOk(w', w'.scans[pid]);
    forall other | other in w'.scans ensures ScanOk(w', w'.scans[other]) {
      if other != pid { assert ScanOk(rest, rest.scans[other]); }
    }
  }

  lemma BatchFolds(w: World, scan: Scan, db': Db)
    requires Safe(w) && ScanOk(w, scan) && scan.done < |scan.events| && LateRpc(w.db, scan.through, Batch(scan), false) == Some(db')
    ensures LateGrows(w.db, db') && db'.cursor == w.db.cursor && FoldOk(w, scan, scan.done + |Batch(scan)|, db')
  {
    assert Batch(scan) == scan.events[scan.done..scan.done + |Batch(scan)|];
    FoldKeepsBooks(w, scan, scan.done + |Batch(scan)|, w.db, db');
    FoldGrows(w.db, scan.through, Batch(scan), db');
    FoldFrame(w.db, scan.through, Batch(scan));
  }

  lemma GrowthKeepsCursor(w: World, w': World)
    requires Safe(w) && w'.chain == w.chain && w'.head == w.head && w'.reverted == w.reverted
    requires LateGrows(w.db, w'.db) && w'.db.cursor == w.db.cursor && w'.db.deploy == w.db.deploy && BooksOk(w.chain, w'.db) && ScansOk(w')
    ensures Safe(w')
  {
    forall log | log in w.chain && Handled(w.db, log) ensures Handled(w'.db, log) {
      LateGrowthKeepsHandled(w.db, w'.db, log);
    }
  }

  lemma BatchShape(w: World, pid: Pid)
    requires pid in w.scans && w.scans[pid].done < |w.scans[pid].events|
    ensures var (scan, w') := (w.scans[pid], Next(w, RecordBatch(pid)));
            var r := LateRpc(w.db, scan.through, Batch(scan), false);
            w' == if r.None? then w.(scans := w.scans - {pid})
                  else w.(db := r.value, scans := w.scans[pid := scan.(done := scan.done + |Batch(scan)|)])
  {
  }

  lemma BatchSucceeds(w: World, pid: Pid, scan: Scan, db': Db, w': World)
    requires Safe(w) && pid in w.scans && w.scans[pid] == scan && scan.done < |scan.events| && ScanOk(w, scan)
    requires LateRpc(w.db, scan.through, Batch(scan), false) == Some(db')
    requires w' == w.(db := db', scans := w.scans[pid := scan.(done := scan.done + |Batch(scan)|)])
    ensures Safe(w')
  {
    BatchFolds(w, scan, db');
    BatchKeepsScans(w, pid, scan, db');
    GrowthKeepsCursor(w, w');
  }

  lemma BatchFails(w: World, pid: Pid, w': World)
    requires Safe(w) && w' == w.(scans := w.scans - {pid})
    ensures Safe(w')
  {
    ScansStay(w, w');
  }

  lemma BatchKeepsSafe(w: World, pid: Pid)
    requires Safe(w)
    ensures Safe(Next(w, RecordBatch(pid)))
  {
    if pid in w.scans && w.scans[pid].done < |w.scans[pid].events| {
      var scan := w.scans[pid];
      var w' := Next(w, RecordBatch(pid));
      var r := LateRpc(w.db, scan.through, Batch(scan), false);
      assert ScanOk(w, scan);
      BatchShape(w, pid);
      if r.None? { BatchFails(w, pid, w'); } else { BatchSucceeds(w, pid, scan, r.value, w'); }
    }
  }

  // ---------------------------------------------------------------- starting and finishing a scan

  lemma StartKeepsSafe(w: World, pid: Pid)
    requires Safe(w)
    ensures Safe(Next(w, StartScan(pid)))
  {
    var w' := Next(w, StartScan(pid));
    forall other | other in w'.scans ensures ScanOk(w', w'.scans[other]) {
      if other != pid { assert ScanOk(w, w.scans[other]); }
    }
  }

  lemma CursorKeepsOwners(chain: seq<Log>, db: Db, cursor: nat)
    requires OwnersOk(chain, db)
    ensures OwnersOk(chain, db.(cursor := cursor))
  {
    var db' := db.(cursor := cursor);
    forall key | key in db'.attributed ensures Proven(chain, db', key, db'.attributed[key]) {
      assert Proven(chain, db, key, db.attributed[key]);
    }
    forall id | id in db'.intents && db'.intents[id].status.Complete? ensures Settled(chain, db', id) {
      assert Settled(chain, db, id);
    }
  }

  lemma CursorKeepsCredits(chain: seq<Log>, db: Db, cursor: nat)
    requires CreditsOk(chain, db)
    ensures CreditsOk(chain, db.(cursor := cursor))
  {
    assert forall log :: CompleteMatch(db, log) <==> CompleteMatch(db.(cursor := cursor), log);
    assert forall log :: Credited(db, log) <==> Credited(db.(cursor := cursor), log);
  }

  // A finished scan has accounted for every transfer up to the block it read.
  lemma FinishedScanCovers(w: World, scan: Scan, log: Log)
    requires Safe(w) && ScanOk(w, scan) && scan.done == |scan.events|
    requires log in w.chain && Wanted(log, w.db.deploy, scan.through)
    ensures Handled(w.db, log)
  {
    if log.block >= scan.from {
      var i :| 0 <= i < |w.chain| && w.chain[i] == log;
      ScanFinds(w.chain, i, scan.from, scan.through);
      var k := |FullScan(w.chain[..i], scan.from, scan.through)|;
      assert (FullScan(w.chain[..i], scan.from, scan.through) + [log])[k] == scan.events[k];
    }
  }

  // Advancing only moves the cursor forward, at most to the block the scan read.
  lemma AdvanceShape(w: World, pid: Pid)
    requires pid in w.scans && w.scans[pid].done >= |w.scans[pid].events|
    ensures var w' := Next(w, AdvanceCursor(pid));
            && w' == w.(scans := w.scans - {pid}, db := w.db.(cursor := w'.db.cursor))
            && (w'.db.cursor == w.db.cursor || w'.db.cursor == w.scans[pid].through > w.db.cursor)
  {
  }

  lemma CursorKeepsLedger(w: World, cursor: nat, scans: map<Pid, Scan>)
    requires LedgerOk(w) && w.db.cursor <= cursor <= w.head
    ensures LedgerOk(w.(scans := scans, db := w.db.(cursor := cursor)))
  {
    CursorKeepsOwners(w.chain, w.db, cursor);
    CursorKeepsCredits(w.chain, w.db, cursor);
  }

  lemma AdvanceKeepsSafe(w: World, pid: Pid)
    requires Safe(w)
    ensures Safe(Next(w, AdvanceCursor(pid)))
  {
    var w' := Next(w, AdvanceCursor(pid));
    if w' != w {
      var scan := w.scans[pid];
      assert ScanOk(w, scan);
      AdvanceShape(w, pid);
      CursorKeepsLedger(w, w'.db.cursor, w'.scans);
      assert forall log :: Handled(w.db, log) ==> Handled(w'.db, log);
      ScansStay(w, w');
      assert CursorOk(w') by {
        forall log | log in w.chain && Wanted(log, w.db.deploy, w'.db.cursor) ensures Handled(w'.db, log) {
          if log.block > w.db.cursor { FinishedScanCovers(w, scan, log); }
        }
      }
    }
  }

  // ---------------------------------------------------------------- funding reconciliation

  // The two things an accepted call may do: attribute the destination, and complete the intent.
  function Attribute(db: Db, id: Id, key: Key): Db {
    db.(late := if key in db.late then db.late[key := db.late[key].(intent := Some(id))] else db.late,
        attributed := db.attributed[key := id])
  }

  function Completed(db: Db, id: Id, found: seq<Log>, sync: Option<Key>, postTotal: nat): Db
    requires id in db.intents && found != []
  {
    var pre := KeyOf(found[0]) in db.late;
    Attribute(db, id, KeyOf(found[0])).(
      syncRows := if sync.Some? then db.syncRows + {sync.value} else db.syncRows,
      intents := db.intents[id := db.intents[id].(status := Complete(Total(found), postTotal))],
      pool := if pre then db.pool else db.pool + Total(found),
      credits := if pre then db.credits else db.credits + NonZero(found))
  }

  // The checks an accepted call has passed.
  ghost predicate Accepted(db: Db, id: Id, found: seq<Log>, postTotal: nat)
    requires found != []
  {
    && id in db.intents && db.intents[id].status.Open?
    && Total(found) <= db.intents[id].gross && db.intents[id].preTotal + Total(found) <= postTotal
    && (KeyOf(found[0]) in db.attributed ==> db.attributed[KeyOf(found[0])] == id)
    && (KeyOf(found[0]) in db.late ==> db.late[KeyOf(found[0])].log.value == Total(found))
  }

  lemma ReconcileCases(db: Db, id: Id, found: seq<Log>, sync: Option<Key>, postTotal: nat)
    requires found != []
    ensures var r := ReconcileRpc(db, id, found, sync, postTotal);
            r.Answered? && r.db != db ==>
              Accepted(db, id, found, postTotal)
              && r.db == if r.completed then Completed(db, id, found, sync, postTotal) else Attribute(db, id, KeyOf(found[0]))
  {
    if id in db.intents && KeyOf(found[0]) in db.late {
      assert Attribute(db, id, KeyOf(found[0])).late == db.late[KeyOf(found[0]) := db.late[KeyOf(found[0])].(intent := Some(id))];
    }
  }

  ghost predicate Evidence(w: World, id: Id, found: seq<Log>) {
    id in w.db.intents && VerifyDestination(w.chain, w.db.intents[id]) == Some(found)
  }

  lemma AttributeKeepsBooks(w: World, id: Id, found: seq<Log>, postTotal: nat)
    requires LedgerOk(w) && Evidence(w, id, found) && Accepted(w.db, id, found, postTotal)
    ensures BooksOk(w.chain, Attribute(w.db, id, KeyOf(found[0])))
  {
    var db' := Attribute(w.db, id, KeyOf(found[0]));
    assert db'.late.Keys == w.db.late.Keys;
    assert forall log :: CompleteMatch(w.db, log) <==> CompleteMatch(db', log);
    assert forall log :: Credited(w.db, log) <==> Credited(db', log);
    AttributeKeepsOwners(w, id, found, postTotal);
  }

  lemma AttributeKeepsOwners(w: World, id: Id, found: seq<Log>, postTotal: nat)
    requires OwnersOk(w.chain, w.db) && Evidence(w, id, found) && Accepted(w.db, id, found, postTotal)
    ensures OwnersOk(w.chain, Attribute(w.db, id, KeyOf(found[0])))
  {
    var db' := Attribute(w.db, id, KeyOf(found[0]));
    forall key | key in db'.attributed ensures Proven(w.chain, db', key, db'.attributed[key]) {
      if key != KeyOf(found[0]) { assert Proven(w.chain, w.db, key, w.db.attributed[key]); }
    }
    forall id2 | id2 in db'.intents && db'.intents[id2].status.Complete? ensures Settled(w.chain, db', id2) {
      assert Settled(w.chain, w.db, id2);
    }
  }

  // No completed intent matches the transfers of an open one whose destination it may still take.
  lemma OpenMatchIsUnclaimed(w: World, id: Id, found: seq<Log>, postTotal: nat, log: Log)
    requires LedgerOk(w) && Evidence(w, id, found) && Accepted(w.db, id, found, postTotal) && log in found
    ensures !CompleteMatch(w.db, log)
  {
    if CompleteMatch(w.db, log) {
      var other :| other in w.db.intents && w.db.intents[other].status.Complete? && Matches(w.db.intents[other], log);
      assert Settled(w.chain, w.db, other);
      MatchingMembers(w.chain, w.db.intents[id], log);
      MatchingSame(w.chain, w.db.intents[id], w.db.intents[other]);
    }
  }

  // If the first matching transfer carries value and is not recorded, none of the others is.
  lemma FirstDecides(w: World, id: Id, found: seq<Log>, log: Log)
    requires LedgerOk(w) && Evidence(w, id, found) && log in found
    requires found[0].value > 0 && KeyOf(found[0]) !in w.db.late
    ensures KeyOf(log) !in w.db.late
  {
    var k :| 0 <= k < |found| && found[k] == log;
    if k > 0 {
      var i, j := MatchingOrder(w.chain, w.db.intents[id], 0, k);
      MatchingMembers(w.chain, w.db.intents[id], found[0]);
      MatchingMembers(w.chain, w.db.intents[id], log);
    }
  }

  // No matching transfer is recorded as late funding, or the first one carries value.
  predicate Unambiguous(db: Db, found: seq<Log>)
    requires found != []
  {
    found[0].value > 0 || forall i :: 0 <= i < |found| ==> KeyOf(found[i]) !in db.late
  }

  lemma NoneIsLate(w: World, id: Id, found: seq<Log>, log: Log)
    requires LedgerOk(w) && Evidence(w, id, found) && log in found && Unambiguous(w.db, found)
    requires KeyOf(found[0]) !in w.db.late
    ensures KeyOf(log) !in w.db.late
  {
    if found[0].value > 0 { FirstDecides(w, id, found, log); }
  }

  // Once a row for the first transfer carries the whole net, no other matching transfer carries value.
  lemma PrecreditedIsAll(w: World, id: Id, found: seq<Log>, postTotal: nat, log: Log)
    requires LedgerOk(w) && Evidence(w, id, found) && Accepted(w.db, id, found, postTotal)
    requires KeyOf(found[0]) in w.db.late && log in found && log.value > 0
    ensures log == found[0]
  {
    var row := w.db.late[KeyOf(found[0])].log;
    MatchingMembers(w.chain, w.db.intents[id], found[0]);
    var i :| 0 <= i < |w.chain| && w.chain[i] == row;
    var j :| 0 <= j < |w.chain| && w.chain[j] == found[0];
    assert i == j;
    var k :| 0 <= k < |found| && found[k] == log;
    if k > 0 { OneIsAll(found, k); }
  }

  lemma CompleteKeepsOwners(w: World, id: Id, found: seq<Log>, sync: Option<Key>, postTotal: nat)
    requires OwnersOk(w.chain, w.db) && Evidence(w, id, found) && Accepted(w.db, id, found, postTotal)
    requires Total(found) + w.db.intents[id].fee >= w.db.intents[id].gross
    ensures OwnersOk(w.chain, Completed(w.db, id, found, sync, postTotal))
  {
    var db' := Completed(w.db, id, found, sync, postTotal);
    MatchingSame(w.chain, w.db.intents[id], db'.intents[id]);
    forall key | key in db'.attributed ensures Proven(w.chain, db', key, db'.attributed[key]) {
      if key != KeyOf(found[0]) { assert Proven(w.chain, w.db, key, w.db.attributed[key]); }
    }
    forall id2 | id2 in db'.intents && db'.intents[id2].status.Complete? ensures Settled(w.chain, db', id2) {
      if id2 != id { assert Settled(w.chain, w.db, id2); }
    }
  }

  lemma CompletedMatches(w: World, id: Id, found: seq<Log>, sync: Option<Key>, postTotal: nat, log: Log)
    requires Evidence(w, id, found) && Accepted(w.db, id, found, postTotal) && log in w.chain
    ensures CompleteMatch(Completed(w.db, id, found, sync, postTotal), log) <==> CompleteMatch(w.db, log) || log in found
  {
    var db' := Completed(w.db, id, found, sync, postTotal);
    MatchingMembers(w.chain, w.db.intents[id], log);
    assert Matches(db'.intents[id], log) <==> log in found;
    if CompleteMatch(w.db, log) {
      var other :| other in w.db.intents && w.db.intents[other].status.Complete? && Matches(w.db.intents[other], log);
      assert db'.intents[other] == w.db.intents[other];
    }
  }

  lemma NoDupConcat(a: seq<Log>, b: seq<Log>)
    requires NoDup(a) && NoDup(b)
    ensures NoDup(a + b) <==> forall log :: log in b ==> log !in a
  {
    assert forall i :: 0 <= i < |a| ==> (a + b)[i] == a[i];
    if NoDup(a + b) {
      forall log | log in b ensures log !in a {
        var j :| 0 <= j < |b| && b[j] == log;
        assert (a + b)[|a| + j] == log;
      }
    }
    forall i, j | 0 <= i < |a| && 0 <= j < |b| && (forall log :: log in b ==> log !in a) ensures a[i] != b[j] {
      assert b[j] in b;
    }
  }

  lemma FreshCreditKeepsCredits(w: World, id: Id, found: seq<Log>, sync: Option<Key>, postTotal: nat)
    requires LedgerOk(w) && Evidence(w, id, found) && Accepted(w.db, id, found, postTotal)
    requires KeyOf(found[0]) !in w.db.late && Unambiguous(w.db, found)
    ensures CreditsOk(w.chain, Completed(w.db, id, found, sync, postTotal))
  {
    var db' := Completed(w.db, id, found, sync, postTotal);
    var intent := w.db.intents[id];
    forall log ensures log in NonZero(found) <==> log in found && log.value > 0 { NonZeroMembers(found, log); }
    forall log | log in found ensures log in w.chain && !Credited(w.db, log) {
      MatchingMembers(w.chain, intent, log);
      NoneIsLate(w, id, found, log);
      OpenMatchIsUnclaimed(w, id, found, postTotal, log);
    }
    MatchingNoDup(w, intent);
    NonZeroNoDup(found);
    NoDupConcat(w.db.credits, NonZero(found));
    TotalConcat(w.db.credits, NonZero(found));
    NonZeroTotal(found);
    forall log | log in w.chain && log.value > 0 ensures log in db'.credits <==> Credited(db', log) {
      CompletedMatches(w, id, found, sync, postTotal, log);
    }
  }

  lemma PrecreditKeepsCredits(w: World, id: Id, found: seq<Log>, sync: Option<Key>, postTotal: nat)
    requires LedgerOk(w) && Evidence(w, id, found) && Accepted(w.db, id, found, postTotal) && KeyOf(found[0]) in w.db.late
    ensures CreditsOk(w.chain, Completed(w.db, id, found, sync, postTotal))
  {
    var db' := Completed(w.db, id, found, sync, postTotal);
    assert db'.late.Keys == w.db.late.Keys;
    forall log | log in w.chain && log.value > 0 ensures log in db'.credits <==> Credited(db', log) {
      CompletedMatches(w, id, found, sync, postTotal, log);
      if log in found { PrecreditedIsAll(w, id, found, postTotal, log); }
    }
  }

  lemma CompleteKeepsBooks(w: World, id: Id, found: seq<Log>, sync: Option<Key>, postTotal: nat)
    requires LedgerOk(w) && Evidence(w, id, found) && Accepted(w.db, id, found, postTotal)
    requires Total(found) + w.db.intents[id].fee >= w.db.intents[id].gross
    requires Unambiguous(w.db, found)
    ensures BooksOk(w.chain, Completed(w.db, id, found, sync, postTotal))
  {
    var db' := Completed(w.db, id, found, sync, postTotal);
    assert db'.late.Keys == w.db.late.Keys;
    CompleteKeepsOwners(w, id, found, sync, postTotal);
    if KeyOf(found[0]) in w.db.late {
      PrecreditKeepsCredits(w, id, found, sync, postTotal);
    } else {
      FreshCreditKeepsCredits(w, id, found, sync, postTotal);
    }
  }

  // The condition under which a reconciliation is safe; by DoubleCreditIff it is exact.
  predicate Clean(w: World, a: Action) {
    a.Reconcile? && a.id in w.db.intents && VerifyDestination(w.chain, w.db.intents[a.id]).Some? ==>
      Unambiguous(w.db, VerifyDestination(w.chain, w.db.intents[a.id]).value)
  }

  ghost predicate Reconciled(db: Db, id: Id, found: seq<Log>, sync: Option<Key>, postTotal: nat, db': Db)
    requires id in db.intents && found != []
  {
    db' == Completed(db, id, found, sync, postTotal) || db' == Attribute(db, id, KeyOf(found[0]))
  }

  lemma ReconciledBooks(w: World, id: Id, found: seq<Log>, sync: Option<Key>, postTotal: nat, db': Db)
    requires LedgerOk(w) && Evidence(w, id, found) && Accepted(w.db, id, found, postTotal) && Unambiguous(w.db, found)
    requires Total(found) + w.db.intents[id].fee >= w.db.intents[id].gross
    requires Reconciled(w.db, id, found, sync, postTotal, db')
    ensures BooksOk(w.chain, db')
  {
    if db' == Attribute(w.db, id, KeyOf(found[0])) {
      AttributeKeepsBooks(w, id, found, postTotal);
    } else {
      CompleteKeepsBooks(w, id, found, sync, postTotal);
    }
  }

  lemma ReconciledHandles(db: Db, id: Id, found: seq<Log>, sync: Option<Key>, postTotal: nat, db': Db)
    requires id in db.intents && found != [] && Reconciled(db, id, found, sync, postTotal, db')
    ensures db'.deploy == db.deploy && db'.cursor == db.cursor
    ensures forall log :: Handled(db, log) ==> Handled(db', log)
  {
    assert db'.late.Keys == db.late.Keys;
    forall log | Handled(db, log) ensures Handled(db', log) {
      if IsDestination(db, log.hash) {
        var other :| other in db.intents && db.intents[other].dest == Some(log.hash);
        assert other in db'.intents && db'.intents[other].dest == Some(log.hash);
      }
    }
  }

  lemma ReconcileKeepsSafe(w: World, a: Action)
    requires Safe(w) && a.Reconcile? && Clean(w, a)
    ensures Safe(Next(w, a))
  {
    var w' := Next(w, a);
    if w' != w {
      var found := VerifyDestination(w.chain, w.db.intents[a.id]).value;
      ReconcileCases(w.db, a.id, found, a.sync, a.postTotal);
      ReconciledBooks(w, a.id, found, a.sync, a.postTotal, w'.db);
      ReconciledHandles(w.db, a.id, found, a.sync, a.postTotal, w'.db);
      ScansStay(w, w');
    }
  }

  // ---------------------------------------------------------------- main results

  lemma NextKeepsSafe(w: World, a: Action)
    requires Safe(w) && Clean(w, a)
    ensures Safe(Next(w, a))
  {
    match a
    case Mine(logs) => MineKeepsSafe(w, logs);
    case RecordBatch(pid) => BatchKeepsSafe(w, pid);
    case AdvanceCursor(pid) => AdvanceKeepsSafe(w, pid);
    case StartScan(pid) => StartKeepsSafe(w, pid);
    case Reconcile(_, _, _) => ReconcileKeepsSafe(w, a);
    case MineReverted(hash) => RevertKeepsSafe(w, hash);
    case CrashScan(pid) => ScansStay(w, Next(w, a));
    case _ => IntentStepKeepsSafe(w, a);
  }

  lemma RevertKeepsSafe(w: World, hash: nat)
    requires Safe(w)
    ensures Safe(Next(w, MineReverted(hash)))
  {
    ScansStay(w, Next(w, MineReverted(hash)));
  }

  predicate CleanRun(deploy: nat, actions: seq<Action>) {
    actions == [] ||
    (CleanRun(deploy, actions[..|actions| - 1]) && Clean(RunAll(deploy, actions[..|actions| - 1]), actions[|actions| - 1]))
  }

  /** Every run, with scans crashing anywhere, keeps the ledger exact, provided no reconciled destination
      transaction starts with an empty transfer while a later matching one is already recorded as late. */
  lemma {:induction false} EveryRunIsSafe(deploy: nat, actions: seq<Action>)
    requires CleanRun(deploy, actions)
    ensures Safe(RunAll(deploy, actions))
  {
    if actions != [] {
      EveryRunIsSafe(deploy, actions[..|actions| - 1]);
      NextKeepsSafe(RunAll(deploy, actions[..|actions| - 1]), actions[|actions| - 1]);
    }
  }

  lemma DoubleCreditStep(w: World, id: Id, found: seq<Log>, sync: Option<Key>, postTotal: nat)
    requires LedgerOk(w) && Evidence(w, id, found)
    requires var r := ReconcileRpc(w.db, id, found, sync, postTotal); r.Answered? && r.db.pool != w.db.pool
    ensures var r := ReconcileRpc(w.db, id, found, sync, postTotal);
            !NoDup(r.db.credits) <==> !Unambiguous(w.db, found)
  {
    ReconcileCases(w.db, id, found, sync, postTotal);
    NonZeroNoDup(found) by { MatchingNoDup(w, w.db.intents[id]); }
    NoDupConcat(w.db.credits, NonZero(found));
    forall log | log in found ensures log in w.chain && (KeyOf(log) in w.db.late ==> log.value > 0) && (log in w.db.credits ==> KeyOf(log) in w.db.late)
      ensures log in NonZero(found) <==> log.value > 0
      ensures log.value > 0 && KeyOf(log) in w.db.late ==> log in w.db.credits
    {
      MatchingMembers(w.chain, w.db.intents[id], log);
      NonZeroMembers(found, log);
      OpenMatchIsUnclaimed(w, id, found, postTotal, log);
      if KeyOf(log) in w.db.late { LateRowIsTheLog(w, log); }
    }
    forall log | log in NonZero(found) ensures log in found { NonZeroMembers(found, log); }
    if Unambiguous(w.db, found) {
      forall log | log in found ensures KeyOf(log) !in w.db.late { NoneIsLate(w, id, found, log); }
    }
  }

  /** The condition is exact. When the next reconciliation credits the pool, it credits some transfer a second
      time if and only if it starts with an empty transfer while a later matching one is recorded as late. */
  lemma DoubleCreditIff(deploy: nat, actions: seq<Action>, id: Id, sync: Option<Key>, postTotal: nat)
    requires CleanRun(deploy, actions)
    requires var w := RunAll(deploy, actions); Next(w, Reconcile(id, sync, postTotal)).db.pool != w.db.pool
    ensures var w := RunAll(deploy, actions);
            !NoDup(Next(w, Reconcile(id, sync, postTotal)).db.credits) <==> !Clean(w, Reconcile(id, sync, postTotal))
  {
    var w := RunAll(deploy, actions);
    EveryRunIsSafe(deploy, actions);
    DoubleCreditStep(w, id, VerifyDestination(w.chain, w.db.intents[id]).value, sync, postTotal);
  }

  lemma LateRowIsTheLog(w: World, log: Log)
    requires ChainOk(w) && LateOk(w.chain, w.db) && log in w.chain && KeyOf(log) in w.db.late
    ensures w.db.late[KeyOf(log)].log == log
  {
    var row := w.db.late[KeyOf(log)].log;
    var i :| 0 <= i < |w.chain| && w.chain[i] == row;
    var j :| 0 <= j < |w.chain| && w.chain[j] == log;
    assert i == j;
  }

  // ---------------------------------------------------------------- what the books say

  lemma {:induction false} DeployIsFixed(deploy: nat, actions: seq<Action>)
    ensures RunAll(deploy, actions).db.deploy == deploy
  {
    if actions != [] {
      DeployIsFixed(deploy, actions[..|actions| - 1]);
      StepKeepsDeploy(RunAll(deploy, actions[..|actions| - 1]), actions[|actions| - 1]);
    }
  }

  lemma StepKeepsDeploy(w: World, a: Action)
    ensures Next(w, a).db.deploy == w.db.deploy
  {
    if a.RecordBatch? && a.pid in w.scans && w.scans[a.pid].done < |w.scans[a.pid].events| {
      FoldFrame(w.db, w.scans[a.pid].through, Batch(w.scans[a.pid]));
    }
  }

  /** When a scan has moved the cursor, every transfer up to it that no intent claims as its destination
      is recorded, hence credited exactly once. */
  lemma CursorPassesNothing(deploy: nat, actions: seq<Action>, log: Log)
    requires CleanRun(deploy, actions)
    requires var w := RunAll(deploy, actions);
             log in w.chain && Wanted(log, deploy, w.db.cursor) && !IsDestination(w.db, log.hash)
    ensures var db := RunAll(deploy, actions).db; KeyOf(log) in db.late && log in db.credits && NoDup(db.credits)
  {
    var w := RunAll(deploy, actions);
    EveryRunIsSafe(deploy, actions);
    DeployIsFixed(deploy, actions);
    assert Handled(w.db, log);
    assert Credited(w.db, log);
  }

  lemma {:induction false} DistinctTotalIsBounded(logs: seq<Log>, chain: seq<Log>)
    requires NoDup(logs) && forall log :: log in logs ==> log in chain
    ensures Total(logs) <= Total(chain)
    decreases |logs|
  {
    if logs == [] {
    } else {
      var last := logs[|logs| - 1];
      var front := logs[..|logs| - 1];
      assert last in logs;
      var i :| 0 <= i < |chain| && chain[i] == last;
      var rest := chain[..i] + chain[i + 1..];
      assert last !in front;
      forall log | log in front ensures log in rest {
        assert log in logs;
        var k :| 0 <= k < |chain| && chain[k] == log;
        assert rest[if k < i then k else k - 1] == log;
      }
      DistinctTotalIsBounded(front, rest);
      assert chain == chain[..i] + ([last] + chain[i + 1..]);
      TotalConcat(chain[..i], [last] + chain[i + 1..]);
      TotalConcat([last], chain[i + 1..]);
      TotalConcat(chain[..i], chain[i + 1..]);
      assert Total([last]) == last.value by { assert [last][..0] == []; }
    }
  }

  /** The pool never exceeds what the escrow received. */
  lemma PoolIsBacked(deploy: nat, actions: seq<Action>)
    requires CleanRun(deploy, actions)
    ensures RunAll(deploy, actions).db.pool <= Total(RunAll(deploy, actions).chain)
  {
    var w := RunAll(deploy, actions);
    EveryRunIsSafe(deploy, actions);
    DistinctTotalIsBounded(w.db.credits, w.chain);
  }

  /** A completed intent: its net is the sum of the matching transfers, within the quoted bounds, and the
      escrow's total had grown by at least that much. */
  lemma CompletedIntentIsFunded(deploy: nat, actions: seq<Action>, id: Id)
    requires CleanRun(deploy, actions)
    requires var db := RunAll(deploy, actions).db; id in db.intents && db.intents[id].status.Complete?
    ensures var w := RunAll(deploy, actions);
            var intent := w.db.intents[id];
            var net := intent.status.net;
            && net == Total(Matching(w.chain, intent))
            && (if intent.gross > intent.fee then intent.gross - intent.fee else 0) <= net <= intent.gross
            && intent.status.postTotal >= intent.preTotal + net
            && (forall log :: log in Matching(w.chain, intent) && log.value > 0 ==> log in w.db.credits)
  {
    var w := RunAll(deploy, actions);
    EveryRunIsSafe(deploy, actions);
    assert Settled(w.chain, w.db, id);
    forall log | log in Matching(w.chain, w.db.intents[id]) && log.value > 0 ensures log in w.db.credits {
      MatchingMembers(w.chain, w.db.intents[id], log);
      assert CompleteMatch(w.db, log);
    }
  }

  // ---------------------------------------------------------------- the run that credits twice

  // One Gateway mint of nothing followed by one of 5, in one transaction.
  function TwoMints(): seq<Log> {
    [Log(7, 0, ZERO_ADDRESS, 0, 1), Log(7, 1, ZERO_ADDRESS, 5, 1)]
  }

  function DoubleCreditRun(): seq<Action> {
    [Mine(TwoMints()), StartScan(0), RecordBatch(0), OpenIntent(0, Intent(UnifiedBalance, 9, 5, 0, 0, None, Open)),
     AttachHash(0, 7), Reconcile(0, None, 5)]
  }

  lemma RunStep(deploy: nat, actions: seq<Action>, n: nat)
    requires n < |actions|
    ensures RunAll(deploy, actions[..n + 1]) == Next(RunAll(deploy, actions[..n]), actions[n])
  {
    assert actions[..n + 1][..n] == actions[..n];
  }

  lemma RunFourSteps(deploy: nat, actions: seq<Action>, n: nat)
    requires n + 4 == |actions|
    ensures RunAll(deploy, actions)
            == Next(Next(Next(Next(RunAll(deploy, actions[..n]), actions[n]), actions[n + 1]), actions[n + 2]), actions[n + 3])
  {
    assert actions[..n + 4] == actions;
    RunStep(deploy, actions, n);
    RunStep(deploy, actions, n + 1);
    RunStep(deploy, actions, n + 2);
    RunStep(deploy, actions, n + 3);
  }

  lemma TwoMintsFacts()
    ensures FullScan(TwoMints(), 0, 1) == [TwoMints()[1]]
    ensures Total(TwoMints()) == 5
    ensures forall intent: Intent :: intent.dest == Some(7) && ExpectedFrom(intent) == ZERO_ADDRESS ==> Matching(TwoMints(), intent) == TwoMints()
  {
    var logs := TwoMints();
    assert logs[..1][..0] == [];
    assert LogsIn(logs[..1], 0, 1) == [logs[0]];
    assert NonZero(logs[..1]) == [];
    assert Total(logs[..1]) == 0;
    forall intent: Intent | intent.dest == Some(7) && ExpectedFrom(intent) == ZERO_ADDRESS ensures Matching(logs, intent) == logs {
      assert Matching(logs[..1], intent) == [logs[0]];
    }
  }

  /** The withdrawal scan records the 5 before the intent knows its transaction; the reconciliation, which
      looks for a late row of the first transfer only, credits it again. */
  lemma DoubleCreditHappens()
    ensures RunAll(0, DoubleCreditRun()).db.pool == 10
    ensures Total(RunAll(0, DoubleCreditRun()).chain) == 5
  {
    var run := DoubleCreditRun();
    var logs := TwoMints();
    var scan := Scan(0, 1, [logs[1]], 0);
    ScanOfTwoMints(run, scan);
    DoubleCreditTail(Start(0).(chain := logs, head := 1, scans := map[0 := scan]), scan);
    RunFourSteps(0, run, 2);
    TwoMintsFacts();
  }

  lemma MineTwoMints()
    ensures Next(Start(0), Mine(TwoMints())) == Start(0).(chain := TwoMints(), head := 1)
  {
    var w, logs := Start(0), TwoMints();
    assert NextBlock(w, logs) by {
      assert !Mined(w.chain, 7);
      forall i | 0 <= i < |logs| ensures logs[i].block == w.head + 1 && logs[i].hash == 7 {}
      forall i, j | 0 <= i < j < |logs| ensures KeyOf(logs[i]) != KeyOf(logs[j]) {}
    }
    assert w.chain + logs == logs;
  }

  lemma ScanTwoMints(w: World)
    requires w == Start(0).(chain := TwoMints(), head := 1)
    ensures Next(w, StartScan(0)) == w.(scans := map[0 := Scan(0, 1, [TwoMints()[1]], 0)])
  {
    TwoMintsFacts();
  }

  lemma ScanOfTwoMints(run: seq<Action>, scan: Scan)
    requires |run| >= 2 && run[0] == Mine(TwoMints()) && run[1] == StartScan(0) && scan == Scan(0, 1, [TwoMints()[1]], 0)
    ensures RunAll(0, run[..2]) == Start(0).(chain := TwoMints(), head := 1, scans := map[0 := scan])
  {
    assert run[..0] == [];
    RunStep(0, run, 0);
    MineTwoMints();
    RunStep(0, run, 1);
    ScanTwoMints(RunAll(0, run[..1]));
  }

  lemma RecordTwoMints(w: World, scan: Scan)
    requires scan == Scan(0, 1, [TwoMints()[1]], 0) && w == Start(0).(chain := TwoMints(), head := 1, scans := map[0 := scan])
    ensures Next(w, RecordBatch(0)).db == Recorded(w.db, TwoMints()[1]) && Next(w, RecordBatch(0)).chain == w.chain
  {
    var log := TwoMints()[1];
    assert Batch(scan) == [log];
    assert [log][..0] == [];
    assert LateFold(w.db, 1, [log]) == LateEvent(w.db, 1, log);
  }

  function TwoMintsIntent(): Intent { Intent(UnifiedBalance, 9, 5, 0, 0, Some(7), Open) }

  lemma AttachTwoMints(w: World)
    requires w.db.intents == map[]
    ensures Next(Next(w, DoubleCreditRun()[3]), DoubleCreditRun()[4]) == w.(db := w.db.(intents := map[0 := TwoMintsIntent()]))
  {
    var w' := Next(w, DoubleCreditRun()[3]);
    assert w' == w.(db := w.db.(intents := map[0 := TwoMintsIntent().(dest := None)]));
  }

  lemma ReconcileTwoMints(db: Db)
    requires db.intents == map[0 := TwoMintsIntent()] && db.pool == 5 && (7, 0) !in db.late && (7, 0) !in db.attributed
    ensures var r := ReconcileRpc(db, 0, TwoMints(), None, 5); r.Answered? && r.db.pool == 10
  {
    TwoMintsFacts();
    assert KeyOf(TwoMints()[0]) == (7, 0);
    assert Precredited(db, (7, 0), 0, 5) == Some(false);
  }

  lemma ReconcileNext(w: World, id: Id, found: seq<Log>, sync: Option<Key>, postTotal: nat)
    requires Evidence(w, id, found) && Total(found) <= w.db.intents[id].gross <= Total(found) + w.db.intents[id].fee
    requires ReconcileRpc(w.db, id, found, sync, postTotal).Answered?
    ensures Next(w, Reconcile(id, sync, postTotal)) == w.(db := ReconcileRpc(w.db, id, found, sync, postTotal).db)
  {
  }

  lemma DoubleCreditTail(w: World, scan: Scan)
    requires scan == Scan(0, 1, [TwoMints()[1]], 0) && w == Start(0).(chain := TwoMints(), head := 1, scans := map[0 := scan])
    ensures var run := DoubleCreditRun();
            var w' := Next(Next(Next(Next(w, run[2]), run[3]), run[4]), run[5]);
            w'.chain == w.chain && w'.db.pool == 10
  {
    RecordTwoMints(w, scan);
    var w3 := Next(w, RecordBatch(0));
    AttachTwoMints(w3);
    var db := w3.db.(intents := map[0 := TwoMintsIntent()]);
    TwoMintsFacts();
    ReconcileTwoMints(db);
    ReconcileNext(w3.(db := db), 0, TwoMints(), None, 5);
  }
}
