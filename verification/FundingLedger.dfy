/** The pool ledger of one escrow: late-funding scans, stopped or crashed between any two batches, and
    funding reconciliations, over a chain that keeps producing transfers. */
module FundingLedger {
  import opened Options
  import opened LateFundingScan

  type Id = nat
  type Pid = nat
  type Key = (nat, nat)

  const BATCH: nat := 500
  const MAX_EVENTS: nat := 1000
  const MAX_POOL: nat := 999_999_999_999_999_999_999_999_999_999
  const ZERO_ADDRESS: nat := 0

  datatype Route = Send | Bridge | UnifiedBalance

  datatype Status = Open | Complete(net: nat, postTotal: nat)

  datatype Intent = Intent(route: Route, wallet: nat, gross: nat, fee: nat, preTotal: nat, dest: Option<nat>, status: Status)

  // A 'funding' row of escrow_transactions.
  datatype LateRow = LateRow(log: Log, intent: Option<Id>)

  // `attributed` holds the server:destination_verified operations, `syncRows` the funding_sync rows.
  // `credits` is history the database does not keep: the transfers whose value was added to the pool.
  datatype Db = Db(deploy: nat, cursor: nat, intents: map<Id, Intent>, attributed: map<Key, Id>,
                   late: map<Key, LateRow>, syncRows: set<Key>, pool: nat, credits: seq<Log>)

  function KeyOf(log: Log): Key { (log.hash, log.index) }

  function ExpectedFrom(intent: Intent): nat {
    if intent.route == Send then intent.wallet else ZERO_ADDRESS
  }

  predicate Matches(intent: Intent, log: Log) {
    intent.dest == Some(log.hash) && log.from == ExpectedFrom(intent)
  }

  function Matching(chain: seq<Log>, intent: Intent): seq<Log> {
    if chain == [] then []
    else
      var front := Matching(chain[..|chain| - 1], intent);
      var last := chain[|chain| - 1];
      if Matches(intent, last) then front + [last] else front
  }

  function Total(logs: seq<Log>): nat {
    if logs == [] then 0 else Total(logs[..|logs| - 1]) + logs[|logs| - 1].value
  }

  // verifyFundingDestination: the transfers of the receipt that count, or an error.
  function VerifyDestination(chain: seq<Log>, intent: Intent): Option<seq<Log>> {
    var found := Matching(chain, intent);
    if found == [] || (intent.route != UnifiedBalance && |found| != 1) then None else Some(found)
  }

  // ---------------------------------------------------------------- the two database procedures

  predicate IsDestination(db: Db, hash: nat) {
    exists id :: id in db.intents && db.intents[id].dest == Some(hash)
  }

  function LateEvent(db: Db, through: nat, log: Log): Option<Db> {
    if log.value == 0 then Some(db)
    else if log.block < db.deploy || log.block > through then None
    else if IsDestination(db, log.hash) then Some(db)
    else if KeyOf(log) in db.attributed then Some(db)
    else if KeyOf(log) in db.late then (if db.late[KeyOf(log)].log == log then Some(db) else None)
    else Some(db.(late := db.late[KeyOf(log) := LateRow(log, None)], pool := db.pool + log.value, credits := db.credits + [log]))
  }

  function LateFold(db: Db, through: nat, events: seq<Log>): Option<Db> {
    if events == [] then Some(db)
    else
      var front := LateFold(db, through, events[..|events| - 1]);
      if front.None? then None else LateEvent(front.value, through, events[|events| - 1])
  }

  // reconcile_late_funding_atomic; None is an exception, which rolls everything back.
  function LateRpc(db: Db, through: nat, events: seq<Log>, advance: bool): Option<Db> {
    if through < db.deploy || |events| > MAX_EVENTS then None
    else
      var r := LateFold(db, through, events);
      if r.None? || r.value.pool > MAX_POOL then None
      else Some(if advance && through > db.cursor then r.value.(cursor := through) else r.value)
  }

  // ---------------------------------------------------------------- the batching loop of a withdrawal request

  lemma {:induction false} FoldConcat(db: Db, through: nat, a: seq<Log>, b: seq<Log>)
    ensures var front := LateFold(db, through, a);
            LateFold(db, through, a + b) == if front.None? then None else LateFold(front.value, through, b)
    decreases |b|
  {
    if b == [] {
      assert a + b == a;
    } else {
      FoldConcat(db, through, a, b[..|b| - 1]);
      assert (a + b)[..|a + b| - 1] == a + b[..|b| - 1];
    }
  }

  lemma {:induction false} FoldFrame(db: Db, through: nat, events: seq<Log>)
    ensures var r := LateFold(db, through, events);
            r.Some? ==> r.value.deploy == db.deploy && r.value.cursor == db.cursor && db.pool <= r.value.pool
  {
    if events != [] { FoldFrame(db, through, events[..|events| - 1]); }
  }

  /** Calls for batches of 500 and then the call that moves the cursor. The batches are invisible: the loop
      succeeds exactly when one call for the whole list would fit in the pool, and then leaves what that call
      leaves. A failing loop leaves what the batches before the failure recorded, and never the cursor moved. */
  method RecordLateFunding(db: Db, through: nat, events: seq<Log>) returns (ok: bool, db': Db)
    ensures ok <==> through >= db.deploy && LateFold(db, through, events).Some? && LateFold(db, through, events).value.pool <= MAX_POOL
    ensures ok ==> db' == LateFold(db, through, events).value.(cursor := if through > db.cursor then through else db.cursor)
    ensures !ok ==> db'.cursor == db.cursor && exists n :: 0 <= n <= |events| && LateFold(db, through, events[..n]) == Some(db')
  {
    db' := db;
    var offset := 0;
    assert events[..0] == [];
    while offset < |events|
      invariant 0 <= offset && db'.deploy == db.deploy && db'.cursor == db.cursor
      invariant LateFold(db, through, if offset <= |events| then events[..offset] else events) == Some(db')
      invariant offset > 0 && |events| > 0 ==> through >= db.deploy && db'.pool <= MAX_POOL
    {
      var end := if offset + BATCH <= |events| then offset + BATCH else |events|;
      var batch := events[offset..end];
      var r := LateRpc(db', through, batch, false);
      assert events[..end] == events[..offset] + batch && events == events[..end] + events[end..];
      FoldConcat(db, through, events[..offset], batch);
      FoldConcat(db, through, events[..end], events[end..]);
      FoldFrame(db', through, batch);
      if r.None? {
        BatchFailureIsFinal(db, through, events, end);
        return false, db';
      }
      db' := r.value;
      offset := offset + BATCH;
    }
    assert offset >= |events| ==> (if offset <= |events| then events[..offset] else events) == events;
    var last := LateRpc(db', through, [], true);
    assert LateFold(db', through, []) == Some(db');
    if last.None? {
      assert events[..|events|] == events;
      return false, db';
    }
    ok, db' := true, last.value;
  }

  // If the events up to some batch are rejected or overflow the pool, so are all of them.
  lemma BatchFailureIsFinal(db: Db, through: nat, events: seq<Log>, end: nat)
    requires end <= |events|
    ensures var some := LateFold(db, through, events[..end]);
            var all := LateFold(db, through, events);
            (some.None? ==> all.None?) && (some.Some? && all.Some? ==> some.value.pool <= all.value.pool)
  {
    assert events == events[..end] + events[end..];
    FoldConcat(db, through, events[..end], events[end..]);
    if LateFold(db, through, events[..end]).Some? { FoldFrame(LateFold(db, through, events[..end]).value, through, events[end..]); }
  }

  datatype Outcome = Rejected | Answered(db: Db, completed: bool)

  function Precredited(db: Db, key: Key, id: Id, net: nat): Option<bool> {
    if key !in db.late then Some(false)
    else if db.late[key].log.value != net || (db.late[key].intent.Some? && db.late[key].intent.value != id) then None
    else Some(true)
  }

  // reconcile_funding_intent_atomic, for evidence already verified on the chain.
  function ReconcileRpc(db: Db, id: Id, found: seq<Log>, sync: Option<Key>, postTotal: nat): Outcome
    requires found != []
  {
    if id !in db.intents then Rejected
    else
      var intent := db.intents[id];
      var key := KeyOf(found[0]);
      var net := Total(found);
      if intent.status.Complete? then Answered(db, false)
      else if intent.dest != Some(found[0].hash) then Rejected
      else if net == 0 || net > intent.gross || postTotal < intent.preTotal + net || db.pool + net > MAX_POOL then Rejected
      else
        var pre := Precredited(db, key, id, net);
        if pre.None? || (key in db.attributed && db.attributed[key] != id) then Rejected
        else
          var marked := db.(late := if pre.value then db.late[key := db.late[key].(intent := Some(id))] else db.late,
                            attributed := db.attributed[key := id]);
          if sync.Some? && sync.value in db.syncRows then Answered(marked, false)
          else
            Answered(marked.(
              syncRows := if sync.Some? then db.syncRows + {sync.value} else db.syncRows,
              intents := db.intents[id := intent.(status := Complete(net, postTotal))],
              pool := if pre.value then db.pool else db.pool + net,
              credits := if pre.value then db.credits else db.credits + NonZero(found)), true)
  }

  // ---------------------------------------------------------------- the state machine

  // A withdrawal request that is recording late funding; `done` events are already recorded.
  datatype Scan = Scan(from: nat, through: nat, events: seq<Log>, done: nat)

  datatype World = World(chain: seq<Log>, head: nat, reverted: set<nat>, db: Db, scans: map<Pid, Scan>)

  datatype Action =
    | Mine(logs: seq<Log>)
    | MineReverted(hash: nat)
    | OpenIntent(id: Id, intent: Intent)
    | AttachHash(id: Id, hash: nat)
    | ClearReverted(id: Id)
    | StartScan(pid: Pid)
    | RecordBatch(pid: Pid)
    | AdvanceCursor(pid: Pid)
    | CrashScan(pid: Pid)
    | Reconcile(id: Id, sync: Option<Key>, postTotal: nat)

  predicate Mined(chain: seq<Log>, hash: nat) {
    exists i :: 0 <= i < |chain| && chain[i].hash == hash
  }

  // The transfers of the next block: new transactions, none of them reverted, one log per index.
  predicate NextBlock(w: World, logs: seq<Log>) {
    && (forall i :: 0 <= i < |logs| ==> logs[i].block == w.head + 1 && logs[i].hash !in w.reverted && !Mined(w.chain, logs[i].hash))
    && (forall i, j :: 0 <= i < j < |logs| ==> KeyOf(logs[i]) != KeyOf(logs[j]))
  }

  function ScanFrom(db: Db): nat {
    if db.cursor > db.deploy then db.cursor - 1 else db.deploy
  }

  function Batch(scan: Scan): seq<Log>
    requires scan.done <= |scan.events|
  {
    scan.events[scan.done..if scan.done + BATCH <= |scan.events| then scan.done + BATCH else |scan.events|]
  }

  function LateCall(w: World, pid: Pid, scan: Scan, events: seq<Log>, advance: bool, after: map<Pid, Scan>): World {
    var r := LateRpc(w.db, scan.through, events, advance);
    if r.None? then w.(scans := w.scans - {pid}) else w.(db := r.value, scans := after)
  }

  function Next(w: World, a: Action): World {
    match a
    case Mine(logs) =>
      if NextBlock(w, logs) then w.(chain := w.chain + logs, head := w.head + 1) else w
    case MineReverted(hash) =>
      if Mined(w.chain, hash) then w else w.(reverted := w.reverted + {hash})
    case OpenIntent(id, intent) =>
      if id in w.db.intents || intent.dest.Some? || !intent.status.Open? then w
      else w.(db := w.db.(intents := w.db.intents[id := intent]))
    case AttachHash(id, hash) =>  // a unique index gives a transaction to one intent
      if id !in w.db.intents || w.db.intents[id].dest.Some? || !w.db.intents[id].status.Open? || IsDestination(w.db, hash) then w
      else w.(db := w.db.(intents := w.db.intents[id := w.db.intents[id].(dest := Some(hash))]))
    case ClearReverted(id) =>
      if id !in w.db.intents || w.db.intents[id].dest.None? || w.db.intents[id].dest.value !in w.reverted then w
      else w.(db := w.db.(intents := w.db.intents[id := w.db.intents[id].(dest := None)]))
    case StartScan(pid) =>
      w.(scans := w.scans[pid := Scan(ScanFrom(w.db), w.head, FullScan(w.chain, ScanFrom(w.db), w.head), 0)])
    case RecordBatch(pid) =>
      if pid !in w.scans || w.scans[pid].done >= |w.scans[pid].events| then w
      else
        var scan := w.scans[pid];
        LateCall(w, pid, scan, Batch(scan), false, w.scans[pid := scan.(done := scan.done + |Batch(scan)|)])
    case AdvanceCursor(pid) =>
      if pid !in w.scans || w.scans[pid].done < |w.scans[pid].events| then w
      else LateCall(w, pid, w.scans[pid], [], true, w.scans - {pid})
    case CrashScan(pid) => w.(scans := w.scans - {pid})
    case Reconcile(id, sync, postTotal) =>
      if id !in w.db.intents then w
      else
        var intent := w.db.intents[id];
        var found := VerifyDestination(w.chain, intent);
        if found.None? || Total(found.value) > intent.gross || Total(found.value) + intent.fee < intent.gross then w
        else
          var r := ReconcileRpc(w.db, id, found.value, sync, postTotal);
          if r.Rejected? then w else w.(db := r.db)
  }

  function Start(deploy: nat): World {
    World([], deploy, {}, Db(deploy, deploy, map[], map[], map[], {}, 0, []), map[])
  }

  function RunAll(deploy: nat, actions: seq<Action>): World {
    if actions == [] then Start(deploy)
    else Next(RunAll(deploy, actions[..|actions| - 1]), actions[|actions| - 1])
  }
}
