/** Durable reward settlement: the database procedures, exactly as their SQL bodies read, and the
    invariants every sequence of them keeps. Attempt numbers are positions: attempt n is index n-1. */
module RewardSettlement {
  import opened Options
  import opened Sums

  type IntentId = nat
  type Hash = nat
  type Key = nat   // provider idempotency key
  type TxId = nat  // provider transaction id

  datatype OpStatus = SubmissionUncertain | ProviderAccepted | Submitted | Confirmed | Failed

  datatype Op = Op(status: OpStatus, key: Option<Key>, tx: Option<TxId>, hash: Option<Hash>, place: Option<nat>)

  datatype Status =
    AwaitingApproval | ApprovalSubmitted | ReadyForPayout | PayoutSubmitted | PaidOut | FailedIntent

  datatype ReportStatus = Validated | RewardApproved | PaymentPending | ReportPaid

  datatype Row = Row(amount: nat, recipient: nat, status: Status,
                     approvals: seq<Op>, payouts: seq<Op>, report: ReportStatus)

  // Pools are in base units; every intent in `rows` belongs to the one program of this ledger.
  datatype Db = Db(rows: map<IntentId, Row>, total: nat, reserved: nat, paid: nat, withdrawn: nat)

  datatype Accounting = Accounting(paid: nat, outstanding: nat, funded: nat, withdrawn: nat, balance: nat)

  datatype Rpc =
    | CreateIntent(amount: nat, recipient: nat)
    | ObserveApproval(submitted: bool, hash: Option<Hash>)
    | ConfirmApproval(approvalHash: Hash, place: nat)
    | FailOperation(payout: bool)
    | CancelIntent
    | PreparePayout(key: Key)
    | AcceptPayout(key: Key, tx: TxId)
    | AttachPayoutHash(tx: TxId, payoutHash: Hash)
    | ObserveExternalPayout(payoutHash: Hash)
    | ConfirmPayout(payoutHash: Hash, place: nat, accounting: Accounting)

  datatype Result = Committed(db: Db) | Rejected

  // ---------------------------------------------------------------- rows

  predicate Active(op: Op) {
    op.status in {SubmissionUncertain, ProviderAccepted, Submitted}
  }

  predicate Live(s: Status) {
    s != PaidOut && s != FailedIntent
  }

  // Waiting for its approval.
  predicate Soft(s: Status) {
    s == AwaitingApproval || s == ApprovalSubmitted
  }

  // The approval is confirmed and the payout is not.
  predicate Payable(s: Status) {
    s == ReadyForPayout || s == PayoutSubmitted
  }

  function Last(ops: seq<Op>): Option<Op> {
    if ops == [] then None else Some(ops[|ops| - 1])
  }

  // `where ... order by attempt_no desc limit 1`
  function LastWhere(ops: seq<Op>, p: Op -> bool): (r: Option<nat>)
    ensures r.Some? ==> r.value < |ops| && p(ops[r.value]) && forall i :: r.value < i < |ops| ==> !p(ops[i])
    ensures r.None? ==> forall i :: 0 <= i < |ops| ==> !p(ops[i])
  {
    if ops == [] then None
    else if p(ops[|ops| - 1]) then Some(|ops| - 1)
    else LastWhere(ops[..|ops| - 1], p)
  }

  function FailActive(ops: seq<Op>): seq<Op> {
    seq(|ops|, i requires 0 <= i < |ops| => if Active(ops[i]) then ops[i].(status := Failed) else ops[i])
  }

  function Hashes(ops: seq<Op>): set<Hash> {
    set i | 0 <= i < |ops| && ops[i].hash.Some? :: ops[i].hash.value
  }

  function Keys(ops: seq<Op>): set<Key> {
    set i | 0 <= i < |ops| && ops[i].key.Some? :: ops[i].key.value
  }

  function AllHashes(db: Db): set<Hash> {
    set id, h | id in db.rows && h in Hashes(db.rows[id].approvals) + Hashes(db.rows[id].payouts) :: h
  }

  function AllTxs(db: Db): set<TxId> {
    set id, i | id in db.rows && 0 <= i < |db.rows[id].payouts| && db.rows[id].payouts[i].tx.Some? :: db.rows[id].payouts[i].tx.value
  }

  // ---------------------------------------------------------------- the procedures, row by row

  function ObserveApprovalRow(row: Row, submitted: bool, hash: Option<Hash>, hashes: set<Hash>): Option<Row> {
    if row.status in {ApprovalSubmitted, ReadyForPayout, PayoutSubmitted, PaidOut} && submitted && hash.Some? then
      if LastWhere(row.approvals, (op: Op) => op.hash == hash && op.status in {Submitted, Confirmed}).None? then None else Some(row)
    else if row.status != AwaitingApproval then None
    else if submitted != hash.Some? then None
    else
      var uncertain := LastWhere(row.approvals, (op: Op) => op.status == SubmissionUncertain);
      if submitted && uncertain.Some? then
        if hash.value in hashes then None
        else
          var op := row.approvals[uncertain.value].(status := Submitted, hash := hash);
          Some(row.(approvals := row.approvals[uncertain.value := op], status := ApprovalSubmitted))
      else if LastWhere(row.approvals, Active).Some? then None  // partial unique index
      else if hash.Some? && hash.value in hashes then None
      else
        var op := Op(if submitted then Submitted else SubmissionUncertain, None, None, hash, None);
        Some(row.(approvals := row.approvals + [op], status := if submitted then ApprovalSubmitted else row.status))
  }

  function ConfirmApprovalRow(row: Row, hash: Hash, place: nat): Option<Row> {
    if row.status in {ReadyForPayout, PayoutSubmitted, PaidOut} then
      var confirmed := LastWhere(row.approvals, (op: Op) => op.status == Confirmed);
      if confirmed.None? then None
      else if row.approvals[confirmed.value].hash != Some(hash) || row.approvals[confirmed.value].place != Some(place) then None
      else Some(row)
    else if row.status != ApprovalSubmitted then None
    else
      var found := LastWhere(row.approvals, (op: Op) => op.hash == Some(hash) && op.status == Submitted);
      if found.None? || row.report != Validated then None
      else
        var op := row.approvals[found.value].(status := Confirmed, place := Some(place));
        Some(row.(approvals := row.approvals[found.value := op], report := RewardApproved, status := ReadyForPayout))
  }

  function FailOperationRow(row: Row, payout: bool): Option<Row> {
    var ops := if payout then row.payouts else row.approvals;
    var found := LastWhere(ops, Active);
    if found.None? then None
    else
      var failed := ops[found.value := ops[found.value].(status := Failed)];
      if payout then
        Some(row.(payouts := failed, status := ReadyForPayout,
                  report := if row.report == PaymentPending then RewardApproved else row.report))
      else Some(row.(approvals := failed, status := AwaitingApproval))
  }

  function CancelRow(row: Row): Option<Row> {
    if row.status != AwaitingApproval then None
    else if LastWhere(row.approvals + row.payouts, (op: Op) => op.status != Failed).Some? then None
    else Some(row.(status := FailedIntent))
  }

  function PrepareRow(row: Row, key: Key): Option<Row> {
    if LastWhere(row.payouts, (op: Op) => op.key == Some(key)).Some? then Some(row)
    else if row.status != ReadyForPayout then None
    else if LastWhere(row.payouts, Active).Some? then None  // partial unique index
    else Some(row.(payouts := row.payouts + [Op(SubmissionUncertain, Some(key), None, None, None)]))
  }

  function AcceptRow(row: Row, key: Key, tx: TxId, txs: set<TxId>): Option<Row> {
    if row.status != ReadyForPayout then None
    else
      var found := LastWhere(row.payouts, (op: Op) => op.key == Some(key) && op.status == SubmissionUncertain);
      if found.None? || tx in txs then None
      else
        var op := row.payouts[found.value].(status := ProviderAccepted, tx := Some(tx));
        Some(row.(payouts := row.payouts[found.value := op], status := PayoutSubmitted,
                  report := if row.report == RewardApproved then PaymentPending else row.report))
  }

  function AttachRow(row: Row, tx: TxId, hash: Hash, hashes: set<Hash>): Option<Row> {
    var found := LastWhere(row.payouts, (op: Op) => op.tx == Some(tx) && op.status == ProviderAccepted);
    if found.None? || hash in hashes then None
    else Some(row.(payouts := row.payouts[found.value := row.payouts[found.value].(status := Submitted, hash := Some(hash))]))
  }

  function ObserveExternalRow(row: Row, hash: Hash, hashes: set<Hash>): Option<Row> {
    if hash in Hashes(row.payouts) then Some(row)
    else if row.status != ReadyForPayout && row.status != PayoutSubmitted then None
    else if hash in hashes then None
    else
      Some(row.(payouts := FailActive(row.payouts) + [Op(Submitted, None, None, Some(hash), None)],
                status := PayoutSubmitted,
                report := if row.report == RewardApproved then PaymentPending else row.report))
  }

  function ConfirmPayoutRow(row: Row, hash: Hash, place: nat): Option<Row> {
    if row.status != PayoutSubmitted then None
    else
      var found := LastWhere(row.payouts, (op: Op) => op.hash == Some(hash) && op.status == Submitted);
      if found.None? || row.report != PaymentPending then None
      else
        var op := row.payouts[found.value].(status := Confirmed, place := Some(place));
        Some(row.(payouts := row.payouts[found.value := op], status := PaidOut, report := ReportPaid))
  }

  predicate SnapshotValid(a: Accounting) {
    && a.paid + a.withdrawn <= a.funded && a.outstanding <= a.balance
    && a.funded == a.balance + a.paid + a.withdrawn
  }

  predicate MatchesProjection(db: Db, amount: nat, a: Accounting) {
    && db.reserved >= amount
    && a.paid >= db.paid + amount && a.outstanding <= db.reserved - amount
    && a.paid + a.outstanding == db.paid + db.reserved
    && a.funded == db.total && a.withdrawn == db.withdrawn
  }

  // ---------------------------------------------------------------- the procedures on the database

  function Commit(db: Db, id: IntentId, row: Option<Row>): Result {
    if row.None? then Rejected else Committed(db.(rows := db.rows[id := row.value]))
  }

  function Call(db: Db, id: IntentId, rpc: Rpc): Result {
    match rpc
    case CreateIntent(amount, recipient) =>
      if id in db.rows || amount == 0 || db.reserved + db.paid + db.withdrawn + amount > db.total then Rejected
      else Committed(db.(rows := db.rows[id := Row(amount, recipient, AwaitingApproval, [], [], Validated)],
                         reserved := db.reserved + amount))
    case _ =>
      if id !in db.rows then Rejected else CallExisting(db, id, db.rows[id], rpc)
  }

  function CallExisting(db: Db, id: IntentId, row: Row, rpc: Rpc): Result {
    match rpc
    case CreateIntent(_, _) => Rejected
    case ObserveApproval(submitted, hash) => Commit(db, id, ObserveApprovalRow(row, submitted, hash, AllHashes(db)))
    case ConfirmApproval(hash, place) => Commit(db, id, ConfirmApprovalRow(row, hash, place))
    case FailOperation(payout) => Commit(db, id, FailOperationRow(row, payout))
    case PreparePayout(key) => Commit(db, id, PrepareRow(row, key))
    case AcceptPayout(key, tx) => Commit(db, id, AcceptRow(row, key, tx, AllTxs(db)))
    case AttachPayoutHash(tx, hash) => Commit(db, id, AttachRow(row, tx, hash, AllHashes(db)))
    case ObserveExternalPayout(hash) => Commit(db, id, ObserveExternalRow(row, hash, AllHashes(db)))
    case CancelIntent =>
      var cancelled := CancelRow(row);
      if cancelled.None? || db.reserved < row.amount then Rejected
      else Committed(db.(rows := db.rows[id := cancelled.value], reserved := db.reserved - row.amount))
    case ConfirmPayout(hash, place, accounting) =>
      if !SnapshotValid(accounting) then Rejected
      else if row.status == PaidOut then
        var confirmed := LastWhere(row.payouts, (op: Op) => op.status == Confirmed);
        if confirmed.Some? && row.payouts[confirmed.value].hash == Some(hash) && row.payouts[confirmed.value].place == Some(place)
        then Committed(db) else Rejected
      else
        var paid := ConfirmPayoutRow(row, hash, place);
        if paid.None? || !MatchesProjection(db, row.amount, accounting) then Rejected
        else Committed(db.(rows := db.rows[id := paid.value], reserved := db.reserved - row.amount, paid := db.paid + row.amount))
  }

  // ---------------------------------------------------------------- row invariant

  predicate OnlyLastOpen(ops: seq<Op>) {
    forall i :: 0 <= i < |ops| - 1 ==> ops[i].status == Failed
  }

  predicate LastIs(ops: seq<Op>, statuses: set<OpStatus>) {
    ops != [] && ops[|ops| - 1].status in statuses
  }

  predicate PayoutFields(op: Op) {
    && (op.status == SubmissionUncertain ==> op.key.Some? && op.tx.None? && op.hash.None?)
    && (op.status == ProviderAccepted ==> op.key.Some? && op.tx.Some? && op.hash.None?)
    && (op.status == Submitted || op.status == Confirmed ==> op.hash.Some?)
  }

  predicate ApprovalFields(op: Op) {
    && op.key.None? && op.tx.None? && op.status != ProviderAccepted
    && (op.status == SubmissionUncertain ==> op.hash.None?)
    && (op.status == Submitted || op.status == Confirmed ==> op.hash.Some?)
  }

  predicate StatusFits(row: Row) {
    match row.status
    case AwaitingApproval => row.payouts == [] && (row.approvals == [] || LastIs(row.approvals, {Failed, SubmissionUncertain})) && row.report == Validated
    case ApprovalSubmitted => row.payouts == [] && LastIs(row.approvals, {Submitted}) && row.report == Validated
    case ReadyForPayout => LastIs(row.approvals, {Confirmed}) && (row.payouts == [] || LastIs(row.payouts, {Failed, SubmissionUncertain})) && row.report == RewardApproved
    case PayoutSubmitted => LastIs(row.approvals, {Confirmed}) && LastIs(row.payouts, {ProviderAccepted, Submitted}) && row.report == PaymentPending
    case PaidOut => LastIs(row.approvals, {Confirmed}) && LastIs(row.payouts, {Confirmed}) && row.report == ReportPaid
    case FailedIntent => row.payouts == [] && (row.approvals == [] || LastIs(row.approvals, {Failed}))
  }

  /** At most one attempt of each kind is open and it is the newest one; keys and hashes are never
      reused; the intent status says exactly how far the newest attempts have got. */
  ghost predicate RowOk(row: Row) {
    && row.amount > 0
    && OnlyLastOpen(row.approvals) && OnlyLastOpen(row.payouts)
    && (forall i :: 0 <= i < |row.payouts| ==> PayoutFields(row.payouts[i]))
    && (forall i :: 0 <= i < |row.approvals| ==> ApprovalFields(row.approvals[i]))
    && (forall i, j :: 0 <= i < j < |row.payouts| && row.payouts[i].key.Some? ==> row.payouts[i].key != row.payouts[j].key)
    && (forall i, j :: 0 <= i < j < |row.payouts| && row.payouts[i].hash.Some? ==> row.payouts[i].hash != row.payouts[j].hash)
    && StatusFits(row)
  }

  // Attempts are never dropped, references once written stay, and a closed attempt never changes.
  ghost predicate OpsExtend(ops: seq<Op>, ops': seq<Op>) {
    && |ops| <= |ops'|
    && (forall i :: 0 <= i < |ops| ==>
          && ops'[i].key == ops[i].key
          && (ops[i].tx.Some? ==> ops'[i].tx == ops[i].tx)
          && (ops[i].hash.Some? ==> ops'[i].hash == ops[i].hash)
          && (ops[i].status in {Failed, Confirmed} ==> ops'[i] == ops[i]))
  }

  // What no procedure ever does to a row: change its terms, or an attempt other than by moving it on.
  ghost predicate RowExtends(row: Row, row': Row) {
    && row'.amount == row.amount && row'.recipient == row.recipient
    && OpsExtend(row.payouts, row'.payouts) && OpsExtend(row.approvals, row'.approvals)
    && (!Live(row.status) ==> row' == row)
  }

  // A key appears only when every earlier attempt has failed.
  ghost predicate KeyRule(row: Row, row': Row) {
    forall k :: k in Keys(row'.payouts) && k !in Keys(row.payouts) ==>
      && forall i :: 0 <= i < |row.payouts| ==> row.payouts[i].status == Failed
  }

  // What an approval call may do to a row: everything about the payout side stays.
  ghost predicate ApprovalEffect(row: Row, row': Row) {
    RowOk(row') && RowExtends(row, row') && row'.payouts == row.payouts
  }

  // The uncertain attempt gets its hash, or a new attempt is recorded.
  lemma SubmitUncertain(row: Row, i: nat, h: Hash)
    requires RowOk(row) && row.status == AwaitingApproval && i < |row.approvals| && row.approvals[i].status == SubmissionUncertain
    ensures var op := row.approvals[i].(status := Submitted, hash := Some(h));
            ApprovalEffect(row, row.(approvals := row.approvals[i := op], status := ApprovalSubmitted))
  {
  }

  lemma AppendApproval(row: Row, hash: Option<Hash>)
    requires RowOk(row) && row.status == AwaitingApproval && LastWhere(row.approvals, Active).None?
    ensures var op := Op(if hash.Some? then Submitted else SubmissionUncertain, None, None, hash, None);
            ApprovalEffect(row, row.(approvals := row.approvals + [op], status := if hash.Some? then ApprovalSubmitted else row.status))
  {
    if row.approvals != [] { assert !Active(row.approvals[|row.approvals| - 1]); }
  }

  lemma ObserveApprovalRowStep(row: Row, submitted: bool, hash: Option<Hash>, hashes: set<Hash>)
    requires RowOk(row)
    ensures var r := ObserveApprovalRow(row, submitted, hash, hashes);
            r.Some? ==> ApprovalEffect(row, r.value) && (Live(row.status) <==> Live(r.value.status))
  {
    var r := ObserveApprovalRow(row, submitted, hash, hashes);
    if r.Some? && r.value != row {
      var uncertain := LastWhere(row.approvals, (op: Op) => op.status == SubmissionUncertain);
      if submitted && uncertain.Some? {
        SubmitUncertain(row, uncertain.value, hash.value);
      } else {
        AppendApproval(row, hash);
      }
    }
  }

  lemma ConfirmApprovalRowStep(row: Row, h: Hash, place: nat)
    requires RowOk(row)
    ensures var r := ConfirmApprovalRow(row, h, place);
            r.Some? ==> ApprovalEffect(row, r.value) && (Live(row.status) <==> Live(r.value.status))
  {}

  lemma CancelRowStep(row: Row)
    requires RowOk(row)
    ensures var r := CancelRow(row);
            r.Some? ==> ApprovalEffect(row, r.value) && Live(row.status) && r.value.status == FailedIntent
  {
    if CancelRow(row).Some? && row.approvals != [] {
      var all := row.approvals + row.payouts;
      assert all[|row.approvals| - 1] == row.approvals[|row.approvals| - 1];
    }
  }

  lemma FailPayoutStep(row: Row)
    requires RowOk(row)
    ensures var r := FailOperationRow(row, true); r.Some? ==> RowOk(r.value) && RowExtends(row, r.value) && KeyRule(row, r.value) && Live(row.status) && Live(r.value.status)
  {}

  lemma FailApprovalStep(row: Row)
    requires RowOk(row)
    ensures var r := FailOperationRow(row, false); r.Some? ==> RowOk(r.value) && RowExtends(row, r.value) && KeyRule(row, r.value) && Live(row.status) && Live(r.value.status)
  {}

  lemma FailRowStep(row: Row, payout: bool)
    requires RowOk(row)
    ensures var r := FailOperationRow(row, payout); r.Some? ==> RowOk(r.value) && RowExtends(row, r.value) && KeyRule(row, r.value) && Live(row.status) && Live(r.value.status)
  {
    if payout { FailPayoutStep(row); } else { FailApprovalStep(row); }
  }

  lemma PrepareRowStep(row: Row, key: Key)
    requires RowOk(row)
    ensures var r := PrepareRow(row, key); r.Some? ==> RowOk(r.value) && RowExtends(row, r.value) && KeyRule(row, r.value) && (Live(row.status) <==> Live(r.value.status))
    ensures var r := PrepareRow(row, key); r.Some? ==> key in Keys(r.value.payouts)
  {
    var r := PrepareRow(row, key);
    if r.Some? && r.value != row {
      assert r.value.payouts[|row.payouts|].key == Some(key);
      if row.payouts != [] { assert !Active(row.payouts[|row.payouts| - 1]); }
    } else if r.Some? {
      var i := LastWhere(row.payouts, (op: Op) => op.key == Some(key)).value;
      assert row.payouts[i].key == Some(key);
    }
  }

  lemma AcceptRowStep(row: Row, key: Key, tx: TxId, txs: set<TxId>)
    requires RowOk(row)
    ensures var r := AcceptRow(row, key, tx, txs); r.Some? ==> RowOk(r.value) && RowExtends(row, r.value) && Keys(r.value.payouts) == Keys(row.payouts) && Live(row.status) && Live(r.value.status)
  {
    var r := AcceptRow(row, key, tx, txs);
    if r.Some? { SameKeys(row.payouts, r.value.payouts); }
  }

  lemma AttachRowStep(row: Row, tx: TxId, hash: Hash, hashes: set<Hash>)
    requires RowOk(row) && Hashes(row.payouts) <= hashes
    ensures var r := AttachRow(row, tx, hash, hashes); r.Some? ==> RowOk(r.value) && RowExtends(row, r.value) && Keys(r.value.payouts) == Keys(row.payouts) && Live(row.status) && Live(r.value.status)
  {
    var r := AttachRow(row, tx, hash, hashes);
    if r.Some? {
      SameKeys(row.payouts, r.value.payouts);
      forall i | 0 <= i < |row.payouts| && row.payouts[i].hash.Some? ensures row.payouts[i].hash.value != hash {
        assert row.payouts[i].hash.value in Hashes(row.payouts);
      }
    }
  }

  lemma SameKeys(a: seq<Op>, b: seq<Op>)
    requires |a| == |b| && forall i :: 0 <= i < |a| ==> a[i].key == b[i].key
    ensures Keys(a) == Keys(b)
  {}

  lemma ObserveExternalRowStep(row: Row, hash: Hash, hashes: set<Hash>)
    requires RowOk(row)
    ensures var r := ObserveExternalRow(row, hash, hashes);
            r.Some? ==> RowOk(r.value) && RowExtends(row, r.value) && Keys(r.value.payouts) == Keys(row.payouts)
                        && hash in Hashes(r.value.payouts) && (Live(row.status) <==> Live(r.value.status))
  {
    var r := ObserveExternalRow(row, hash, hashes);
    if r.Some? && hash !in Hashes(row.payouts) {
      var after := r.value.payouts;
      assert after[|row.payouts|].hash == Some(hash);
      forall i | 0 <= i < |row.payouts| ensures after[i].key == row.payouts[i].key && after[i].hash == row.payouts[i].hash && after[i].status == Failed {
        assert after[i] == FailActive(row.payouts)[i];
        if row.payouts[i].hash.Some? { assert row.payouts[i].hash.value in Hashes(row.payouts); }
      }
      assert Keys(after) == Keys(row.payouts) by {
        forall k | k in Keys(row.payouts) ensures k in Keys(after) {
          var i :| 0 <= i < |row.payouts| && row.payouts[i].key == Some(k);
          assert after[i].key == Some(k);
        }
      }
    }
  }

  lemma ConfirmPayoutRowStep(row: Row, hash: Hash, place: nat)
    requires RowOk(row)
    ensures var r := ConfirmPayoutRow(row, hash, place);
            r.Some? ==> RowOk(r.value) && RowExtends(row, r.value) && Keys(r.value.payouts) == Keys(row.payouts)
                        && Live(row.status) && r.value.status == PaidOut && Last(r.value.payouts).value.hash == Some(hash)
  {
    var r := ConfirmPayoutRow(row, hash, place);
    if r.Some? { SameKeys(row.payouts, r.value.payouts); }
  }

  // ---------------------------------------------------------------- ledger invariant

  function IdsWith(rows: map<IntentId, Row>, live: bool): set<IntentId> {
    set id | id in rows && (if live then Live(rows[id].status) else rows[id].status == PaidOut)
  }

  function AmountOf(rows: map<IntentId, Row>): IntentId -> nat {
    id => if id in rows then rows[id].amount else 0
  }

  /** The program ledger: what is reserved is the sum over live intents, what is paid is the sum over
      paid ones, and the pool covers both. */
  ghost predicate LedgerOk(db: Db) {
    && (forall id :: id in db.rows ==> RowOk(db.rows[id]))
    && db.reserved == Sum(IdsWith(db.rows, true), AmountOf(db.rows))
    && db.paid == Sum(IdsWith(db.rows, false), AmountOf(db.rows))
    && db.reserved + db.paid + db.withdrawn <= db.total
  }

  lemma ReplaceRow(rows: map<IntentId, Row>, id: IntentId, row': Row)
    requires id in rows && row'.amount == rows[id].amount
    ensures var rows' := rows[id := row'];
            && IdsWith(rows', true) - {id} == IdsWith(rows, true) - {id}
            && IdsWith(rows', false) - {id} == IdsWith(rows, false) - {id}
            && (forall ids: set<IntentId> :: Sum(ids, AmountOf(rows')) == Sum(ids, AmountOf(rows)))
  {
    var rows' := rows[id := row'];
    forall ids: set<IntentId> ensures Sum(ids, AmountOf(rows')) == Sum(ids, AmountOf(rows)) {
      SumCongruence(ids, AmountOf(rows'), AmountOf(rows));
    }
  }

  // A row change moves its amount between the two sums exactly as its status moves.
  lemma SumsFollowStatus(rows: map<IntentId, Row>, id: IntentId, row': Row)
    requires id in rows && row'.amount == rows[id].amount
    ensures var rows' := rows[id := row']; var amount := row'.amount;
            && Sum(IdsWith(rows', true), AmountOf(rows')) + (if Live(rows[id].status) then amount else 0)
               == Sum(IdsWith(rows, true), AmountOf(rows)) + (if Live(row'.status) then amount else 0)
            && Sum(IdsWith(rows', false), AmountOf(rows')) + (if rows[id].status == PaidOut then amount else 0)
               == Sum(IdsWith(rows, false), AmountOf(rows)) + (if row'.status == PaidOut then amount else 0)
  {
    ReplaceRow(rows, id, row');
    var rows' := rows[id := row'];
    forall live: bool
      ensures Sum(IdsWith(rows', live), AmountOf(rows')) + (if id in IdsWith(rows, live) then row'.amount else 0)
              == Sum(IdsWith(rows, live), AmountOf(rows)) + (if id in IdsWith(rows', live) then row'.amount else 0)
    {
      WithoutId(IdsWith(rows', live), AmountOf(rows'), id);
      WithoutId(IdsWith(rows, live), AmountOf(rows), id);
      assert Sum(IdsWith(rows, live) - {id}, AmountOf(rows')) == Sum(IdsWith(rows, live) - {id}, AmountOf(rows));
    }
  }

  lemma WithoutId(ids: set<IntentId>, value: IntentId -> nat, id: IntentId)
    ensures Sum(ids, value) == Sum(ids - {id}, value) + (if id in ids then value(id) else 0)
  {
    if id in ids { SumRemove(ids, value, id); } else { assert ids - {id} == ids; }
  }

  lemma HashesIn(db: Db, id: IntentId)
    requires id in db.rows
    ensures Hashes(db.rows[id].payouts) <= AllHashes(db)
  {
    forall h | h in Hashes(db.rows[id].payouts) ensures h in AllHashes(db) {
      assert h in Hashes(db.rows[id].approvals) + Hashes(db.rows[id].payouts);
    }
  }

  // The row-level effect of any committed call on an existing intent.
  lemma RowEffect(db: Db, id: IntentId, rpc: Rpc)
    requires id in db.rows && RowOk(db.rows[id]) && !rpc.CreateIntent? && Call(db, id, rpc).Committed?
    ensures var db' := Call(db, id, rpc).db;
            && id in db'.rows && db'.rows == db.rows[id := db'.rows[id]]
            && RowOk(db'.rows[id]) && RowExtends(db.rows[id], db'.rows[id]) && KeyRule(db.rows[id], db'.rows[id])
  {
    var row := db.rows[id];
    HashesIn(db, id);
    match rpc
    case ObserveApproval(submitted, hash) => ObserveApprovalRowStep(row, submitted, hash, AllHashes(db));
    case ConfirmApproval(hash, place) => ConfirmApprovalRowStep(row, hash, place);
    case CancelIntent => CancelRowStep(row);
    case FailOperation(payout) => FailRowStep(row, payout);
    case PreparePayout(key) => PrepareRowStep(row, key);
    case AcceptPayout(key, tx) => AcceptRowStep(row, key, tx, AllTxs(db));
    case AttachPayoutHash(tx, hash) => AttachRowStep(row, tx, hash, AllHashes(db));
    case ObserveExternalPayout(hash) => ObserveExternalRowStep(row, hash, AllHashes(db));
    case ConfirmPayout(hash, place, _) =>
      if row.status == PaidOut { assert db.rows[id := row] == db.rows; } else { ConfirmPayoutRowStep(row, hash, place); }
  }

  // A key enters a row only through the procedure that prepares an attempt for it.
  lemma NewKeysArePrepared(db: Db, id: IntentId, rpc: Rpc)
    requires id in db.rows && RowOk(db.rows[id]) && !rpc.CreateIntent? && Call(db, id, rpc).Committed?
    ensures var db' := Call(db, id, rpc).db;
            id in db'.rows && Keys(db'.rows[id].payouts) <= Keys(db.rows[id].payouts) + (if rpc.PreparePayout? then {rpc.key} else {})
  {
    var row := db.rows[id];
    HashesIn(db, id);
    match rpc
    case ObserveApproval(submitted, hash) => ObserveApprovalRowStep(row, submitted, hash, AllHashes(db));
    case ConfirmApproval(hash, place) => ConfirmApprovalRowStep(row, hash, place);
    case CancelIntent => CancelRowStep(row);
    case FailOperation(payout) => SameKeys(row.payouts, Call(db, id, rpc).db.rows[id].payouts);
    case PreparePayout(key) =>
    case AcceptPayout(key, tx) => AcceptRowStep(row, key, tx, AllTxs(db));
    case AttachPayoutHash(tx, hash) => AttachRowStep(row, tx, hash, AllHashes(db));
    case ObserveExternalPayout(hash) => ObserveExternalRowStep(row, hash, AllHashes(db));
    case ConfirmPayout(hash, place, _) => if row.status != PaidOut { ConfirmPayoutRowStep(row, hash, place); }
  }

  // The pools moved as the status of the one changed row did.
  ghost predicate PoolsFollow(db: Db, id: IntentId, db': Db)
    requires id in db.rows && id in db'.rows
  {
    var before, after := db.rows[id], db'.rows[id];
    && db'.total == db.total && db'.withdrawn == db.withdrawn
    && db'.reserved + (if Live(before.status) then before.amount else 0) == db.reserved + (if Live(after.status) then before.amount else 0)
    && db'.paid + (if before.status == PaidOut then before.amount else 0) == db.paid + (if after.status == PaidOut then before.amount else 0)
  }

  // How the pools move with the status.
  lemma PoolEffect(db: Db, id: IntentId, rpc: Rpc)
    requires id in db.rows && RowOk(db.rows[id]) && !rpc.CreateIntent? && Call(db, id, rpc).Committed?
    ensures id in Call(db, id, rpc).db.rows && PoolsFollow(db, id, Call(db, id, rpc).db)
  {
    var row := db.rows[id];
    HashesIn(db, id);
    match rpc
    case ObserveApproval(submitted, hash) => ObserveApprovalRowStep(row, submitted, hash, AllHashes(db));
    case ConfirmApproval(hash, place) => ConfirmApprovalRowStep(row, hash, place);
    case CancelIntent => CancelRowStep(row);
    case FailOperation(payout) => FailRowStep(row, payout);
    case PreparePayout(key) => PrepareRowStep(row, key);
    case AcceptPayout(key, tx) => AcceptRowStep(row, key, tx, AllTxs(db));
    case AttachPayoutHash(tx, hash) => AttachRowStep(row, tx, hash, AllHashes(db));
    case ObserveExternalPayout(hash) => ObserveExternalRowStep(row, hash, AllHashes(db));
    case ConfirmPayout(hash, place, _) => if row.status != PaidOut { ConfirmPayoutRowStep(row, hash, place); }
  }

  lemma SumsAfterCreate(rows: map<IntentId, Row>, id: IntentId, row: Row)
    requires id !in rows && Live(row.status)
    ensures var rows' := rows[id := row];
            && Sum(IdsWith(rows', true), AmountOf(rows')) == Sum(IdsWith(rows, true), AmountOf(rows)) + row.amount
            && Sum(IdsWith(rows', false), AmountOf(rows')) == Sum(IdsWith(rows, false), AmountOf(rows))
  {
    var rows' := rows[id := row];
    assert IdsWith(rows', true) == IdsWith(rows, true) + {id};
    assert IdsWith(rows', false) == IdsWith(rows, false);
    SumInsert(IdsWith(rows, true), AmountOf(rows'), id);
    SumCongruence(IdsWith(rows, true), AmountOf(rows'), AmountOf(rows));
    SumCongruence(IdsWith(rows, false), AmountOf(rows'), AmountOf(rows));
  }

  lemma FreshRowOk(amount: nat, recipient: nat)
    requires amount > 0
    ensures RowOk(Row(amount, recipient, AwaitingApproval, [], [], Validated))
  {}

  lemma CreateKeepsLedger(db: Db, id: IntentId, amount: nat, recipient: nat)
    requires LedgerOk(db) && Call(db, id, CreateIntent(amount, recipient)).Committed?
    ensures LedgerOk(Call(db, id, CreateIntent(amount, recipient)).db)
  {
    var row := Row(amount, recipient, AwaitingApproval, [], [], Validated);
    var db' := Call(db, id, CreateIntent(amount, recipient)).db;
    FreshRowOk(amount, recipient);
    SumsAfterCreate(db.rows, id, row);
    assert forall other :: other in db'.rows ==> RowOk(db'.rows[other]);
  }

  lemma EffectsKeepSums(db: Db, id: IntentId, db': Db)
    requires LedgerOk(db) && id in db.rows && id in db'.rows && db'.rows == db.rows[id := db'.rows[id]]
    requires db'.rows[id].amount == db.rows[id].amount && PoolsFollow(db, id, db')
    ensures db'.reserved == Sum(IdsWith(db'.rows, true), AmountOf(db'.rows)) && db'.paid == Sum(IdsWith(db'.rows, false), AmountOf(db'.rows))
  {
    SumsFollowStatus(db.rows, id, db'.rows[id]);
  }

  lemma EffectsKeepLedger(db: Db, id: IntentId, db': Db)
    requires LedgerOk(db) && id in db.rows && id in db'.rows && db'.rows == db.rows[id := db'.rows[id]]
    requires RowOk(db'.rows[id]) && db'.rows[id].amount == db.rows[id].amount
    requires !Live(db.rows[id].status) ==> db'.rows[id] == db.rows[id]
    requires PoolsFollow(db, id, db')
    ensures LedgerOk(db')
  {
    EffectsKeepSums(db, id, db');
    assert db'.reserved + db'.paid <= db.reserved + db.paid;
  }

  /** Every committed call keeps the ledger: an intent's amount is reserved once, then either released
      once or paid once, and never both. */
  lemma CallKeepsLedger(db: Db, id: IntentId, rpc: Rpc)
    requires LedgerOk(db) && Call(db, id, rpc).Committed?
    ensures LedgerOk(Call(db, id, rpc).db)
  {
    if rpc.CreateIntent? {
      CreateKeepsLedger(db, id, rpc.amount, rpc.recipient);
    } else {
      RowEffect(db, id, rpc);
      PoolEffect(db, id, rpc);
      EffectsKeepLedger(db, id, Call(db, id, rpc).db);
    }
  }

  // ---------------------------------------------------------------- when an external payout can settle

  predicate FailedWithHash(row: Row, hash: Hash) {
    exists i :: 0 <= i < |row.payouts| && row.payouts[i].status == Failed && row.payouts[i].hash == Some(hash)
  }

  predicate Settles(row: Row, hash: Hash, place: nat, hashes: set<Hash>) {
    var observed := ObserveExternalRow(row, hash, hashes);
    observed.Some? && ConfirmPayoutRow(observed.value, hash, place).Some?
  }

  lemma KnownPayoutSettlesIff(row: Row, hash: Hash, place: nat, hashes: set<Hash>, i: nat)
    requires RowOk(row) && Payable(row.status)
    requires i < |row.payouts| && row.payouts[i].hash == Some(hash)
    ensures Settles(row, hash, place, hashes) <==> row.payouts[i].status != Failed
    ensures FailedWithHash(row, hash) <==> row.payouts[i].status == Failed
  {
    assert forall j :: 0 <= j < |row.payouts| && row.payouts[j].hash == Some(hash) ==> j == i;
    ObserveExternalRowStep(row, hash, hashes);
    if row.payouts[i].status != Failed { assert i == |row.payouts| - 1; }
  }

  lemma NewPayoutSettles(row: Row, hash: Hash, place: nat, hashes: set<Hash>)
    requires RowOk(row) && Payable(row.status)
    requires hash !in hashes && hash !in Hashes(row.payouts)
    ensures Settles(row, hash, place, hashes) && !FailedWithHash(row, hash)
  {
    var observed := ObserveExternalRow(row, hash, hashes);
    ObserveExternalRowStep(row, hash, hashes);
    var after := observed.value.payouts;
    assert after[|after| - 1] == Op(Submitted, None, None, Some(hash), None);
    forall i | 0 <= i < |row.payouts| ensures row.payouts[i].hash != Some(hash) {
      if row.payouts[i].hash.Some? { assert row.payouts[i].hash.value in Hashes(row.payouts); }
    }
  }

  /** On the row, recording a payout found on chain and confirming it goes through exactly when no failed
      attempt already carries that transaction: the early return for a known hash does not look at its status. */
  lemma ExternalPayoutSettlesIff(row: Row, hash: Hash, place: nat, hashes: set<Hash>)
    requires RowOk(row) && Payable(row.status)
    requires hash in Hashes(row.payouts) || hash !in hashes
    ensures Settles(row, hash, place, hashes) <==> !FailedWithHash(row, hash)
  {
    if hash in Hashes(row.payouts) {
      var i :| 0 <= i < |row.payouts| && row.payouts[i].hash == Some(hash);
      KnownPayoutSettlesIff(row, hash, place, hashes, i);
    } else {
      NewPayoutSettles(row, hash, place, hashes);
    }
  }

  // Nobody else's transaction.
  predicate HashIsFree(db: Db, row: Row, hash: Hash) {
    hash in Hashes(row.payouts) || hash !in AllHashes(db)
  }

  // What recording the payout leaves behind, seen by the confirmation that follows it.
  lemma ObserveCommitsIff(db: Db, id: IntentId, hash: Hash)
    requires id in db.rows && RowOk(db.rows[id]) && Payable(db.rows[id].status)
    ensures var observed := Call(db, id, ObserveExternalPayout(hash));
            if HashIsFree(db, db.rows[id], hash)
            then observed == Committed(db.(rows := db.rows[id := ObserveExternalRow(db.rows[id], hash, AllHashes(db)).value]))
            else observed == Rejected
  {
  }

  lemma ConfirmCommitsIff(db: Db, id: IntentId, hash: Hash, place: nat, a: Accounting)
    requires id in db.rows && db.rows[id].status != PaidOut
    ensures Call(db, id, ConfirmPayout(hash, place, a)).Committed? <==>
              ConfirmPayoutRow(db.rows[id], hash, place).Some? && SnapshotValid(a) && MatchesProjection(db, db.rows[id].amount, a)
  {
  }

  lemma ObserveThenConfirm(db: Db, id: IntentId, hash: Hash, place: nat, a: Accounting)
    requires id in db.rows && RowOk(db.rows[id]) && Payable(db.rows[id].status)
    ensures var observed := Call(db, id, ObserveExternalPayout(hash));
            observed.Committed? ==>
              (Call(observed.db, id, ConfirmPayout(hash, place, a)).Committed? <==>
                 Settles(db.rows[id], hash, place, AllHashes(db)) && SnapshotValid(a) && MatchesProjection(db, db.rows[id].amount, a))
  {
    ObserveCommitsIff(db, id, hash);
    if HashIsFree(db, db.rows[id], hash) {
      var row' := ObserveExternalRow(db.rows[id], hash, AllHashes(db)).value;
      assert row'.amount == db.rows[id].amount && Payable(row'.status);
      ConfirmCommitsIff(db.(rows := db.rows[id := row']), id, hash, place, a);
    }
  }

  /** The two calls a reconciliation makes for a payout found on chain both commit if and only if the
      transaction is nobody else's, no failed attempt of the intent carries it, the counters of its block
      are consistent, and they match the pools of this very moment. */
  lemma ExternalPayoutCommitsIff(db: Db, id: IntentId, hash: Hash, place: nat, a: Accounting)
    requires id in db.rows && RowOk(db.rows[id]) && Payable(db.rows[id].status)
    ensures var observed := Call(db, id, ObserveExternalPayout(hash));
            (observed.Committed? && Call(observed.db, id, ConfirmPayout(hash, place, a)).Committed?) <==>
              && HashIsFree(db, db.rows[id], hash) && !FailedWithHash(db.rows[id], hash)
              && SnapshotValid(a) && MatchesProjection(db, db.rows[id].amount, a)
  {
    ObserveCommitsIff(db, id, hash);
    ObserveThenConfirm(db, id, hash, place, a);
    if HashIsFree(db, db.rows[id], hash) { ExternalPayoutSettlesIff(db.rows[id], hash, place, AllHashes(db)); }
  }
}
