/** Pieces of runs: what one process does when nobody disturbs it. Each lemma gives the actions it takes and
    the world they lead to. */
module SettlementRuns {
  import opened Options
  import opened RewardSettlement
  import opened SettlementDrivers

  // ---------------------------------------------------------------- single actions

  lemma Push(w: World, actions: seq<Action>, w': World, a: Action)
    requires RunAll(w, actions) == w'
    ensures RunAll(w, actions + [a]) == Next(w', a)
  {
    assert (actions + [a])[..|actions|] == actions;
  }

  // No action yet.
  lemma Begin(w: World) returns (actions: seq<Action>)
    ensures RunAll(w, actions) == w
  {
    actions := [];
  }

  lemma {:induction false} RunThen(w: World, first: seq<Action>, second: seq<Action>)
    ensures RunAll(w, first + second) == RunAll(RunAll(w, first), second)
    decreases |second|
  {
    if second == [] {
      assert first + second == first;
    } else {
      RunThen(w, first, second[..|second| - 1]);
      assert (first + second)[..|first + second| - 1] == first + second[..|second| - 1];
    }
  }

  lemma EnterTwice(w: World, pid: Pid, p: Phase, q: Phase)
    ensures Enter(Enter(w, pid, p), pid, q) == Enter(w, pid, q) && PhaseOf(Enter(w, pid, p), pid) == p
  {
    assert w.procs[pid := p][pid := q] == w.procs[pid := q];
  }

  lemma SameBlock(w: World, w': World, section: Section, id: IntentId, row: Row, answer: Answer)
    requires w'.chain == w.chain && w'.approved == w.approved && w'.minted == w.minted
    ensures Block(w', section, id, row, answer) == Block(w, section, id, row, answer)
  {
  }

  lemma BlockStep(w: World, pid: Pid, section: Section, id: IntentId, row: Row, answer: Answer, q: Phase)
    requires q == Block(w, section, id, row, answer) && !q.ToPrepare?
    ensures Next(Enter(w, pid, At(section, id, row)), Resume(pid, answer)) == Enter(w, pid, q)
  {
    EnterTwice(w, pid, At(section, id, row), q);
    SameBlock(w, Enter(w, pid, At(section, id, row)), section, id, row, answer);
  }

  lemma DrawStep(w: World, pid: Pid, id: IntentId, row: Row, key: Key)
    requires row.status == ReadyForPayout && (row.payouts == [] || row.payouts[|row.payouts| - 1].status == Failed) && key !in w.minted
    ensures Next(Enter(w, pid, At(PrepareBlock, id, row)), Resume(pid, Uuid(key)))
            == Enter(w.(minted := w.minted[key := id]), pid, ToPrepare(id, key))
  {
    EnterTwice(w, pid, At(PrepareBlock, id, row), ToPrepare(id, key));
  }

  lemma RereadStep(w: World, pid: Pid, section: Section, id: IntentId, answer: Answer)
    requires id in w.db.rows
    ensures Next(Enter(w, pid, Reread(section, id)), Resume(pid, answer)) == Enter(w, pid, At(section, id, w.db.rows[id]))
  {
    EnterTwice(w, pid, Reread(section, id), At(section, id, w.db.rows[id]));
  }

  lemma SubmitStep(w: World, pid: Pid, id: IntentId, key: Key, tx: TxId)
    requires key !in w.provider && tx !in w.provider.Values && tx !in w.outcomes
    ensures Next(Enter(w, pid, ToSubmit(id, key)), Resume(pid, Assigned(tx)))
            == Enter(w.(provider := w.provider[key := tx]), pid, ToAccept(id, key, tx))
  {
    EnterTwice(w, pid, ToSubmit(id, key), ToAccept(id, key, tx));
  }

  lemma FailureHeard(w: World, pid: Pid, id: IntentId, attempt: nat, tx: TxId)
    requires tx in w.outcomes && w.outcomes[tx].ProviderFailed?
    ensures Next(Enter(w, pid, Waiting(id, attempt, tx)), Resume(pid, Polled)) == Enter(w, pid, ToFail(id, true, attempt, ProviderSaid))
  {
    EnterTwice(w, pid, Waiting(id, attempt, tx), ToFail(id, true, attempt, ProviderSaid));
  }

  lemma HashHeard(w: World, pid: Pid, id: IntentId, attempt: nat, tx: TxId)
    requires tx in w.outcomes && w.outcomes[tx].Sent?
    ensures Next(Enter(w, pid, Waiting(id, attempt, tx)), Resume(pid, Polled)) == Enter(w, pid, ToAttach(id, tx, w.outcomes[tx].hash))
  {
    EnterTwice(w, pid, Waiting(id, attempt, tx), ToAttach(id, tx, w.outcomes[tx].hash));
  }

  lemma CallStep(w: World, pid: Pid, p: Phase, answer: Answer)
    requires PendingCall(p).Some? && !p.Idle?
    ensures var (rpc, after) := PendingCall(p).value;
            var r := Call(w.db, p.id, rpc);
            Next(Enter(w, pid, p), Resume(pid, answer)) == if r.Committed? then Enter(w.(db := r.db), pid, after) else Enter(w, pid, Idle)
  {
    EnterTwice(w, pid, p, Idle);
    EnterTwice(w, pid, p, PendingCall(p).value.1);
  }

  // ---------------------------------------------------------------- up to a block

  lemma ReachApproval(w: World, pid: Pid, id: IntentId) returns (more: seq<Action>)
    requires PhaseOf(w, pid).Idle? && id in w.db.rows && w.db.rows[id].status != AwaitingApproval
    ensures RunAll(w, more) == Enter(w, pid, At(ApprovalBlock, id, w.db.rows[id]))
  {
    var row := w.db.rows[id];
    more := Begin(w);
    Push(w, more, w, Start(pid, id));
    more := more + [Start(pid, id)];
    BlockStep(w, pid, AwaitingBlock, id, row, Nothing, At(ApprovalBlock, id, row));
    Push(w, more, Enter(w, pid, At(AwaitingBlock, id, row)), Resume(pid, Nothing));
    more := more + [Resume(pid, Nothing)];
  }

  lemma ReachExternal(w: World, pid: Pid, id: IntentId) returns (more: seq<Action>)
    requires PhaseOf(w, pid).Idle? && id in w.db.rows && Payable(w.db.rows[id].status)
    ensures RunAll(w, more) == Enter(w, pid, At(ExternalBlock, id, w.db.rows[id]))
  {
    var row := w.db.rows[id];
    more := ReachApproval(w, pid, id);
    BlockStep(w, pid, ApprovalBlock, id, row, Nothing, At(ExternalBlock, id, row));
    Push(w, more, Enter(w, pid, At(ApprovalBlock, id, row)), Resume(pid, Nothing));
    more := more + [Resume(pid, Nothing)];
  }

  lemma ReachPrepare(w: World, pid: Pid, id: IntentId) returns (more: seq<Action>)
    requires PhaseOf(w, pid).Idle? && id in w.db.rows && w.db.rows[id].status == ReadyForPayout
    ensures RunAll(w, more) == Enter(w, pid, At(PrepareBlock, id, w.db.rows[id]))
  {
    var row := w.db.rows[id];
    more := ReachExternal(w, pid, id);
    BlockStep(w, pid, ExternalBlock, id, row, Nothing, At(PrepareBlock, id, row));
    Push(w, more, Enter(w, pid, At(ExternalBlock, id, row)), Resume(pid, Nothing));
    more := more + [Resume(pid, Nothing)];
  }

  // ---------------------------------------------------------------- a new attempt, submitted and accepted

  predicate NeedsAttempt(row: Row) {
    row.status == ReadyForPayout && (row.payouts == [] || row.payouts[|row.payouts| - 1].status == Failed)
    && row.report == RewardApproved
  }

  function PreparedRow(row: Row, key: Key): Row {
    row.(payouts := row.payouts + [Op(SubmissionUncertain, Some(key), None, None, None)])
  }

  function AcceptedRow(row: Row, key: Key, tx: TxId): Row {
    row.(payouts := row.payouts + [Op(ProviderAccepted, Some(key), Some(tx), None, None)], status := PayoutSubmitted, report := PaymentPending)
  }

  function WithRow(w: World, id: IntentId, row: Row): World {
    w.(db := w.db.(rows := w.db.rows[id := row]))
  }

  lemma PrepareCommits(db: Db, id: IntentId, key: Key)
    requires id in db.rows && RowOk(db.rows[id]) && NeedsAttempt(db.rows[id]) && key !in Keys(db.rows[id].payouts)
    ensures Call(db, id, PreparePayout(key)) == Committed(db.(rows := db.rows[id := PreparedRow(db.rows[id], key)]))
  {
    var row := db.rows[id];
    assert LastWhere(row.payouts, (op: Op) => op.key == Some(key)).None?;
    forall i | 0 <= i < |row.payouts| ensures !Active(row.payouts[i]) {}
  }

  lemma AcceptCommits(db: Db, id: IntentId, row: Row, key: Key, tx: TxId)
    requires id in db.rows && db.rows[id] == PreparedRow(row, key) && NeedsAttempt(row) && tx !in AllTxs(db)
    ensures Call(db, id, AcceptPayout(key, tx)) == Committed(db.(rows := db.rows[id := AcceptedRow(row, key, tx)]))
  {
    var ops := db.rows[id].payouts;
    var n := |row.payouts|;
    assert ops[n].key == Some(key) && ops[n].status == SubmissionUncertain;
    assert LastWhere(ops, (op: Op) => op.key == Some(key) && op.status == SubmissionUncertain) == Some(n);
    assert ops[n := ops[n].(status := ProviderAccepted, tx := Some(tx))] == AcceptedRow(row, key, tx).payouts;
  }

  lemma Prepares(w: World, pid: Pid, id: IntentId, key: Key) returns (more: seq<Action>)
    requires PhaseOf(w, pid).Idle? && id in w.db.rows && RowOk(w.db.rows[id]) && NeedsAttempt(w.db.rows[id])
    requires key !in w.minted && key !in Keys(w.db.rows[id].payouts)
    ensures RunAll(w, more) == Enter(WithRow(w.(minted := w.minted[key := id]), id, PreparedRow(w.db.rows[id], key)), pid, Reread(SubmitBlock, id))
  {
    var row := w.db.rows[id];
    var w1 := w.(minted := w.minted[key := id]);
    more := ReachPrepare(w, pid, id);
    DrawStep(w, pid, id, row, key);
    Push(w, more, Enter(w, pid, At(PrepareBlock, id, row)), Resume(pid, Uuid(key)));
    more := more + [Resume(pid, Uuid(key))];
    PrepareCommits(w.db, id, key);
    CallStep(w1, pid, ToPrepare(id, key), Nothing);
    Push(w, more, Enter(w1, pid, ToPrepare(id, key)), Resume(pid, Nothing));
    more := more + [Resume(pid, Nothing)];
  }

  lemma ReachSubmit(w: World, pid: Pid, id: IntentId, row: Row, key: Key) returns (more: seq<Action>)
    requires id in w.db.rows && w.db.rows[id] == PreparedRow(row, key) && NeedsAttempt(row)
    ensures RunAll(Enter(w, pid, Reread(SubmitBlock, id)), more) == Enter(w, pid, ToSubmit(id, key))
  {
    var w0 := Enter(w, pid, Reread(SubmitBlock, id));
    var prepared := PreparedRow(row, key);
    RereadStep(w, pid, SubmitBlock, id, Nothing);
    more := Begin(w0);
    Push(w0, more, w0, Resume(pid, Nothing));
    more := more + [Resume(pid, Nothing)];
    BlockStep(w, pid, SubmitBlock, id, prepared, Nothing, ToSubmit(id, key));
    Push(w0, more, Enter(w, pid, At(SubmitBlock, id, prepared)), Resume(pid, Nothing));
    more := more + [Resume(pid, Nothing)];
  }

  lemma SubmitsAndAccepts(w: World, pid: Pid, id: IntentId, row: Row, key: Key, tx: TxId) returns (more: seq<Action>)
    requires id in w.db.rows && w.db.rows[id] == PreparedRow(row, key) && NeedsAttempt(row)
    requires key !in w.provider && tx !in w.provider.Values && tx !in w.outcomes && tx !in AllTxs(w.db)
    ensures RunAll(Enter(w, pid, ToSubmit(id, key)), more)
            == Enter(WithRow(w.(provider := w.provider[key := tx]), id, AcceptedRow(row, key, tx)), pid, Reread(RelayBlock, id))
  {
    var w0 := Enter(w, pid, ToSubmit(id, key));
    var w1 := w.(provider := w.provider[key := tx]);
    SubmitStep(w, pid, id, key, tx);
    more := Begin(w0);
    Push(w0, more, w0, Resume(pid, Assigned(tx)));
    more := more + [Resume(pid, Assigned(tx))];
    AcceptCommits(w.db, id, row, key, tx);
    CallStep(w1, pid, ToAccept(id, key, tx), Nothing);
    Push(w0, more, Enter(w1, pid, ToAccept(id, key, tx)), Resume(pid, Nothing));
    more := more + [Resume(pid, Nothing)];
  }

  function Relayed(w: World, id: IntentId, key: Key, tx: TxId): World
    requires id in w.db.rows
  {
    WithRow(w.(minted := w.minted[key := id], provider := w.provider[key := tx]), id, AcceptedRow(w.db.rows[id], key, tx))
  }

  predicate Fresh(w: World, key: Key, tx: TxId) {
    key !in w.minted && key !in w.provider && tx !in w.provider.Values && tx !in w.outcomes && tx !in AllTxs(w.db)
  }

  lemma TxsAfterPrepare(db: Db, id: IntentId, key: Key)
    requires id in db.rows
    ensures AllTxs(db.(rows := db.rows[id := PreparedRow(db.rows[id], key)])) <= AllTxs(db)
  {
    var db' := db.(rows := db.rows[id := PreparedRow(db.rows[id], key)]);
    forall tx | tx in AllTxs(db') ensures tx in AllTxs(db) {
      var other, i :| other in db'.rows && 0 <= i < |db'.rows[other].payouts| && db'.rows[other].payouts[i].tx == Some(tx);
      assert i < |db.rows[other].payouts| && db.rows[other].payouts[i].tx == Some(tx);
    }
  }

  /** A process takes a payable intent without an open attempt through a new one: key drawn and stored,
      submitted, accepted. */
  lemma Relays(w: World, pid: Pid, id: IntentId, key: Key, tx: TxId) returns (more: seq<Action>)
    requires PhaseOf(w, pid).Idle? && id in w.db.rows && RowOk(w.db.rows[id]) && NeedsAttempt(w.db.rows[id])
    requires Fresh(w, key, tx) && key !in Keys(w.db.rows[id].payouts)
    ensures RunAll(w, more) == Enter(Relayed(w, id, key, tx), pid, Reread(RelayBlock, id))
  {
    var row := w.db.rows[id];
    var w1 := WithRow(w.(minted := w.minted[key := id]), id, PreparedRow(row, key));
    TxsAfterPrepare(w.db, id, key);
    var a := Prepares(w, pid, id, key);
    var b := ReachSubmit(w1, pid, id, row, key);
    var c := SubmitsAndAccepts(w1, pid, id, row, key, tx);
    RunThen(w, a, b);
    RunThen(w, a + b, c);
    more := a + b + c;
    assert w1.db.rows[id := AcceptedRow(row, key, tx)] == w.db.rows[id := AcceptedRow(row, key, tx)];
  }

  // ---------------------------------------------------------------- an intent up to its confirmed approval

  lemma EnterCommutes(w: World, a: Pid, p: Phase, b: Pid, q: Phase)
    requires a != b
    ensures Enter(Enter(w, a, p), b, q) == Enter(Enter(w, b, q), a, p)
  {
    assert w.procs[a := p][b := q] == w.procs[b := q][a := p];
  }

  lemma CrashStep(w: World, pid: Pid, p: Phase)
    ensures Next(Enter(w, pid, p), Crash(pid)) == Enter(w, pid, Idle)
  {
    EnterTwice(w, pid, p, Idle);
  }

  function PayableRow(amount: nat, recipient: nat, approval: ChainApproval): Row {
    Row(amount, recipient, ReadyForPayout, [Op(Confirmed, None, None, Some(approval.hash), Some(approval.place))], [], RewardApproved)
  }

  function SubmittedRow(amount: nat, recipient: nat, hash: Hash): Row {
    Row(amount, recipient, ApprovalSubmitted, [Op(Submitted, None, None, Some(hash), None)], [], Validated)
  }

  // The owner opens an intent and reports the approval transaction.
  function Opened(w: World, id: IntentId, amount: nat, recipient: nat, hash: Hash): World {
    w.(db := w.db.(rows := w.db.rows[id := SubmittedRow(amount, recipient, hash)], reserved := w.db.reserved + amount))
  }

  predicate CanOpen(w: World, id: IntentId, amount: nat, hash: Hash) {
    && id !in w.db.rows && amount > 0 && hash !in AllHashes(w.db)
    && w.db.reserved + w.db.paid + w.db.withdrawn + amount <= w.db.total
  }

  lemma HashesAfterCreate(db: Db, id: IntentId, row: Row)
    requires id !in db.rows && row.approvals == [] && row.payouts == []
    ensures AllHashes(db.(rows := db.rows[id := row])) <= AllHashes(db)
  {
    var db' := db.(rows := db.rows[id := row]);
    forall hash | hash in AllHashes(db') ensures hash in AllHashes(db) {
      var other :| other in db'.rows && hash in Hashes(db'.rows[other].approvals) + Hashes(db'.rows[other].payouts);
      assert other in db.rows && hash in Hashes(db.rows[other].approvals) + Hashes(db.rows[other].payouts);
    }
  }

  lemma Opens(w: World, id: IntentId, amount: nat, recipient: nat, hash: Hash) returns (more: seq<Action>)
    requires CanOpen(w, id, amount, hash)
    ensures RunAll(w, more) == Opened(w, id, amount, recipient, hash)
  {
    var create := OwnerCall(id, CreateIntent(amount, recipient));
    var observe := OwnerCall(id, ObserveApproval(true, Some(hash)));
    var row := Row(amount, recipient, AwaitingApproval, [], [], Validated);
    var w1 := Next(w, create);
    more := Begin(w);
    Push(w, more, w, create);
    more := more + [create];
    HashesAfterCreate(w.db, id, row);
    assert AllHashes(w1.db) == AllHashes(w.db.(rows := w.db.rows[id := row]));
    var observed := ObserveApprovalRow(row, true, Some(hash), AllHashes(w1.db));
    assert observed.Some?;
    assert observed.value.approvals == SubmittedRow(amount, recipient, hash).approvals;
    assert w.db.rows[id := row][id := SubmittedRow(amount, recipient, hash)] == w.db.rows[id := SubmittedRow(amount, recipient, hash)];
    Push(w, more, w1, observe);
    more := more + [observe];
  }

  lemma ApprovalConfirms(db: Db, id: IntentId, amount: nat, recipient: nat, approval: ChainApproval)
    requires id in db.rows && db.rows[id] == SubmittedRow(amount, recipient, approval.hash)
    ensures Call(db, id, ConfirmApproval(approval.hash, approval.place))
            == Committed(db.(rows := db.rows[id := PayableRow(amount, recipient, approval)]))
  {
    var row := db.rows[id];
    assert row.approvals[0].hash == Some(approval.hash) && row.approvals[0].status == Submitted;
    assert ConfirmApprovalRow(row, approval.hash, approval.place).Some?;
    assert ConfirmApprovalRow(row, approval.hash, approval.place).value.approvals == PayableRow(amount, recipient, approval).approvals;
  }

  function MadePayable(w: World, id: IntentId, amount: nat, recipient: nat, approval: ChainApproval): World {
    w.(approved := w.approved[id := approval],
       db := w.db.(rows := w.db.rows[id := PayableRow(amount, recipient, approval)], reserved := w.db.reserved + amount))
  }

  lemma Confirms(w: World, pid: Pid, id: IntentId, amount: nat, recipient: nat, approval: ChainApproval) returns (more: seq<Action>)
    requires PhaseOf(w, pid).Idle? && id in w.db.rows && w.db.rows[id] == SubmittedRow(amount, recipient, approval.hash)
    requires id in w.approved && w.approved[id] == approval
    ensures RunAll(w, more) == Enter(WithRow(w, id, PayableRow(amount, recipient, approval)), pid, Idle)
  {
    var row := w.db.rows[id];
    var p := ToConfirmApproval(id, approval.hash, approval.place);
    var found := FoundApproval(approval.hash, approval.place);
    more := ReachApproval(w, pid, id);
    BlockStep(w, pid, ApprovalBlock, id, row, found, p);
    Push(w, more, Enter(w, pid, At(ApprovalBlock, id, row)), Resume(pid, found));
    more := more + [Resume(pid, found)];
    ApprovalConfirms(w.db, id, amount, recipient, approval);
    CallStep(w, pid, p, Nothing);
    Push(w, more, Enter(w, pid, p), Resume(pid, Nothing));
    more := more + [Resume(pid, Nothing)];
    var w' := WithRow(w, id, PayableRow(amount, recipient, approval));
    CrashStep(w', pid, Reread(ExternalAfterApproval, id));
    Push(w, more, Enter(w', pid, Reread(ExternalAfterApproval, id)), Crash(pid));
    more := more + [Crash(pid)];
  }

  /** An intent is opened, approved on chain and confirmed by a process. */
  lemma Approves(w: World, pid: Pid, id: IntentId, amount: nat, recipient: nat, approval: ChainApproval) returns (more: seq<Action>)
    requires PhaseOf(w, pid).Idle? && CanOpen(w, id, amount, approval.hash) && id !in w.approved
    ensures RunAll(w, more) == Enter(MadePayable(w, id, amount, recipient, approval), pid, Idle)
  {
    var w1 := Opened(w, id, amount, recipient, approval.hash);
    var w2 := w1.(approved := w1.approved[id := approval]);
    more := Opens(w, id, amount, recipient, approval.hash);
    Push(w, more, w1, ChainApproves(id, approval));
    more := more + [ChainApproves(id, approval)];
    var rest := Confirms(w2, pid, id, amount, recipient, approval);
    RunThen(w, more, rest);
    more := more + rest;
    assert w1.db.rows[id := PayableRow(amount, recipient, approval)] == w.db.rows[id := PayableRow(amount, recipient, approval)];
  }

  // ---------------------------------------------------------------- waiting for the provider

  predicate AwaitsProvider(row: Row, tx: TxId) {
    row.status == PayoutSubmitted && row.payouts != []
    && row.payouts[|row.payouts| - 1].status == ProviderAccepted && row.payouts[|row.payouts| - 1].tx == Some(tx)
  }

  lemma ReachWaiting(w: World, pid: Pid, id: IntentId, tx: TxId) returns (more: seq<Action>)
    requires PhaseOf(w, pid).Idle? && id in w.db.rows && AwaitsProvider(w.db.rows[id], tx)
    ensures RunAll(w, more) == Enter(w, pid, Waiting(id, |w.db.rows[id].payouts| - 1, tx))
  {
    var row := w.db.rows[id];
    more := ReachExternal(w, pid, id);
    BlockStep(w, pid, ExternalBlock, id, row, Nothing, At(PrepareBlock, id, row));
    Push(w, more, Enter(w, pid, At(ExternalBlock, id, row)), Resume(pid, Nothing));
    more := more + [Resume(pid, Nothing)];
    BlockStep(w, pid, PrepareBlock, id, row, Nothing, At(RelayBlock, id, row));
    Push(w, more, Enter(w, pid, At(PrepareBlock, id, row)), Resume(pid, Nothing));
    more := more + [Resume(pid, Nothing)];
    BlockStep(w, pid, RelayBlock, id, row, Nothing, Waiting(id, |row.payouts| - 1, tx));
    Push(w, more, Enter(w, pid, At(RelayBlock, id, row)), Resume(pid, Nothing));
    more := more + [Resume(pid, Nothing)];
  }

  // The newest attempt with its hash attached, and recorded failed.
  function AttachedRow(row: Row, hash: Hash): Row
    requires row.payouts != []
  {
    var n := |row.payouts| - 1;
    row.(payouts := row.payouts[n := row.payouts[n].(status := Submitted, hash := Some(hash))])
  }

  function FailedRow(row: Row): Row
    requires row.payouts != []
  {
    var n := |row.payouts| - 1;
    row.(payouts := row.payouts[n := row.payouts[n].(status := Failed)], status := ReadyForPayout,
         report := if row.report == PaymentPending then RewardApproved else row.report)
  }

  lemma AttachCommits(db: Db, id: IntentId, tx: TxId, hash: Hash)
    requires id in db.rows && AwaitsProvider(db.rows[id], tx) && hash !in AllHashes(db)
    ensures Call(db, id, AttachPayoutHash(tx, hash)) == Committed(db.(rows := db.rows[id := AttachedRow(db.rows[id], hash)]))
  {
    var ops := db.rows[id].payouts;
    assert LastWhere(ops, (op: Op) => op.tx == Some(tx) && op.status == ProviderAccepted) == Some(|ops| - 1);
  }

  lemma FailCommits(db: Db, id: IntentId)
    requires id in db.rows && db.rows[id].payouts != [] && Active(db.rows[id].payouts[|db.rows[id].payouts| - 1])
    ensures Call(db, id, FailOperation(true)) == Committed(db.(rows := db.rows[id := FailedRow(db.rows[id])]))
  {
    var ops := db.rows[id].payouts;
    assert LastWhere(ops, Active) == Some(|ops| - 1);
  }

  // ---------------------------------------------------------------- settling

  function BothCalls(db: Db, id: IntentId, e: Evidence): Result
    requires id in db.rows
  {
    match Call(db, id, ObserveExternalPayout(e.hash))
    case Rejected => Rejected
    case Committed(observed) => Call(observed, id, ConfirmPayout(e.hash, e.place, e.accounting))
  }

  /** A process that finds the payout on chain records and confirms it, if the procedures let it. */
  lemma FindsAndSettles(w: World, pid: Pid, id: IntentId, e: Evidence) returns (more: seq<Action>)
    requires PhaseOf(w, pid).Idle? && id in w.db.rows && Payable(w.db.rows[id].status)
    requires Verified(w, id, w.db.rows[id], e) && BothCalls(w.db, id, e).Committed?
    ensures RunAll(w, more) == Enter(w.(db := BothCalls(w.db, id, e).db), pid, Idle)
  {
    var row := w.db.rows[id];
    var observed := Call(w.db, id, ObserveExternalPayout(e.hash)).db;
    more := ReachExternal(w, pid, id);
    BlockStep(w, pid, ExternalBlock, id, row, FoundPayout(e), ToObserveExternal(id, e));
    Push(w, more, Enter(w, pid, At(ExternalBlock, id, row)), Resume(pid, FoundPayout(e)));
    more := more + [Resume(pid, FoundPayout(e))];
    CallStep(w, pid, ToObserveExternal(id, e), Nothing);
    Push(w, more, Enter(w, pid, ToObserveExternal(id, e)), Resume(pid, Nothing));
    more := more + [Resume(pid, Nothing)];
    CallStep(w.(db := observed), pid, ToConfirm(id, e), Nothing);
    Push(w, more, Enter(w.(db := observed), pid, ToConfirm(id, e)), Resume(pid, Nothing));
    more := more + [Resume(pid, Nothing)];
  }
}
