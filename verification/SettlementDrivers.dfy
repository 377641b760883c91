/** Any number of concurrent `reconcile` calls, each stopped or crashed at any await, over the
    settlement database, a chain that pays a reward at most once, and an idempotent provider. */
module SettlementDrivers {
  import opened Options
  import opened RewardSettlement

  type Pid = nat

  // Where a payout is on chain, and the escrow's counters at the end of its block.
  datatype Evidence = Evidence(hash: Hash, place: nat, accounting: Accounting)

  // The one RewardPaid event a contract can ever emit for this intent's report key.
  datatype ChainPayout = ChainPayout(evidence: Evidence, recipient: nat, amount: nat)

  // The one RewardApproved event for it.
  datatype ChainApproval = ChainApproval(hash: Hash, place: nat)

  // What finally became of a provider transaction.
  datatype Outcome = ProviderFailed | Sent(hash: Hash, reverted: bool)

  // Why an attempt is about to be recorded failed.
  datatype Why = ProviderSaid | Refuted

  // The `if` blocks of reconcile, in order; a block is entered with a local copy of the row.
  datatype Section =
    | AwaitingBlock | ApprovalBlock | ExternalAfterApproval | ExternalBlock
    | PrepareBlock | SubmitBlock | RelayBlock | VerifyBlock

  // `attempt` is history: the position of the attempt the process was looking at.
  datatype Phase =
    | Idle
    | At(section: Section, id: IntentId, row: Row)
    | Reread(section: Section, id: IntentId)
    | ToObserveApproval(id: IntentId, approvalHash: Hash)
    | ToConfirmApproval(id: IntentId, approvalHash: Hash, place: nat)
    | ToFail(id: IntentId, payout: bool, attempt: nat, why: Why)
    | ToObserveExternal(id: IntentId, evidence: Evidence)
    | ToConfirm(id: IntentId, evidence: Evidence)
    | ToPrepare(id: IntentId, key: Key)
    | ToSubmit(id: IntentId, key: Key)
    | ToAccept(id: IntentId, key: Key, tx: TxId)
    | Waiting(id: IntentId, attempt: nat, tx: TxId)
    | ToAttach(id: IntentId, tx: TxId, payoutHash: Hash)
    | ToCancel(id: IntentId)

  // What the awaited call hands back.
  datatype Answer =
    | Nothing
    | FoundApproval(approvalHash: Hash, place: nat)
    | FoundPayout(evidence: Evidence)
    | RetryableError
    | FatalError
    | Uuid(key: Key)
    | Assigned(tx: TxId)
    | Polled

  // `minted` remembers which intent each random UUID was drawn for.
  datatype World = World(db: Db, approved: map<IntentId, ChainApproval>, chain: map<IntentId, ChainPayout>,
                         provider: map<Key, TxId>, outcomes: map<TxId, Outcome>, minted: map<Key, IntentId>, procs: map<Pid, Phase>)

  datatype Action =
    | Start(pid: Pid, id: IntentId)
    | Resume(pid: Pid, answer: Answer)
    | Crash(pid: Pid)
    | Cancel(pid: Pid, id: IntentId)
    | OwnerCall(id: IntentId, rpc: Rpc)
    | ChainApproves(id: IntentId, approval: ChainApproval)
    | ChainPays(id: IntentId, payout: ChainPayout)
    | Settle(tx: TxId, outcome: Outcome)
    | PoolFunded(amount: nat)

  function PhaseOf(w: World, pid: Pid): Phase {
    if pid in w.procs then w.procs[pid] else Idle
  }

  // Chain verification: the event must carry this row's recipient and amount.
  predicate Proves(w: World, id: IntentId, row: Row, hash: Hash) {
    id in w.chain && w.chain[id].evidence.hash == hash && w.chain[id].recipient == row.recipient && w.chain[id].amount == row.amount
  }

  // What the adapter returns: the counters are those of the payout's block, and it has tested them.
  predicate Verified(w: World, id: IntentId, row: Row, e: Evidence) {
    Proves(w, id, row, e.hash) && w.chain[id].evidence == e && SnapshotValid(e.accounting) && e.accounting.paid >= row.amount
  }

  predicate ApprovalFound(w: World, id: IntentId, answer: Answer) {
    answer.FoundApproval? && id in w.approved && w.approved[id] == ChainApproval(answer.approvalHash, answer.place)
  }

  // The transaction will never pay.
  predicate Dead(w: World, tx: TxId) {
    tx in w.outcomes && (w.outcomes[tx].ProviderFailed? || w.outcomes[tx].reverted)
  }

  function FindPayout(w: World, id: IntentId, row: Row, answer: Answer, otherwise: Section): Phase {
    if answer.FoundPayout? && Verified(w, id, row, answer.evidence) then ToObserveExternal(id, answer.evidence)
    else if answer.Nothing? then At(otherwise, id, row)
    else Idle
  }

  // One block of reconcile, up to its next await.
  function Block(w: World, section: Section, id: IntentId, row: Row, answer: Answer): Phase {
    match section
    case AwaitingBlock =>
      if row.status != AwaitingApproval then At(ApprovalBlock, id, row)
      else if Last(row.approvals).Some? && Last(row.approvals).value.status == SubmissionUncertain && ApprovalFound(w, id, answer)
      then ToObserveApproval(id, answer.approvalHash) else Idle
    case ApprovalBlock =>
      if row.status != ApprovalSubmitted then At(ExternalBlock, id, row)
      else if Last(row.approvals).None? || Last(row.approvals).value.status != Submitted || Last(row.approvals).value.hash.None? then Idle
      else if ApprovalFound(w, id, answer) && Some(answer.approvalHash) == Last(row.approvals).value.hash
      then ToConfirmApproval(id, answer.approvalHash, answer.place)
      else if answer.FatalError? then ToFail(id, false, |row.approvals| - 1, Refuted) else Idle
    case ExternalAfterApproval => FindPayout(w, id, row, answer, ExternalBlock)
    case ExternalBlock =>
      if row.status == ReadyForPayout || row.status == PayoutSubmitted then FindPayout(w, id, row, answer, PrepareBlock)
      else At(PrepareBlock, id, row)
    case PrepareBlock =>
      if row.status != ReadyForPayout then At(RelayBlock, id, row)
      else if Last(row.payouts).None? || Last(row.payouts).value.status == Failed
      then (if answer.Uuid? && answer.key !in w.minted then ToPrepare(id, answer.key) else Idle)
      else At(SubmitBlock, id, row)
    case SubmitBlock =>
      if Last(row.payouts).Some? && Last(row.payouts).value.status == SubmissionUncertain
      then (if Last(row.payouts).value.key.Some? then ToSubmit(id, Last(row.payouts).value.key.value) else Idle)
      else At(RelayBlock, id, row)
    case RelayBlock =>
      if row.status != PayoutSubmitted then Idle
      else if Last(row.payouts).Some? && Last(row.payouts).value.status == ProviderAccepted
      then (if Last(row.payouts).value.tx.Some? then Waiting(id, |row.payouts| - 1, Last(row.payouts).value.tx.value) else Idle)
      else At(VerifyBlock, id, row)
    case VerifyBlock =>
      if Last(row.payouts).None? || Last(row.payouts).value.status != Submitted || Last(row.payouts).value.hash.None? then Idle
      else if answer.FoundPayout? && Some(answer.evidence.hash) == Last(row.payouts).value.hash && Verified(w, id, row, answer.evidence)
      then ToConfirm(id, answer.evidence)
      else if answer.FatalError? then ToFail(id, true, |row.payouts| - 1, Refuted) else Idle
  }

  function Enter(w: World, pid: Pid, phase: Phase): World {
    w.(procs := w.procs[pid := phase])
  }

  // A rejected call throws out of reconcile.
  function Rpc(w: World, pid: Pid, id: IntentId, rpc: RewardSettlement.Rpc, then_: Phase): World {
    match Call(w.db, id, rpc)
    case Committed(db) => Enter(w, pid, then_).(db := db)
    case Rejected => Enter(w, pid, Idle)
  }

  function ResumeStepAt(w: World, procs: map<Pid, Phase>, section: Section, id: IntentId, row: Row, answer: Answer): World {
    var phase := Block(w, section, id, row, answer);
    w.(procs := procs, minted := if phase.ToPrepare? then w.minted[phase.key := id] else w.minted)
  }

  // The database call a process is about to make, and where reconcile goes on after it commits.
  function PendingCall(phase: Phase): Option<(RewardSettlement.Rpc, Phase)> {
    match phase
    case ToObserveApproval(id, hash) => Some((ObserveApproval(true, Some(hash)), Reread(ApprovalBlock, id)))
    case ToConfirmApproval(id, hash, place) => Some((ConfirmApproval(hash, place), Reread(ExternalAfterApproval, id)))
    case ToFail(id, payout, _, _) => Some((FailOperation(payout), Idle))
    case ToObserveExternal(id, e) => Some((ObserveExternalPayout(e.hash), ToConfirm(id, e)))
    case ToConfirm(id, e) => Some((ConfirmPayout(e.hash, e.place, e.accounting), Idle))
    case ToPrepare(id, key) => Some((PreparePayout(key), Reread(SubmitBlock, id)))
    case ToAccept(id, key, tx) => Some((AcceptPayout(key, tx), Reread(RelayBlock, id)))
    case ToAttach(id, tx, hash) => Some((AttachPayoutHash(tx, hash), Reread(VerifyBlock, id)))
    case ToCancel(id) => Some((CancelIntent, Idle))
    case _ => None
  }

  // A step that stays away from the database.
  function LocalStep(w: World, pid: Pid, answer: Answer): (r: World)
    ensures r == w.(procs := r.procs, minted := r.minted, provider := r.provider)
    ensures r == w || (pid in r.procs && r.procs == w.procs[pid := r.procs[pid]])
  {
    var phase := PhaseOf(w, pid);
    match phase
    case At(section, id, row) =>
      ResumeStepAt(w, w.procs[pid := Block(w, section, id, row, answer)], section, id, row, answer)
    case Reread(section, id) =>
      Enter(w, pid, if id in w.db.rows then At(section, id, w.db.rows[id]) else Idle)
    case ToSubmit(id, key) =>
      if key in w.provider then Enter(w, pid, ToAccept(id, key, w.provider[key]))
      else if answer.Assigned? && answer.tx !in w.provider.Values && answer.tx !in w.outcomes
      then Enter(w, pid, ToAccept(id, key, answer.tx)).(provider := w.provider[key := answer.tx])
      else Enter(w, pid, Idle)
    case Waiting(id, attempt, tx) =>
      if !answer.Polled? || tx !in w.outcomes then Enter(w, pid, Idle)
      else if w.outcomes[tx].ProviderFailed? then Enter(w, pid, ToFail(id, true, attempt, ProviderSaid))
      else Enter(w, pid, ToAttach(id, tx, w.outcomes[tx].hash))
    case _ => w
  }

  function ResumeStep(w: World, pid: Pid, answer: Answer): World {
    var call := PendingCall(PhaseOf(w, pid));
    if call.Some? then Rpc(w, pid, PhaseOf(w, pid).id, call.value.0, call.value.1) else LocalStep(w, pid, answer)
  }

  function Next(w: World, a: Action): World {
    match a
    case Start(pid, id) =>
      if PhaseOf(w, pid).Idle? && id in w.db.rows then Enter(w, pid, At(AwaitingBlock, id, w.db.rows[id])) else w
    case Resume(pid, answer) => ResumeStep(w, pid, answer)
    case Crash(pid) => Enter(w, pid, Idle)
    case Cancel(pid, id) =>  // looks for the approval on chain first; a later approval does not stop it
      if !PhaseOf(w, pid).Idle? || id !in w.db.rows then w
      else Enter(w, pid, if id in w.approved then ToObserveApproval(id, w.approved[id].hash) else ToCancel(id))
    case OwnerCall(id, rpc) =>
      if rpc.CreateIntent? || rpc.ObserveApproval? then
        (match Call(w.db, id, rpc) case Committed(db) => w.(db := db) case Rejected => w)
      else w
    case ChainApproves(id, approval) =>
      if id in w.approved then w else w.(approved := w.approved[id := approval])
    case Settle(tx, outcome) =>
      if tx in w.outcomes then w else w.(outcomes := w.outcomes[tx := outcome])
    case ChainPays(id, payout) =>
      if id in w.chain then w else w.(chain := w.chain[id := payout])
    case PoolFunded(amount) => w.(db := w.db.(total := w.db.total + amount))
  }

  function RunAll(w: World, actions: seq<Action>): World {
    if actions == [] then w else Next(RunAll(w, actions[..|actions| - 1]), actions[|actions| - 1])
  }

  function Empty(): World {
    World(Db(map[], 0, 0, 0, 0), map[], map[], map[], map[], map[], map[])
  }

  // ---------------------------------------------------------------- the database call an action makes

  datatype Request = NoRequest | Request(id: IntentId, rpc: RewardSettlement.Rpc)

  function RequestOf(w: World, a: Action): Request {
    match a
    case Resume(pid, _) =>
      var call := PendingCall(PhaseOf(w, pid));
      if call.Some? then Request(PhaseOf(w, pid).id, call.value.0) else NoRequest
    case OwnerCall(id, rpc) => if rpc.CreateIntent? || rpc.ObserveApproval? then Request(id, rpc) else NoRequest
    case _ => NoRequest
  }

  // The request goes through, and this is what it leaves.
  predicate Commits(w: World, a: Action) {
    RequestOf(w, a).Request? && Call(w.db, RequestOf(w, a).id, RequestOf(w, a).rpc).Committed?
  }

  lemma ResumeDb(w: World, pid: Pid, answer: Answer)
    ensures var call := PendingCall(PhaseOf(w, pid));
            ResumeStep(w, pid, answer).db ==
              if call.Some? && Call(w.db, PhaseOf(w, pid).id, call.value.0).Committed? then Call(w.db, PhaseOf(w, pid).id, call.value.0).db
              else w.db
  {
  }

  // Nothing but its request and a deposit changes the database.
  lemma DbStep(w: World, a: Action)
    ensures Next(w, a).db ==
              if Commits(w, a) then Call(w.db, RequestOf(w, a).id, RequestOf(w, a).rpc).db
              else if a.PoolFunded? then w.db.(total := w.db.total + a.amount) else w.db
  {
    if a.Resume? { ResumeDb(w, a.pid, a.answer); }
  }

  // ---------------------------------------------------------------- invariant

  ghost predicate PaidIsProven(w: World, id: IntentId)
    requires id in w.db.rows
  {
    var row := w.db.rows[id];
    row.status == PaidOut ==> Last(row.payouts).Some? && Last(row.payouts).value.hash.Some?
                              && Proves(w, id, row, Last(row.payouts).value.hash.value)
  }

  // A later version of the same row, as far as a driver relies on it.
  ghost predicate Later(row: Row, row': Row) {
    && row'.recipient == row.recipient && row'.amount == row.amount
    && Keys(row.payouts) <= Keys(row'.payouts)
    && (!Live(row.status) ==> row' == row)
  }

  ghost predicate PhaseOk(w: World, phase: Phase) {
    phase.Idle? ||
    (phase.id in w.db.rows &&
     var row := w.db.rows[phase.id];
     match phase
     case At(_, _, copy) => copy.recipient == row.recipient && copy.amount == row.amount && Keys(copy.payouts) <= Keys(row.payouts)
     case ToObserveExternal(id, e) => Verified(w, id, row, e)
     case ToConfirm(id, e) => Verified(w, id, row, e)
     case ToPrepare(id, key) => key in w.minted && w.minted[key] == id
     case ToSubmit(id, key) => key in Keys(row.payouts)
     case ToAccept(id, key, tx) => key in Keys(row.payouts) && key in w.provider && w.provider[key] == tx
     case _ => true)
  }

  // The key is stored with an attempt of the intent it was drawn for.
  ghost predicate Persisted(w: World, key: Key) {
    key in w.minted && w.minted[key] in w.db.rows && key in Keys(w.db.rows[w.minted[key]].payouts)
  }

  ghost predicate RowsProven(w: World) {
    forall id :: id in w.db.rows ==> PaidIsProven(w, id)
  }

  ghost predicate KeysOwned(w: World) {
    forall id, key :: id in w.db.rows && key in Keys(w.db.rows[id].payouts) ==> key in w.minted && w.minted[key] == id
  }

  ghost predicate AllPersisted(w: World) {
    forall key :: key in w.provider ==> Persisted(w, key)
  }

  ghost predicate PhasesOk(w: World) {
    forall pid :: PhaseOk(w, PhaseOf(w, pid))
  }

  /** Submissions use persisted keys only, a key belongs to one intent, and a row is paid only on
      chain evidence for that row's recipient and amount. */
  ghost predicate Sound(w: World) {
    RowsProven(w) && KeysOwned(w) && AllPersisted(w) && PhasesOk(w)
  }

  ghost predicate Safe(w: World) {
    LedgerOk(w.db) && Sound(w)
  }

  // Rows only grow; the chain, the provider and the drawn keys only gain entries.
  ghost predicate Grows(w: World, w': World) {
    && (forall id :: id in w.db.rows ==> id in w'.db.rows && Later(w.db.rows[id], w'.db.rows[id]))
    && LogsGrow(w, w')
  }

  ghost predicate LogsGrow(w: World, w': World) {
    && (forall id :: id in w.chain ==> id in w'.chain && w'.chain[id] == w.chain[id])
    && (forall key :: key in w.provider ==> key in w'.provider && w'.provider[key] == w.provider[key])
    && (forall key :: key in w.minted ==> key in w'.minted && w'.minted[key] == w.minted[key])
  }

  lemma PhaseStaysOk(w: World, w': World, phase: Phase)
    requires PhaseOk(w, phase) && Grows(w, w')
    ensures PhaseOk(w', phase)
  {
    if !phase.Idle? { assert Later(w.db.rows[phase.id], w'.db.rows[phase.id]); }
  }

  lemma PhasesStayOk(w: World, w': World, pid: Pid)
    requires PhasesOk(w) && Grows(w, w') && forall q :: q != pid ==> PhaseOf(w', q) == PhaseOf(w, q)
    requires PhaseOk(w', PhaseOf(w', pid))
    ensures PhasesOk(w')
  {
    forall q ensures PhaseOk(w', PhaseOf(w', q)) {
      if q != pid { PhaseStaysOk(w, w', PhaseOf(w, q)); }
    }
  }

  lemma GrowthKeepsPersisted(w: World, w': World, key: Key)
    requires Persisted(w, key) && Grows(w, w')
    ensures Persisted(w', key)
  {
    assert Later(w.db.rows[w.minted[key]], w'.db.rows[w.minted[key]]);
  }

  lemma GrowthKeepsAllPersisted(w: World, w': World)
    requires AllPersisted(w) && Grows(w, w')
    requires forall key :: key in w'.provider && key !in w.provider ==> Persisted(w', key)
    ensures AllPersisted(w')
  {
    forall key | key in w'.provider ensures Persisted(w', key) {
      if key in w.provider { GrowthKeepsPersisted(w, w', key); }
    }
  }

  lemma SameRowsGrow(w: World, w': World)
    requires w'.db.rows == w.db.rows && LogsGrow(w, w')
    ensures Grows(w, w')
    ensures RowsProven(w) ==> RowsProven(w')
    ensures KeysOwned(w) ==> KeysOwned(w')
  {
    forall id | id in w.db.rows && PaidIsProven(w, id) ensures PaidIsProven(w', id) {}
  }

  // A step that leaves the rows alone: one process moves, or the world outside does.
  lemma SameRowsKeepSound(w: World, w': World, pid: Pid)
    requires Sound(w) && w'.db.rows == w.db.rows && LogsGrow(w, w')
    requires forall key :: key in w'.provider && key !in w.provider ==> Persisted(w', key)
    requires forall q :: q != pid ==> PhaseOf(w', q) == PhaseOf(w, q)
    requires PhaseOk(w', PhaseOf(w', pid))
    ensures Sound(w')
  {
    SameRowsGrow(w, w');
    GrowthKeepsAllPersisted(w, w');
    PhasesStayOk(w, w', pid);
  }

  lemma ExtendedIsLater(row: Row, row': Row)
    requires RowExtends(row, row')
    ensures Later(row, row')
  {
    forall k | k in Keys(row.payouts) ensures k in Keys(row'.payouts) {
      var i :| 0 <= i < |row.payouts| && row.payouts[i].key == Some(k);
      assert row'.payouts[i].key == Some(k);
    }
  }

  lemma FailNeverPays(db: Db, id: IntentId, payout: bool)
    requires id in db.rows && RowOk(db.rows[id]) && Call(db, id, FailOperation(payout)).Committed?
    ensures var db' := Call(db, id, FailOperation(payout)).db; id in db'.rows && db'.rows[id].status != PaidOut
  {
    FailRowStep(db.rows[id], payout);
  }

  lemma ConfirmPays(db: Db, id: IntentId, rpc: RewardSettlement.Rpc)
    requires id in db.rows && RowOk(db.rows[id]) && rpc.ConfirmPayout? && db.rows[id].status != PaidOut && Call(db, id, rpc).Committed?
    ensures var db' := Call(db, id, rpc).db;
            id in db'.rows && Last(db'.rows[id].payouts).Some? && Last(db'.rows[id].payouts).value.hash == Some(rpc.payoutHash)
  {
    ConfirmPayoutRowStep(db.rows[id], rpc.payoutHash, rpc.place);
  }

  lemma OthersNeverPay(db: Db, id: IntentId, rpc: RewardSettlement.Rpc)
    requires id in db.rows && RowOk(db.rows[id]) && Call(db, id, rpc).Committed?
    requires !rpc.CreateIntent? && !rpc.ConfirmPayout? && !rpc.FailOperation?
    ensures var db' := Call(db, id, rpc).db; id in db'.rows && (db'.rows[id].status == PaidOut ==> db.rows[id].status == PaidOut)
  {
  }

  // Only a confirmation turns a row paid, and then the newest attempt carries the confirmed hash.
  lemma OnlyConfirmPays(db: Db, id: IntentId, rpc: RewardSettlement.Rpc)
    requires id in db.rows && RowOk(db.rows[id]) && !rpc.CreateIntent? && Call(db, id, rpc).Committed?
    ensures var db' := Call(db, id, rpc).db;
            && id in db'.rows
            && (db'.rows[id].status == PaidOut && db.rows[id].status != PaidOut ==>
                  rpc.ConfirmPayout? && Last(db'.rows[id].payouts).Some? && Last(db'.rows[id].payouts).value.hash == Some(rpc.payoutHash))
  {
    match rpc
    case ConfirmPayout(_, _, _) => if db.rows[id].status != PaidOut { ConfirmPays(db, id, rpc); }
    case FailOperation(payout) => FailNeverPays(db, id, payout);
    case _ => OthersNeverPay(db, id, rpc);
  }

  // The database side of a committed call, in the terms the drivers use.
  ghost predicate CallEffect(db: Db, id: IntentId, rpc: RewardSettlement.Rpc, db': Db) {
    && id in db'.rows && db'.rows == db.rows[id := db'.rows[id]]
    && (if id in db.rows then
          && Later(db.rows[id], db'.rows[id])
          && Keys(db'.rows[id].payouts) <= Keys(db.rows[id].payouts) + (if rpc.PreparePayout? then {rpc.key} else {})
          && (db'.rows[id].status == PaidOut && db.rows[id].status != PaidOut ==>
                rpc.ConfirmPayout? && Last(db'.rows[id].payouts).Some? && Last(db'.rows[id].payouts).value.hash == Some(rpc.payoutHash))
        else db'.rows[id].status == AwaitingApproval && db'.rows[id].payouts == [])
  }

  lemma CallHasEffect(db: Db, id: IntentId, rpc: RewardSettlement.Rpc)
    requires LedgerOk(db) && Call(db, id, rpc).Committed?
    ensures LedgerOk(Call(db, id, rpc).db) && CallEffect(db, id, rpc, Call(db, id, rpc).db)
  {
    CallKeepsLedger(db, id, rpc);
    if !rpc.CreateIntent? {
      RowEffect(db, id, rpc);
      ExtendedIsLater(db.rows[id], Call(db, id, rpc).db.rows[id]);
      NewKeysArePrepared(db, id, rpc);
      OnlyConfirmPays(db, id, rpc);
    }
  }

  lemma EffectGrows(w: World, id: IntentId, rpc: RewardSettlement.Rpc, w': World)
    requires CallEffect(w.db, id, rpc, w'.db)
    requires w'.chain == w.chain && w'.provider == w.provider && w'.minted == w.minted
    ensures Grows(w, w')
  {
    forall other | other in w.db.rows ensures other in w'.db.rows && Later(w.db.rows[other], w'.db.rows[other]) {
      if other != id { SameIsLater(w.db.rows[other]); }
    }
  }

  lemma SameIsLater(row: Row)
    ensures Later(row, row)
  {
  }

  lemma EffectKeepsProven(w: World, id: IntentId, rpc: RewardSettlement.Rpc, w': World)
    requires RowsProven(w) && CallEffect(w.db, id, rpc, w'.db) && w'.chain == w.chain
    requires rpc.ConfirmPayout? ==> id in w.db.rows && Proves(w, id, w.db.rows[id], rpc.payoutHash)
    ensures RowsProven(w')
  {
    forall other | other in w'.db.rows ensures PaidIsProven(w', other) {
      if other in w.db.rows { assert PaidIsProven(w, other); }
    }
  }

  lemma EffectKeepsOwned(w: World, id: IntentId, rpc: RewardSettlement.Rpc, w': World)
    requires KeysOwned(w) && CallEffect(w.db, id, rpc, w'.db) && w'.minted == w.minted
    requires rpc.PreparePayout? ==> rpc.key in w.minted && w.minted[rpc.key] == id
    ensures KeysOwned(w')
  {
  }

  // A committed call by anyone; `pid` is the process that made it, if one did.
  lemma EffectKeepsSound(w: World, pid: Pid, id: IntentId, rpc: RewardSettlement.Rpc, db': Db, procs': map<Pid, Phase>)
    requires Sound(w) && CallEffect(w.db, id, rpc, db')
    requires rpc.ConfirmPayout? ==> id in w.db.rows && Proves(w, id, w.db.rows[id], rpc.payoutHash)
    requires rpc.PreparePayout? ==> rpc.key in w.minted && w.minted[rpc.key] == id
    requires var w' := w.(db := db', procs := procs');
             (forall q :: q != pid ==> PhaseOf(w', q) == PhaseOf(w, q)) && PhaseOk(w', PhaseOf(w', pid))
    ensures Sound(w.(db := db', procs := procs'))
  {
    var w' := w.(db := db', procs := procs');
    EffectGrows(w, id, rpc, w');
    EffectKeepsProven(w, id, rpc, w');
    EffectKeepsOwned(w, id, rpc, w');
    GrowthKeepsAllPersisted(w, w');
    PhasesStayOk(w, w', pid);
  }

  lemma CommitKeepsSound(w: World, pid: Pid, id: IntentId, rpc: RewardSettlement.Rpc, then_: Phase, db': Db)
    requires Sound(w) && id in w.db.rows && CallEffect(w.db, id, rpc, db')
    requires rpc.ConfirmPayout? ==> Proves(w, id, w.db.rows[id], rpc.payoutHash)
    requires rpc.PreparePayout? ==> rpc.key in w.minted && w.minted[rpc.key] == id
    requires then_.Idle? || (then_.id == id && (then_.Reread? || (then_.ToConfirm? && Verified(w, id, w.db.rows[id], then_.evidence))))
    ensures Sound(Enter(w, pid, then_).(db := db'))
  {
    var w' := w.(db := db', procs := w.procs[pid := then_]);
    assert Later(w.db.rows[id], db'.rows[id]);
    assert PhaseOk(w', then_);
    EffectKeepsSound(w, pid, id, rpc, db', w.procs[pid := then_]);
  }

  lemma RpcCommits(w: World, pid: Pid, id: IntentId, rpc: RewardSettlement.Rpc, then_: Phase, db': Db, w': World)
    requires Safe(w) && id in w.db.rows && Call(w.db, id, rpc) == Committed(db')
    requires rpc.ConfirmPayout? ==> Proves(w, id, w.db.rows[id], rpc.payoutHash)
    requires rpc.PreparePayout? ==> rpc.key in w.minted && w.minted[rpc.key] == id
    requires then_.Idle? || (then_.id == id && (then_.Reread? || (then_.ToConfirm? && Verified(w, id, w.db.rows[id], then_.evidence))))
    requires w' == Enter(w, pid, then_).(db := db')
    ensures Safe(w')
  {
    CallHasEffect(w.db, id, rpc);
    CommitKeepsSound(w, pid, id, rpc, then_, db');
  }

  lemma RpcRejected(w: World, pid: Pid, w': World)
    requires Safe(w) && w' == Enter(w, pid, Idle)
    ensures Safe(w')
  {
    MoveKeepsSafe(w, pid, Idle);
  }

  lemma RpcKeepsSafe(w: World, pid: Pid, id: IntentId, rpc: RewardSettlement.Rpc, then_: Phase)
    requires Safe(w) && id in w.db.rows
    requires rpc.ConfirmPayout? ==> Proves(w, id, w.db.rows[id], rpc.payoutHash)
    requires rpc.PreparePayout? ==> rpc.key in w.minted && w.minted[rpc.key] == id
    requires then_.Idle? || (then_.id == id && (then_.Reread? || (then_.ToConfirm? && Verified(w, id, w.db.rows[id], then_.evidence))))
    ensures Safe(Rpc(w, pid, id, rpc, then_))
  {
    match Call(w.db, id, rpc)
    case Committed(db') => RpcCommits(w, pid, id, rpc, then_, db', Rpc(w, pid, id, rpc, then_));
    case Rejected => RpcRejected(w, pid, Rpc(w, pid, id, rpc, then_));
  }

  lemma BlockOk(w: World, section: Section, id: IntentId, row: Row, answer: Answer, w': World)
    requires PhaseOk(w, At(section, id, row)) && w'.db == w.db && w'.chain == w.chain && w'.provider == w.provider
    requires w' == ResumeStepAt(w, w'.procs, section, id, row, answer)
    ensures PhaseOk(w', Block(w, section, id, row, answer))
  {
    if row.payouts != [] && row.payouts[|row.payouts| - 1].key.Some? {
      assert row.payouts[|row.payouts| - 1].key.value in Keys(row.payouts);
    }
  }

  // A process moves without touching the database.
  lemma LocalMoveKeepsSound(w: World, pid: Pid, w': World)
    requires Sound(w) && w'.db == w.db && w'.chain == w.chain && w'.procs == w.procs[pid := PhaseOf(w', pid)] && pid in w'.procs
    requires forall key :: key in w.minted ==> key in w'.minted && w'.minted[key] == w.minted[key]
    requires forall key :: key in w.provider ==> key in w'.provider && w'.provider[key] == w.provider[key]
    requires forall key :: key in w'.provider && key !in w.provider ==> Persisted(w', key)
    requires PhaseOk(w', PhaseOf(w', pid))
    ensures Sound(w')
  {
    SameRowsKeepSound(w, w', pid);
  }

  lemma AtKeepsSound(w: World, pid: Pid, answer: Answer)
    requires Sound(w) && PhaseOf(w, pid).At?
    ensures Sound(ResumeStep(w, pid, answer)) && ResumeStep(w, pid, answer).db == w.db
  {
    var phase := PhaseOf(w, pid);
    assert PhaseOk(w, phase);
    var w' := ResumeStep(w, pid, answer);
    BlockOk(w, phase.section, phase.id, phase.row, answer, w');
    LocalMoveKeepsSound(w, pid, w');
  }

  lemma AtKeepsSafe(w: World, pid: Pid, answer: Answer)
    requires Safe(w) && PhaseOf(w, pid).At?
    ensures Safe(ResumeStep(w, pid, answer))
  {
    AtKeepsSound(w, pid, answer);
  }

  lemma SubmittedOk(w: World, pid: Pid, answer: Answer)
    requires Sound(w) && PhaseOf(w, pid).ToSubmit?
    ensures var (w', key) := (ResumeStep(w, pid, answer), PhaseOf(w, pid).key);
            && w' == w.(procs := w'.procs, provider := w'.provider) && w'.procs == w.procs[pid := PhaseOf(w', pid)]
            && PhaseOk(w', PhaseOf(w', pid)) && Persisted(w', key)
            && (w'.provider == w.provider || (key !in w.provider && answer.Assigned? && w'.provider == w.provider[key := answer.tx]))
  {
    assert PhaseOk(w, PhaseOf(w, pid));
  }

  lemma SubmitKeepsSound(w: World, pid: Pid, answer: Answer)
    requires Sound(w) && PhaseOf(w, pid).ToSubmit?
    ensures Sound(ResumeStep(w, pid, answer)) && ResumeStep(w, pid, answer).db == w.db
  {
    SubmittedOk(w, pid, answer);
    LocalMoveKeepsSound(w, pid, ResumeStep(w, pid, answer));
  }

  lemma SubmitKeepsSafe(w: World, pid: Pid, answer: Answer)
    requires Safe(w) && PhaseOf(w, pid).ToSubmit?
    ensures Safe(ResumeStep(w, pid, answer))
  {
    SubmitKeepsSound(w, pid, answer);
  }

  // What an enabled database call relies on is what the phase recorded.
  lemma CallingKeepsSafe(w: World, pid: Pid, answer: Answer)
    requires Safe(w) && PendingCall(PhaseOf(w, pid)).Some?
    ensures Safe(ResumeStep(w, pid, answer))
  {
    var phase := PhaseOf(w, pid);
    assert PhaseOk(w, phase);
    var call := PendingCall(phase);
    RpcKeepsSafe(w, pid, phase.id, call.value.0, call.value.1);
  }

  lemma FetchedOk(w: World, pid: Pid, answer: Answer)
    requires PhaseOk(w, PhaseOf(w, pid)) && (PhaseOf(w, pid).Reread? || PhaseOf(w, pid).Waiting?)
    ensures var w' := ResumeStep(w, pid, answer); w' == Enter(w, pid, PhaseOf(w', pid)) && PhaseOk(w', PhaseOf(w', pid))
  {
  }

  lemma FetchKeepsSafe(w: World, pid: Pid, answer: Answer)
    requires Safe(w) && (PhaseOf(w, pid).Reread? || PhaseOf(w, pid).Waiting?)
    ensures Safe(ResumeStep(w, pid, answer))
  {
    assert PhaseOk(w, PhaseOf(w, pid));
    FetchedOk(w, pid, answer);
    LocalMoveKeepsSound(w, pid, ResumeStep(w, pid, answer));
  }

  lemma IdleStays(w: World, pid: Pid, answer: Answer)
    requires PhaseOf(w, pid).Idle?
    ensures ResumeStep(w, pid, answer) == w
  {
  }

  lemma LocalKeepsSafe(w: World, pid: Pid, answer: Answer)
    requires Safe(w) && PendingCall(PhaseOf(w, pid)).None?
    ensures Safe(ResumeStep(w, pid, answer))
  {
    var p := PhaseOf(w, pid);
    if p.At? {
      AtKeepsSafe(w, pid, answer);
    } else if p.ToSubmit? {
      SubmitKeepsSafe(w, pid, answer);
    } else if p.Idle? {
      IdleStays(w, pid, answer);
    } else {
      FetchKeepsSafe(w, pid, answer);
    }
  }

  lemma ResumeKeepsSafe(w: World, pid: Pid, answer: Answer)
    requires Safe(w)
    ensures Safe(ResumeStep(w, pid, answer))
  {
    if PendingCall(PhaseOf(w, pid)).Some? { CallingKeepsSafe(w, pid, answer); } else { LocalKeepsSafe(w, pid, answer); }
  }

  lemma EnvironmentKeepsSound(w: World, a: Action)
    requires Sound(w) && (a.ChainApproves? || a.ChainPays? || a.Settle? || a.PoolFunded?)
    ensures Sound(Next(w, a))
  {
    var w' := Next(w, a);
    assert PhaseOk(w, PhaseOf(w, 0));
    EnvironmentGrows(w, a);
    PhaseStaysOk(w, w', PhaseOf(w, 0));
    SameRowsKeepSound(w, w', 0);
  }

  lemma EnvironmentGrows(w: World, a: Action)
    requires a.ChainApproves? || a.ChainPays? || a.Settle? || a.PoolFunded?
    ensures var w' := Next(w, a);
            w'.db.rows == w.db.rows && w'.procs == w.procs && w'.provider == w.provider && LogsGrow(w, w') && Grows(w, w')
  {
    forall id | id in w.db.rows ensures Later(w.db.rows[id], w.db.rows[id]) { SameIsLater(w.db.rows[id]); }
  }

  lemma EnvironmentKeepsSafe(w: World, a: Action)
    requires Safe(w) && (a.ChainApproves? || a.ChainPays? || a.Settle? || a.PoolFunded?)
    ensures Safe(Next(w, a))
  {
    EnvironmentKeepsSound(w, a);
    assert Next(w, a).db == w.db.(total := Next(w, a).db.total);
  }

  lemma OwnerEffectKeepsSound(w: World, id: IntentId, rpc: RewardSettlement.Rpc, db': Db)
    requires Sound(w) && CallEffect(w.db, id, rpc, db') && !rpc.ConfirmPayout? && !rpc.PreparePayout?
    ensures Sound(w.(db := db'))
  {
    var w' := w.(db := db', procs := w.procs);
    assert w.(db := db') == w' && PhaseOk(w, PhaseOf(w, 0));
    EffectGrows(w, id, rpc, w');
    PhaseStaysOk(w, w', PhaseOf(w, 0));
    EffectKeepsSound(w, 0, id, rpc, db', w.procs);
  }

  lemma OwnerCallKeepsSafe(w: World, id: IntentId, rpc: RewardSettlement.Rpc)
    requires Safe(w) && !rpc.ConfirmPayout? && !rpc.PreparePayout? && Call(w.db, id, rpc).Committed?
    ensures Safe(w.(db := Call(w.db, id, rpc).db))
  {
    CallHasEffect(w.db, id, rpc);
    OwnerEffectKeepsSound(w, id, rpc, Call(w.db, id, rpc).db);
  }

  lemma CancelMoves(w: World, pid: Pid, id: IntentId) returns (phase: Phase)
    requires PhaseOf(w, pid).Idle? && id in w.db.rows
    ensures PhaseOk(w, phase) && Next(w, Cancel(pid, id)) == Enter(w, pid, phase)
  {
    phase := if id in w.approved then ToObserveApproval(id, w.approved[id].hash) else ToCancel(id);
  }

  lemma CancelKeepsSafe(w: World, pid: Pid, id: IntentId)
    requires Safe(w)
    ensures Safe(Next(w, Cancel(pid, id)))
  {
    if PhaseOf(w, pid).Idle? && id in w.db.rows {
      var phase := CancelMoves(w, pid, id);
      MoveKeepsSafe(w, pid, phase);
    }
  }

  lemma CopyIsOk(w: World, id: IntentId)
    requires id in w.db.rows
    ensures PhaseOk(w, At(AwaitingBlock, id, w.db.rows[id]))
  {
  }

  lemma MoveKeepsSound(w: World, pid: Pid, phase: Phase)
    requires Sound(w) && PhaseOk(w, phase)
    ensures Sound(Enter(w, pid, phase))
  {
    SameRowsGrow(w, Enter(w, pid, phase));
    PhaseStaysOk(w, Enter(w, pid, phase), phase);
    SameRowsKeepSound(w, Enter(w, pid, phase), pid);
  }

  lemma MoveKeepsSafe(w: World, pid: Pid, phase: Phase)
    requires Safe(w) && PhaseOk(w, phase)
    ensures Safe(Enter(w, pid, phase))
  {
    MoveKeepsSound(w, pid, phase);
  }

  lemma StartKeepsSafe(w: World, pid: Pid, id: IntentId)
    requires Safe(w)
    ensures Safe(Next(w, Start(pid, id)))
  {
    if PhaseOf(w, pid).Idle? && id in w.db.rows {
      CopyIsOk(w, id);
      MoveKeepsSafe(w, pid, At(AwaitingBlock, id, w.db.rows[id]));
    }
  }

  lemma CrashKeepsSafe(w: World, pid: Pid)
    requires Safe(w)
    ensures Safe(Next(w, Crash(pid)))
  {
    MoveKeepsSafe(w, pid, Idle);
  }

  lemma OwnerKeepsSafe(w: World, id: IntentId, rpc: RewardSettlement.Rpc)
    requires Safe(w)
    ensures Safe(Next(w, OwnerCall(id, rpc)))
  {
    var w' := Next(w, OwnerCall(id, rpc));
    if Commits(w, OwnerCall(id, rpc)) {
      OwnerCallKeepsSafe(w, id, rpc);
    } else {
      assert w' == w;
    }
  }

  lemma NextKeepsSafe(w: World, a: Action)
    requires Safe(w)
    ensures Safe(Next(w, a))
  {
    match a
    case Start(pid, id) => StartKeepsSafe(w, pid, id);
    case Resume(pid, answer) => ResumeKeepsSafe(w, pid, answer);
    case Crash(pid) => CrashKeepsSafe(w, pid);
    case Cancel(pid, id) => CancelKeepsSafe(w, pid, id);
    case OwnerCall(id, rpc) => OwnerKeepsSafe(w, id, rpc);
    case _ => EnvironmentKeepsSafe(w, a);
  }

  /** Every interleaving of reconcilers, crashes, owner calls and chain events is safe. */
  lemma {:induction false} EveryRunIsSafe(actions: seq<Action>)
    ensures Safe(RunAll(Empty(), actions))
  {
    if actions != [] {
      EveryRunIsSafe(actions[..|actions| - 1]);
      NextKeepsSafe(RunAll(Empty(), actions[..|actions| - 1]), actions[|actions| - 1]);
    }
  }

  /** A key submitted to the provider is stored with exactly one intent, the one it was drawn for. */
  lemma SubmittedKeyHasOneOwner(actions: seq<Action>, key: Key, id: IntentId)
    requires var w := RunAll(Empty(), actions); key in w.provider && id in w.db.rows
    ensures var w := RunAll(Empty(), actions);
            key in w.minted && (key in Keys(w.db.rows[id].payouts) <==> id == w.minted[key])
  {
    EveryRunIsSafe(actions);
    assert Persisted(RunAll(Empty(), actions), key);
  }

  // ---------------------------------------------------------------- failing after attaching

  /** Whenever the provider reports the transaction of the open attempt and that attempt is then recorded
      failed, the attempt keeps the hash. */
  lemma FailingAfterAttachStrands(row: Row, tx: TxId, hash: Hash, hashes: set<Hash>)
    requires RowOk(row) && row.status == PayoutSubmitted && hash !in hashes
    requires Last(row.payouts).value.status == ProviderAccepted && Last(row.payouts).value.tx == Some(tx)
    ensures var attached := AttachRow(row, tx, hash, hashes);
            && attached.Some?
            && FailOperationRow(attached.value, true).Some?
            && FailOperationRow(attached.value, true).value.status == ReadyForPayout
            && FailedWithHash(FailOperationRow(attached.value, true).value, hash)
  {
    var last := |row.payouts| - 1;
    assert row.payouts[last].tx == Some(tx) && row.payouts[last].status == ProviderAccepted;
    var attached := AttachRow(row, tx, hash, hashes);
    assert attached.value.payouts[last].hash == Some(hash) && Active(attached.value.payouts[last]);
    var failed := FailOperationRow(attached.value, true).value;
    assert failed.payouts[last].status == Failed && failed.payouts[last].hash == Some(hash);
  }
}
