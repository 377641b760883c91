/** Any number of concurrent `reconcileFunding` calls for one funding intent, each stopped or crashed at any
    await, over the intent row with its lease, an idempotent provider and a clock. The amounts side of the
    final procedure is FundingLedger. */
module FundingReconciliation {
  import opened Options

  type Pid = nat
  type LeaseId = nat
  type Key = nat
  type TxId = nat
  type Hash = nat

  const MAX_LEASE_MS: nat := 840_000
  const ACCEPTED_LEASE_MS: nat := 900_000

  datatype Status = Open | VerifyingDestination | SyncingPool | SyncFailed | Complete | Cancelled

  datatype OpStatus = Pending | Failed | Confirmed

  datatype SyncOp = SyncOp(tx: TxId, status: OpStatus)

  datatype Lease = Lease(id: LeaseId, expires: nat)

  // `keys` lists every idempotency key the row has had; the last one is the current one.
  // `completions` is history: the sync transaction whose evidence each completion recorded, and its net.
  datatype Row = Row(status: Status, dest: Option<Hash>, gross: nat, fee: nat, preTotal: nat, expires: nat,
                     lease: Option<Lease>, keys: seq<Key>, tx: Option<TxId>, ops: seq<SyncOp>, completions: seq<(TxId, nat)>)

  datatype Config = Config(pollTimeout: nat, requestTimeout: nat)

  // What finally became of a provider transaction.
  datatype Outcome = ProviderFailed | Mined(reverted: bool)

  datatype Phase =
    | Idle
    | Claiming(staleStatus: Status, dest: Hash)
    | Verifying(lease: LeaseId, staleStatus: Status, dest: Hash)
    | Marking(lease: LeaseId, dest: Hash, net: nat)
    | Rereading(lease: LeaseId, dest: Hash, net: nat, marked: bool)
    | Submitting(lease: LeaseId, dest: Hash, net: nat, marked: bool, key: Key)
    | Storing(lease: LeaseId, dest: Hash, net: nat, marked: bool, key: Key, tx: TxId)
    | CheckingStored(lease: LeaseId, dest: Hash, net: nat, tx: TxId)
    | Waiting(lease: LeaseId, dest: Hash, net: nat, tx: TxId)
    | VerifyingSync(lease: LeaseId, dest: Hash, net: nat, tx: TxId)
    | FailingSync(lease: LeaseId, tx: TxId)
    | Completing(lease: LeaseId, dest: Hash, net: nat, tx: TxId, postTotal: nat)
    | RevertingDestination(lease: LeaseId, dest: Hash)

  datatype Answer =
    | Proceed
    | Throws
    | FreshLease(lease: LeaseId)
    | Received(net: nat)
    | Assigned(tx: TxId)
    | Synced(postTotal: nat)
    | FreshKey(key: Key)
    | LedgerSays(accepts: bool, syncIsNew: bool)

  // `reverted` holds the destination transactions the chain reverted; `outcomes` what became of a sync
  // transaction; `leases` which process drew each lease id.
  datatype World = World(config: Config, now: nat, row: Row, reverted: set<Hash>, provider: map<Key, TxId>,
                         outcomes: map<TxId, Outcome>, leases: map<LeaseId, Pid>, procs: map<Pid, Phase>)

  datatype Action =
    | Tick(ms: nat)
    | Start(pid: Pid)
    | Resume(pid: Pid, answer: Answer)
    | Crash(pid: Pid)
    | Settle(tx: TxId, outcome: Outcome)
    | AttachDestination(hash: Hash, keepStatus: bool)

  // ---------------------------------------------------------------- the row procedures

  datatype Reply = Rejected | Answered(row: Row, ok: bool)

  predicate Holds(row: Row, lease: LeaseId) {
    row.lease.Some? && row.lease.value.id == lease
  }

  predicate HoldsValid(row: Row, lease: LeaseId, now: nat) {
    Holds(row, lease) && row.lease.value.expires > now
  }

  function Claim(row: Row, now: nat, lease: LeaseId, expires: nat): Reply {
    if row.status.Complete? || row.status.Cancelled? then Answered(row, false)
    else if row.expires <= now && row.dest.None? then Answered(row.(status := Cancelled), false)
    else if expires <= now || expires > now + ACCEPTED_LEASE_MS then Rejected
    else if row.lease.Some? && row.lease.value.expires > now && row.lease.value.id != lease then Answered(row, false)
    else Answered(row.(status := VerifyingDestination, lease := Some(Lease(lease, expires))), true)
  }

  // A plain conditional update: it looks at the lease id but not at its expiry.
  function MarkSyncing(row: Row, lease: LeaseId): Reply {
    if Holds(row, lease) && row.status.VerifyingDestination? then Answered(row.(status := SyncingPool), true)
    else Answered(row, false)
  }

  function StoreSync(row: Row, now: nat, lease: LeaseId, tx: TxId): Reply {
    if !HoldsValid(row, lease, now) || !row.status.SyncingPool? then Rejected
    else if row.tx.Some? then Answered(row, row.tx.value == tx)
    else if row.ops != [] && !row.ops[|row.ops| - 1].status.Failed? then Rejected
    else if exists i :: 0 <= i < |row.ops| && row.ops[i].tx == tx then Rejected
    else Answered(row.(tx := Some(tx), ops := row.ops + [SyncOp(tx, Pending)]), true)
  }

  predicate HasPending(row: Row, tx: TxId) {
    exists i :: 0 <= i < |row.ops| && row.ops[i] == SyncOp(tx, Pending)
  }

  function Close(ops: seq<SyncOp>, tx: TxId, status: OpStatus): (r: seq<SyncOp>)
    ensures |r| == |ops| && forall i :: 0 <= i < |ops| ==> r[i] == if ops[i] == SyncOp(tx, Pending) then SyncOp(tx, status) else ops[i]
  {
    if ops == [] then []
    else
      Close(ops[..|ops| - 1], tx, status)
      + [if ops[|ops| - 1] == SyncOp(tx, Pending) then SyncOp(tx, status) else ops[|ops| - 1]]
  }

  function FailSync(row: Row, now: nat, lease: LeaseId, tx: TxId, freshKey: Key): Reply {
    if !HoldsValid(row, lease, now) || row.tx != Some(tx) then Answered(row, false)
    else if !HasPending(row, tx) then Rejected
    else Answered(row.(ops := Close(row.ops, tx, Failed), status := SyncFailed, tx := None, keys := row.keys + [freshKey], lease := None), true)
  }

  // The caller's lease is no argument here: whoever found the destination reverted clears the lease.
  function FailDestination(row: Row, hash: Hash): Reply {
    if row.dest != Some(hash) then Rejected
    else Answered(row.(dest := None, status := Open, lease := None), true)
  }

  // The row side of reconcile_funding_intent_atomic; `ledgerAccepts` and `syncIsNew` answer for its ledger side.
  // `syncTx` is the transaction whose hash the caller passes.
  function CompleteIntent(row: Row, now: nat, lease: LeaseId, dest: Hash, net: nat, syncTx: TxId, postTotal: nat,
                          ledgerAccepts: bool, syncIsNew: bool): Reply {
    if row.status.Complete? then Answered(row, false)
    else if !HoldsValid(row, lease, now) || row.dest != Some(dest) then Rejected
    else if net == 0 || net > row.gross || postTotal < row.preTotal + net || !ledgerAccepts then Rejected
    else if !syncIsNew then Answered(row, false)
    else
      Answered(row.(ops := if row.tx.Some? then Close(row.ops, row.tx.value, Confirmed) else row.ops, status := Complete, lease := None,
                    completions := row.completions + [(syncTx, net)]), true)
  }

  // ---------------------------------------------------------------- the driver

  function LeaseMs(c: Config): nat {
    var wanted := c.pollTimeout + c.requestTimeout * 2 + 60_000;
    if MAX_LEASE_MS < wanted then MAX_LEASE_MS else wanted
  }

  function PhaseOf(w: World, pid: Pid): Phase {
    if pid in w.procs then w.procs[pid] else Idle
  }

  function Enter(w: World, pid: Pid, phase: Phase): World {
    w.(procs := w.procs[pid := phase])
  }

  // A rejected call and a reply of false both end here unless the code says otherwise.
  function After(w: World, pid: Pid, reply: Reply, yes: Phase, no: Phase): World {
    match reply
    case Rejected => Enter(w, pid, Idle)
    case Answered(row, ok) => Enter(w, pid, if ok then yes else no).(row := row)
  }

  predicate InBounds(row: Row, net: nat) {
    net <= row.gross && net >= if row.gross > row.fee then row.gross - row.fee else 0
  }

  function ClaimStep(w: World, pid: Pid, p: Phase, answer: Answer): World
    requires p.Claiming?
  {
    if !answer.FreshLease? || answer.lease in w.leases then Enter(w, pid, Idle)
    else
      After(w.(leases := w.leases[answer.lease := pid]), pid,
            Claim(w.row, w.now, answer.lease, w.now + LeaseMs(w.config)),
            Verifying(answer.lease, p.staleStatus, p.dest), Idle)
  }

  function VerifyStep(w: World, p: Phase, answer: Answer): Phase
    requires p.Verifying?
  {
    if p.dest in w.reverted then (if answer.Throws? then Idle else RevertingDestination(p.lease, p.dest))
    else if !answer.Received? || !InBounds(w.row, answer.net) then Idle
    else if p.staleStatus.SyncingPool? then Rereading(p.lease, p.dest, answer.net, false)
    else Marking(p.lease, p.dest, answer.net)
  }

  function RereadStep(w: World, p: Phase): Phase
    requires p.Rereading?
  {
    if w.row.tx.Some? then Waiting(p.lease, p.dest, p.net, w.row.tx.value)
    else if w.row.keys == [] then Idle
    else Submitting(p.lease, p.dest, p.net, p.marked, w.row.keys[|w.row.keys| - 1])
  }

  function SubmitStep(w: World, pid: Pid, p: Phase, answer: Answer): World
    requires p.Submitting?
  {
    if p.key in w.provider then Enter(w, pid, Storing(p.lease, p.dest, p.net, p.marked, p.key, w.provider[p.key]))
    else if answer.Assigned? && answer.tx !in w.provider.Values
    then Enter(w, pid, Storing(p.lease, p.dest, p.net, p.marked, p.key, answer.tx)).(provider := w.provider[p.key := answer.tx])
    else Enter(w, pid, Idle)
  }

  function WaitStep(w: World, p: Phase): Phase
    requires p.Waiting?
  {
    if p.tx !in w.outcomes then Idle
    else if w.outcomes[p.tx].ProviderFailed? then FailingSync(p.lease, p.tx)
    else VerifyingSync(p.lease, p.dest, p.net, p.tx)
  }

  // A reverted sync is recorded as failed; otherwise the on-chain total must have grown by the net.
  function VerifySyncStep(w: World, p: Phase, answer: Answer): Phase
    requires p.VerifyingSync?
  {
    if answer.Throws? || p.tx !in w.outcomes then Idle
    else if w.outcomes[p.tx] == Mined(true) then FailingSync(p.lease, p.tx)
    else if w.outcomes[p.tx] == Mined(false) && answer.Synced? && answer.postTotal >= w.row.preTotal + p.net
    then Completing(p.lease, p.dest, p.net, p.tx, answer.postTotal)
    else Idle
  }

  function ResumeStep(w: World, pid: Pid, answer: Answer): World {
    var p := PhaseOf(w, pid);
    match p
    case Idle => w
    case Claiming(_, _) => ClaimStep(w, pid, p, answer)
    case Verifying(_, _, _) => Enter(w, pid, VerifyStep(w, p, answer))
    case Marking(lease, dest, net) => After(w, pid, MarkSyncing(w.row, lease), Rereading(lease, dest, net, true), Idle)
    case Rereading(_, _, _, _) => Enter(w, pid, RereadStep(w, p))
    case Submitting(_, _, _, _, _) => SubmitStep(w, pid, p, answer)
    case Storing(lease, dest, net, marked, key, tx) =>
      After(w, pid, StoreSync(w.row, w.now, lease, tx), Waiting(lease, dest, net, tx), CheckingStored(lease, dest, net, tx))
    case CheckingStored(lease, dest, net, tx) =>
      Enter(w, pid, if w.row.tx == Some(tx) then Waiting(lease, dest, net, tx) else Idle)
    case Waiting(_, _, _, _) => Enter(w, pid, WaitStep(w, p))
    case VerifyingSync(_, _, _, _) => Enter(w, pid, VerifySyncStep(w, p, answer))
    case FailingSync(lease, tx) =>
      if answer.FreshKey? && answer.key !in w.row.keys && answer.key !in w.provider
      then After(w, pid, FailSync(w.row, w.now, lease, tx, answer.key), Idle, Idle) else Enter(w, pid, Idle)
    case Completing(lease, dest, net, tx, postTotal) =>
      if answer.LedgerSays?
      then After(w, pid, CompleteIntent(w.row, w.now, lease, dest, net, tx, postTotal, answer.accepts, answer.syncIsNew), Idle, Idle)
      else Enter(w, pid, Idle)
    case RevertingDestination(_, dest) => After(w, pid, FailDestination(w.row, dest), Idle, Idle)
  }

  function Next(w: World, a: Action): World {
    match a
    case Tick(ms) => w.(now := w.now + ms)
    case Start(pid) =>
      if !PhaseOf(w, pid).Idle? || w.row.status.Complete? || w.row.dest.None? then w
      else Enter(w, pid, Claiming(w.row.status, w.row.dest.value))
    case Resume(pid, answer) => ResumeStep(w, pid, answer)
    case Crash(pid) => Enter(w, pid, Idle)
    case Settle(tx, outcome) => if tx in w.outcomes then w else w.(outcomes := w.outcomes[tx := outcome])
    case AttachDestination(hash, keepStatus) =>
      if w.row.dest.Some? || w.row.status.Complete? || w.row.status.Cancelled? then w
      else w.(row := w.row.(dest := Some(hash), status := if keepStatus then w.row.status else Open))
  }

  // What a run starts from: the settings, the intent's terms and first key, and what the chain will revert.
  datatype Terms = Terms(config: Config, gross: nat, fee: nat, preTotal: nat, expires: nat, key: Key, reverted: set<Hash>)

  function StartWorld(t: Terms): World {
    World(t.config, 0, Row(Open, None, t.gross, t.fee, t.preTotal, t.expires, None, [t.key], None, [], []), t.reverted,
          map[], map[], map[], map[])
  }

  function RunAll(t: Terms, actions: seq<Action>): World {
    if actions == [] then StartWorld(t) else Next(RunAll(t, actions[..|actions| - 1]), actions[|actions| - 1])
  }
}
