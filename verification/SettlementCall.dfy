/** What one whole `reconcile` call achieves when nobody disturbs it: from every payable intent, exactly when it
    ends with the payout settled, and from every approval it finds on chain, that it confirms it first. */
module SettlementCall {
  import opened Iteration
  import opened Options
  import opened RewardSettlement
  import opened SettlementDrivers
  import opened SettlementRuns
  import Recovery = SettlementRecovery

  // What the outside world gives the call: the key it may draw, the transaction the provider assigns, and the
  // payout the chain makes when that transaction is sent.
  datatype Given = Given(key: Key, tx: TxId, payout: ChainPayout)

  // The adapter looks for the events on chain.
  function SearchApproval(w: World, id: IntentId): Answer {
    if id in w.approved then FoundApproval(w.approved[id].hash, w.approved[id].place) else Nothing
  }

  function SearchPayout(w: World, id: IntentId): Answer {
    if id in w.chain then FoundPayout(w.chain[id].evidence) else Nothing
  }

  function AnswerTo(w: World, p: Phase, g: Given): Answer {
    match p
    case At(section, id, _) =>
      (match section
       case AwaitingBlock => SearchApproval(w, id)
       case ApprovalBlock => SearchApproval(w, id)
       case ExternalAfterApproval => SearchPayout(w, id)
       case ExternalBlock => SearchPayout(w, id)
       case PrepareBlock => Uuid(g.key)
       case VerifyBlock => SearchPayout(w, id)
       case _ => Nothing)
    case ToSubmit(_, _) => Assigned(g.tx)
    case Waiting(_, _, _) => Polled
    case _ => Nothing
  }

  // The provider sends the transaction while the call waits for it, and the chain includes it before it is verified.
  function Outside(w: World, p: Phase, g: Given): World {
    if p.Waiting? then Next(w, Settle(p.tx, Sent(g.payout.evidence.hash, false)))
    else if p.At? && p.section.VerifyBlock? then Next(w, ChainPays(p.id, g.payout))
    else w
  }

  function Turn(w: World, pid: Pid, g: Given): World {
    var w1 := Outside(w, PhaseOf(w, pid), g);
    Next(w1, Resume(pid, AnswerTo(w1, PhaseOf(w, pid), g)))
  }

  function TurnOf(pid: Pid, g: Given): World -> World {
    w => Turn(w, pid, g)
  }

  function Turns(w: World, pid: Pid, g: Given, n: nat): World {
    Iterate(TurnOf(pid, g), w, n)
  }

  const AWAITS: nat := 24

  function WholeCall(w: World, pid: Pid, id: IntentId, g: Given): World {
    Turns(Next(w, Start(pid, id)), pid, g, AWAITS)
  }

  // ---------------------------------------------------------------- turns

  lemma TurnIsARun(w: World, pid: Pid, g: Given) returns (more: seq<Action>)
    ensures RunAll(w, more) == Turn(w, pid, g)
  {
    var p := PhaseOf(w, pid);
    more := Begin(w);
    if p.Waiting? {
      Push(w, more, w, Settle(p.tx, Sent(g.payout.evidence.hash, false)));
      more := more + [Settle(p.tx, Sent(g.payout.evidence.hash, false))];
    } else if p.At? && p.section.VerifyBlock? {
      Push(w, more, w, ChainPays(p.id, g.payout));
      more := more + [ChainPays(p.id, g.payout)];
    }
    var w1 := Outside(w, p, g);
    Push(w, more, w1, Resume(pid, AnswerTo(w1, p, g)));
    more := more + [Resume(pid, AnswerTo(w1, p, g))];
  }

  lemma {:induction false} TurnsAreARun(w: World, pid: Pid, g: Given, step: World -> World, n: nat) returns (more: seq<Action>)
    requires step == TurnOf(pid, g)
    ensures RunAll(w, more) == Iterate(step, w, n)
    decreases n
  {
    if n == 0 {
      more := Begin(w);
    } else {
      var first := TurnIsARun(w, pid, g);
      var rest := TurnsAreARun(step(w), pid, g, step, n - 1);
      RunThen(w, first, rest);
      more := first + rest;
    }
  }

  /** Such a call is one of the runs all other results are about. */
  lemma WholeCallIsARun(w: World, pid: Pid, id: IntentId, g: Given) returns (more: seq<Action>)
    ensures RunAll(w, more) == WholeCall(w, pid, id, g)
  {
    var a := Begin(w);
    Push(w, a, w, Start(pid, id));
    var b := TurnsAreARun(Next(w, Start(pid, id)), pid, g, TurnOf(pid, g), AWAITS);
    RunThen(w, a + [Start(pid, id)], b);
    more := a + [Start(pid, id)] + b;
  }

  lemma TurnKeepsSafe(w: World, pid: Pid, g: Given)
    requires Safe(w)
    ensures Safe(Turn(w, pid, g))
  {
    var w1 := Outside(w, PhaseOf(w, pid), g);
    OutsideKeepsSafe(w, PhaseOf(w, pid), g);
    NextKeepsSafe(w1, Resume(pid, AnswerTo(w1, PhaseOf(w, pid), g)));
  }

  lemma OutsideKeepsSafe(w: World, p: Phase, g: Given)
    requires Safe(w)
    ensures Safe(Outside(w, p, g))
  {
    if p.Waiting? {
      NextKeepsSafe(w, Settle(p.tx, Sent(g.payout.evidence.hash, false)));
    } else if p.At? && p.section.VerifyBlock? {
      NextKeepsSafe(w, ChainPays(p.id, g.payout));
    }
  }

  ghost predicate AtRest(w: World, pid: Pid, id: IntentId, pays: bool, hash: Hash) {
    && PhaseOf(w, pid).Idle? && id in w.db.rows && (w.db.rows[id].status == PaidOut <==> pays)
    && (pays ==> Last(w.db.rows[id].payouts).Some? && Last(w.db.rows[id].payouts).value.hash == Some(hash))
  }

  ghost predicate IsTurn(trace: seq<World>, i: nat, pid: Pid, g: Given)
    requires i + 1 < |trace|
  {
    trace[i + 1] == Turn(trace[i], pid, g)
  }

  ghost predicate IsTrace(trace: seq<World>, w: World, pid: Pid, g: Given, id: IntentId, k: nat, pays: bool, hash: Hash) {
    && |trace| == k + 1 && trace[0] == w && (forall i :: 0 <= i < k ==> IsTurn(trace, i, pid, g)) && AtRest(trace[k], pid, id, pays, hash)
  }

  // The call comes to rest after `k` more awaits; by then this payout is settled, or it is not.
  ghost predicate Ends(w: World, pid: Pid, g: Given, id: IntentId, k: nat, pays: bool, hash: Hash) {
    exists trace :: IsTrace(trace, w, pid, g, id, k, pays, hash)
  }

  ghost predicate Follows(trace: seq<World>, step: World -> World) {
    forall i :: 0 <= i < |trace| - 1 ==> trace[i + 1] == step(trace[i])
  }

  lemma {:induction false} FollowsIterates(trace: seq<World>, step: World -> World, k: nat)
    requires |trace| == k + 1 && Follows(trace, step)
    ensures Iterate(step, trace[0], k) == trace[k]
    decreases k
  {
    if k > 0 { FollowsIterates(trace[1..], step, k - 1); }
  }

  lemma TraceFollows(trace: seq<World>, pid: Pid, g: Given)
    requires forall i :: 0 <= i < |trace| - 1 ==> IsTurn(trace, i, pid, g)
    ensures Follows(trace, TurnOf(pid, g))
  {
    forall i | 0 <= i < |trace| - 1 ensures trace[i + 1] == TurnOf(pid, g)(trace[i]) { assert IsTurn(trace, i, pid, g); }
  }

  lemma IdleTurn(w: World, pid: Pid, g: Given)
    requires PhaseOf(w, pid).Idle?
    ensures TurnOf(pid, g)(w) == w
  {
  }

  lemma RestEnds(w: World, pid: Pid, g: Given, id: IntentId, k: nat, n: nat, pays: bool, hash: Hash)
    requires Ends(w, pid, g, id, k, pays, hash) && k <= n
    ensures AtRest(Turns(w, pid, g, n), pid, id, pays, hash)
  {
    var trace :| IsTrace(trace, w, pid, g, id, k, pays, hash);
    var step := TurnOf(pid, g);
    TraceFollows(trace, pid, g);
    FollowsIterates(trace, step, k);
    IterateAdd(step, w, k, n - k);
    IdleTurn(trace[k], pid, g);
    IterateRests(step, trace[k], n - k);
  }

  lemma LongerTrace(w: World, rest: seq<World>, pid: Pid, g: Given, w': World, id: IntentId, k: nat, pays: bool, hash: Hash)
    requires IsTrace(rest, w', pid, g, id, k, pays, hash) && IsTurn([w] + rest, 0, pid, g)
    ensures IsTrace([w] + rest, w, pid, g, id, k + 1, pays, hash)
  {
    var trace := [w] + rest;
    forall i | 0 <= i < k + 1 ensures IsTurn(trace, i, pid, g) {
      if i > 0 { TurnIsLater(w, rest, i, pid, g); }
    }
    assert trace[k + 1] == rest[k];
  }

  lemma TurnIsLater(w: World, rest: seq<World>, i: nat, pid: Pid, g: Given)
    requires 0 < i < |rest| && IsTurn(rest, i - 1, pid, g)
    ensures IsTurn([w] + rest, i, pid, g)
  {
    LaterTurn(w, rest, i - 1, pid, g);
  }

  lemma LaterTurn(w: World, rest: seq<World>, i: nat, pid: Pid, g: Given)
    requires i + 1 < |rest| && IsTurn(rest, i, pid, g)
    ensures IsTurn([w] + rest, i + 1, pid, g)
  {
  }

  lemma OneTurn(w: World, pid: Pid, g: Given, w': World, id: IntentId, k: nat, pays: bool, hash: Hash)
    requires Turn(w, pid, g) == w' && Ends(w', pid, g, id, k, pays, hash)
    ensures Ends(w, pid, g, id, k + 1, pays, hash)
  {
    var rest :| IsTrace(rest, w', pid, g, id, k, pays, hash);
    LongerTrace(w, rest, pid, g, w', id, k, pays, hash);
  }

  lemma RestsNow(w: World, pid: Pid, g: Given, id: IntentId, pays: bool, hash: Hash)
    requires AtRest(w, pid, id, pays, hash)
    ensures Ends(w, pid, g, id, 0, pays, hash)
  {
    assert IsTrace([w], w, pid, g, id, 0, pays, hash);
  }

  lemma IdleEnds(w: World, pid: Pid, g: Given, id: IntentId, hash: Hash)
    requires id in w.db.rows && w.db.rows[id].status != PaidOut
    ensures Ends(Enter(w, pid, Idle), pid, g, id, 0, false, hash)
  {
    RestsNow(Enter(w, pid, Idle), pid, g, id, false, hash);
  }

  // ---------------------------------------------------------------- one turn, by phase

  lemma BlockTurn(w: World, pid: Pid, g: Given, section: Section, id: IntentId, row: Row, q: Phase)
    requires !section.VerifyBlock? && q == Block(w, section, id, row, AnswerTo(w, At(section, id, row), g)) && !q.ToPrepare?
    ensures Turn(Enter(w, pid, At(section, id, row)), pid, g) == Enter(w, pid, q)
  {
    EnterTwice(w, pid, At(section, id, row), q);
    BlockStep(w, pid, section, id, row, AnswerTo(w, At(section, id, row), g), q);
  }

  lemma RereadTurn(w: World, pid: Pid, g: Given, section: Section, id: IntentId)
    requires id in w.db.rows
    ensures Turn(Enter(w, pid, Reread(section, id)), pid, g) == Enter(w, pid, At(section, id, w.db.rows[id]))
  {
    EnterTwice(w, pid, Reread(section, id), Idle);
    RereadStep(w, pid, section, id, Nothing);
  }

  lemma CallTurn(w: World, pid: Pid, g: Given, p: Phase)
    requires PendingCall(p).Some? && !p.Idle?
    ensures var (rpc, after) := PendingCall(p).value;
            var r := Call(w.db, p.id, rpc);
            Turn(Enter(w, pid, p), pid, g) == if r.Committed? then Enter(w.(db := r.db), pid, after) else Enter(w, pid, Idle)
  {
    EnterTwice(w, pid, p, Idle);
    CallStep(w, pid, p, Nothing);
  }

  lemma DrawTurn(w: World, pid: Pid, g: Given, id: IntentId, row: Row)
    requires row.status == ReadyForPayout && (row.payouts == [] || row.payouts[|row.payouts| - 1].status == Failed) && g.key !in w.minted
    ensures Turn(Enter(w, pid, At(PrepareBlock, id, row)), pid, g) == Enter(w.(minted := w.minted[g.key := id]), pid, ToPrepare(id, g.key))
  {
    EnterTwice(w, pid, At(PrepareBlock, id, row), Idle);
    DrawStep(w, pid, id, row, g.key);
  }

  // A committed call of the process, and then the rest.
  lemma CallEnds(w: World, pid: Pid, g: Given, p: Phase, id: IntentId, db': Db, k: nat, pays: bool, hash: Hash)
    requires PendingCall(p).Some? && !p.Idle? && Call(w.db, p.id, PendingCall(p).value.0) == Committed(db')
    requires Ends(Enter(w.(db := db'), pid, PendingCall(p).value.1), pid, g, id, k, pays, hash)
    ensures Ends(Enter(w, pid, p), pid, g, id, k + 1, pays, hash)
  {
    CallTurn(w, pid, g, p);
    OneTurn(Enter(w, pid, p), pid, g, Enter(w.(db := db'), pid, PendingCall(p).value.1), id, k, pays, hash);
  }

  // A rejected one, and nothing more.
  lemma RejectionEnds(w: World, pid: Pid, g: Given, p: Phase, id: IntentId, hash: Hash)
    requires PendingCall(p).Some? && !p.Idle? && Call(w.db, p.id, PendingCall(p).value.0).Rejected?
    requires id in w.db.rows && w.db.rows[id].status != PaidOut
    ensures Ends(Enter(w, pid, p), pid, g, id, 1, false, hash)
  {
    CallTurn(w, pid, g, p);
    IdleEnds(w, pid, g, id, hash);
    OneTurn(Enter(w, pid, p), pid, g, Enter(w, pid, Idle), id, 0, false, hash);
  }

  lemma BlockEnds(w: World, pid: Pid, g: Given, section: Section, id: IntentId, row: Row, q: Phase, k: nat, pays: bool, hash: Hash)
    requires !section.VerifyBlock? && q == Block(w, section, id, row, AnswerTo(w, At(section, id, row), g)) && !q.ToPrepare?
    requires Ends(Enter(w, pid, q), pid, g, id, k, pays, hash)
    ensures Ends(Enter(w, pid, At(section, id, row)), pid, g, id, k + 1, pays, hash)
  {
    BlockTurn(w, pid, g, section, id, row, q);
    OneTurn(Enter(w, pid, At(section, id, row)), pid, g, Enter(w, pid, q), id, k, pays, hash);
  }

  lemma RereadEnds(w: World, pid: Pid, g: Given, section: Section, id: IntentId, k: nat, pays: bool, hash: Hash)
    requires id in w.db.rows && Ends(Enter(w, pid, At(section, id, w.db.rows[id])), pid, g, id, k, pays, hash)
    ensures Ends(Enter(w, pid, Reread(section, id)), pid, g, id, k + 1, pays, hash)
  {
    RereadTurn(w, pid, g, section, id);
    OneTurn(Enter(w, pid, Reread(section, id)), pid, g, Enter(w, pid, At(section, id, w.db.rows[id])), id, k, pays, hash);
  }

  // ---------------------------------------------------------------- verifying and confirming the relayed payout

  // The newest attempt is on chain under this hash.
  predicate IsSubmitted(row: Row, hash: Hash) {
    row.status == PayoutSubmitted && Last(row.payouts).Some?
    && Last(row.payouts).value.status == Submitted && Last(row.payouts).value.hash == Some(hash)
  }

  // The counters are consistent, match the pools, and the event is the intent's own.
  predicate Settleable(db: Db, row: Row, c: ChainPayout) {
    && c.recipient == row.recipient && c.amount == row.amount
    && SnapshotValid(c.evidence.accounting) && MatchesProjection(db, row.amount, c.evidence.accounting)
  }

  lemma SubmittedConfirms(row: Row, hash: Hash, place: nat)
    requires RowOk(row) && IsSubmitted(row, hash)
    ensures var r := ConfirmPayoutRow(row, hash, place);
            r.Some? && r.value.status == PaidOut && Last(r.value.payouts).Some? && Last(r.value.payouts).value.hash == Some(hash)
  {
    var ops := row.payouts;
    assert LastWhere(ops, (op: Op) => op.hash == Some(hash) && op.status == Submitted) == Some(|ops| - 1);
  }

  lemma ConfirmedRests(w: World, pid: Pid, id: IntentId, e: Evidence)
    requires id in w.db.rows && RowOk(w.db.rows[id]) && IsSubmitted(w.db.rows[id], e.hash)
    requires Call(w.db, id, ConfirmPayout(e.hash, e.place, e.accounting)).Committed?
    ensures AtRest(Enter(w.(db := Call(w.db, id, ConfirmPayout(e.hash, e.place, e.accounting)).db), pid, Idle), pid, id, true, e.hash)
  {
    SubmittedConfirms(w.db.rows[id], e.hash, e.place);
  }

  lemma ConfirmEnds(w: World, pid: Pid, g: Given, id: IntentId, e: Evidence)
    requires id in w.db.rows && RowOk(w.db.rows[id]) && IsSubmitted(w.db.rows[id], e.hash) && SnapshotValid(e.accounting)
    ensures Ends(Enter(w, pid, ToConfirm(id, e)), pid, g, id, 1, MatchesProjection(w.db, w.db.rows[id].amount, e.accounting), e.hash)
  {
    SubmittedConfirms(w.db.rows[id], e.hash, e.place);
    ConfirmCommitsIff(w.db, id, e.hash, e.place, e.accounting);
    var r := Call(w.db, id, ConfirmPayout(e.hash, e.place, e.accounting));
    if r.Committed? {
      ConfirmedRests(w, pid, id, e);
      RestsNow(Enter(w.(db := r.db), pid, Idle), pid, g, id, true, e.hash);
      CallEnds(w, pid, g, ToConfirm(id, e), id, r.db, 0, true, e.hash);
    } else {
      RejectionEnds(w, pid, g, ToConfirm(id, e), id, e.hash);
    }
  }

  lemma VerifyTurn(w: World, pid: Pid, g: Given, id: IntentId, row: Row)
    ensures var w1 := Next(w, ChainPays(id, g.payout));
            Turn(Enter(w, pid, At(VerifyBlock, id, row)), pid, g) == Enter(w1, pid, Block(w1, VerifyBlock, id, row, SearchPayout(w1, id)))
  {
    var p := At(VerifyBlock, id, row);
    var w1 := Next(w, ChainPays(id, g.payout));
    EnterTwice(w, pid, p, Idle);
    assert Next(Enter(w, pid, p), ChainPays(id, g.payout)) == Enter(w1, pid, p);
    BlockStep(w1, pid, VerifyBlock, id, row, SearchPayout(w1, id), Block(w1, VerifyBlock, id, row, SearchPayout(w1, id)));
  }

  // The payout the chain shows when the call comes to verify.
  function Shown(w: World, id: IntentId, g: Given): ChainPayout {
    if id in w.chain then w.chain[id] else g.payout
  }

  lemma VerifiedTurn(w: World, w1: World, pid: Pid, g: Given, id: IntentId, row: Row, e: Evidence)
    requires w1 == Next(w, ChainPays(id, g.payout)) && IsSubmitted(row, e.hash)
    requires id in w1.chain && w1.chain[id].evidence == e && Verified(w1, id, row, e)
    ensures Turn(Enter(w, pid, At(VerifyBlock, id, row)), pid, g) == Enter(w1, pid, ToConfirm(id, e))
  {
    VerifyTurn(w, pid, g, id, row);
  }

  lemma UnverifiedTurn(w: World, w1: World, pid: Pid, g: Given, id: IntentId, row: Row, hash: Hash)
    requires w1 == Next(w, ChainPays(id, g.payout)) && IsSubmitted(row, hash) && id in w1.chain
    requires w1.chain[id].evidence.hash != hash || !Verified(w1, id, row, w1.chain[id].evidence)
    ensures Turn(Enter(w, pid, At(VerifyBlock, id, row)), pid, g) == Enter(w1, pid, Idle)
  {
    VerifyTurn(w, pid, g, id, row);
  }

  lemma VerifiedGoesOn(w: World, w1: World, pid: Pid, g: Given, id: IntentId, row: Row, e: Evidence, k: nat, pays: bool, shown: Hash)
    requires w1 == Next(w, ChainPays(id, g.payout)) && IsSubmitted(row, e.hash)
    requires id in w1.chain && w1.chain[id].evidence == e && Verified(w1, id, row, e)
    requires Ends(Enter(w1, pid, ToConfirm(id, e)), pid, g, id, k, pays, shown)
    ensures Ends(Enter(w, pid, At(VerifyBlock, id, row)), pid, g, id, k + 1, pays, shown)
  {
    VerifiedTurn(w, w1, pid, g, id, row, e);
    OneTurn(Enter(w, pid, At(VerifyBlock, id, row)), pid, g, Enter(w1, pid, ToConfirm(id, e)), id, k, pays, shown);
  }

  lemma UnverifiedStops(w: World, w1: World, pid: Pid, g: Given, id: IntentId, row: Row, hash: Hash, shown: Hash)
    requires w1 == Next(w, ChainPays(id, g.payout)) && IsSubmitted(row, hash) && id in w1.chain
    requires w1.chain[id].evidence.hash != hash || !Verified(w1, id, row, w1.chain[id].evidence)
    requires Ends(Enter(w1, pid, Idle), pid, g, id, 0, false, shown)
    ensures Ends(Enter(w, pid, At(VerifyBlock, id, row)), pid, g, id, 1, false, shown)
  {
    UnverifiedTurn(w, w1, pid, g, id, row, hash);
    OneTurn(Enter(w, pid, At(VerifyBlock, id, row)), pid, g, Enter(w1, pid, Idle), id, 0, false, shown);
  }

  lemma VerifiedEnds(w: World, w1: World, pid: Pid, g: Given, id: IntentId, e: Evidence, pays: bool)
    requires w1 == Next(w, ChainPays(id, g.payout)) && w1.db == w.db
    requires id in w.db.rows && RowOk(w.db.rows[id]) && IsSubmitted(w.db.rows[id], e.hash)
    requires id in w1.chain && w1.chain[id].evidence == e && Verified(w1, id, w.db.rows[id], e)
    requires pays <==> MatchesProjection(w.db, w.db.rows[id].amount, e.accounting)
    ensures Ends(Enter(w, pid, At(VerifyBlock, id, w.db.rows[id])), pid, g, id, 2, pays, e.hash)
  {
    ConfirmEnds(w1, pid, g, id, e);
    VerifiedGoesOn(w, w1, pid, g, id, w.db.rows[id], e, 1, pays, e.hash);
  }

  lemma UnverifiedEnds(w: World, w1: World, pid: Pid, g: Given, id: IntentId, hash: Hash)
    requires w1 == Next(w, ChainPays(id, g.payout)) && w1.db == w.db
    requires id in w.db.rows && IsSubmitted(w.db.rows[id], hash) && id in w1.chain
    requires w1.chain[id].evidence.hash != hash || !Verified(w1, id, w.db.rows[id], w1.chain[id].evidence)
    ensures Ends(Enter(w, pid, At(VerifyBlock, id, w.db.rows[id])), pid, g, id, 1, false, w1.chain[id].evidence.hash)
  {
    IdleEnds(w1, pid, g, id, w1.chain[id].evidence.hash);
    UnverifiedStops(w, w1, pid, g, id, w.db.rows[id], hash, w1.chain[id].evidence.hash);
  }

  lemma PaysMeansVerified(w: World, w1: World, id: IntentId, g: Given, row: Row)
    requires w1 == Next(w, ChainPays(id, g.payout))
    ensures w1.db == w.db && id in w1.chain && w1.chain[id] == Shown(w, id, g)
    ensures Settleable(w.db, row, Shown(w, id, g)) <==>
              Verified(w1, id, row, Shown(w, id, g).evidence) && MatchesProjection(w.db, row.amount, Shown(w, id, g).evidence.accounting)
  {
  }

  lemma VerifyEnds(w: World, pid: Pid, g: Given, id: IntentId, hash: Hash, pays: bool) returns (k: nat)
    requires id in w.db.rows && RowOk(w.db.rows[id]) && IsSubmitted(w.db.rows[id], hash)
    requires pays <==> Shown(w, id, g).evidence.hash == hash && Settleable(w.db, w.db.rows[id], Shown(w, id, g))
    ensures k <= 2 && Ends(Enter(w, pid, At(VerifyBlock, id, w.db.rows[id])), pid, g, id, k, pays, Shown(w, id, g).evidence.hash)
  {
    var (row, e, w1) := (w.db.rows[id], Shown(w, id, g).evidence, Next(w, ChainPays(id, g.payout)));
    PaysMeansVerified(w, w1, id, g, row);
    if e.hash == hash && Verified(w1, id, row, e) {
      VerifiedEnds(w, w1, pid, g, id, e, pays);
      k := 2;
    } else {
      UnverifiedEnds(w, w1, pid, g, id, hash);
      k := 1;
    }
  }

  // The event is this intent's own: its recipient, its amount, and counters that add up and include it.
  predicate IsOwnEvent(w: World, id: IntentId, row: Row, e: Evidence) {
    var a := e.accounting;
    && id in w.chain && w.chain[id] == ChainPayout(e, row.recipient, row.amount)
    && a.funded == a.balance + a.paid + a.withdrawn && a.outstanding <= a.balance && row.amount <= a.paid
  }

  lemma VerifiedIs(w: World, id: IntentId, row: Row, e: Evidence)
    ensures Verified(w, id, row, e) <==> IsOwnEvent(w, id, row, e)
  {
  }

  /** A call that verifies a submitted payout makes its confirmation the next request, with exactly what the chain
      shows, if and only if the chain shows it under the attempt's hash and it is the intent's own. */
  lemma VerifiedIsConfirmedNext(w: World, pid: Pid, id: IntentId, row: Row, answer: Answer)
    requires PhaseOf(w, pid) == At(VerifyBlock, id, row) && id in w.chain
    ensures var e := w.chain[id].evidence;
            RequestOf(Next(w, Resume(pid, answer)), Resume(pid, Nothing)) == Request(id, ConfirmPayout(e.hash, e.place, e.accounting)) <==>
              && Last(row.payouts).Some? && Last(row.payouts).value.status == Submitted && Last(row.payouts).value.hash == Some(e.hash)
              && answer == FoundPayout(e) && IsOwnEvent(w, id, row, e)
  {
  }

  /** A call that searches the chain makes recording the payout its next request if and only if it finds it and it is
      the intent's own. */
  lemma FoundIsRecordedNext(w: World, pid: Pid, section: Section, id: IntentId, row: Row, answer: Answer)
    requires PhaseOf(w, pid) == At(section, id, row) && Payable(row.status) && (section.ExternalBlock? || section.ExternalAfterApproval?) && id in w.chain
    ensures var e := w.chain[id].evidence;
            RequestOf(Next(w, Resume(pid, answer)), Resume(pid, Nothing)) == Request(id, ObserveExternalPayout(e.hash)) <==>
              answer == FoundPayout(e) && IsOwnEvent(w, id, row, e)
  {
  }

  // The newest attempt's own verification has given up for good, or the provider has.
  predicate Refutes(w: World, p: Phase, answer: Answer, payout: bool) {
    match p
    case At(ApprovalBlock, _, row) =>
      !payout && answer == FatalError && row.status == ApprovalSubmitted
      && Last(row.approvals).Some? && Last(row.approvals).value.status == Submitted && Last(row.approvals).value.hash.Some?
    case At(VerifyBlock, _, row) =>
      payout && answer == FatalError
      && Last(row.payouts).Some? && Last(row.payouts).value.status == Submitted && Last(row.payouts).value.hash.Some?
    case Waiting(_, _, tx) => payout && answer == Polled && tx in w.outcomes && w.outcomes[tx] == ProviderFailed
    case _ => false
  }

  lemma FailureIsRequested(w: World, pid: Pid, id: IntentId, payout: bool)
    ensures RequestOf(w, Resume(pid, Nothing)) == Request(id, FailOperation(payout)) <==>
              var q := PhaseOf(w, pid); q.ToFail? && q.id == id && q.payout == payout
  {
  }

  lemma BlockFailsIff(w: World, section: Section, id: IntentId, row: Row, answer: Answer, payout: bool)
    ensures var q := Block(w, section, id, row, answer);
            && (q.ToFail? && q.payout == payout <==> Refutes(w, At(section, id, row), answer, payout))
            && (q.ToFail? ==> q.id == id)
  {
  }

  lemma BlockPhase(w: World, pid: Pid, section: Section, id: IntentId, row: Row, answer: Answer)
    requires PhaseOf(w, pid) == At(section, id, row)
    ensures PhaseOf(Next(w, Resume(pid, answer)), pid) == Block(w, section, id, row, answer)
  {
  }

  lemma OtherPhase(w: World, pid: Pid, answer: Answer)
    requires var p := PhaseOf(w, pid); PendingCall(p).None? && !p.Idle? && !p.At?
    ensures var (p, q) := (PhaseOf(w, pid), PhaseOf(Next(w, Resume(pid, answer)), pid));
            && (q.ToFail? <==> p.Waiting? && answer == Polled && p.tx in w.outcomes && w.outcomes[p.tx].ProviderFailed?)
            && (q.ToFail? ==> q.id == p.id && q.payout)
  {
  }

  /** A call makes the failure of an attempt its next request if and only if its verification has just failed for
      good, or the provider says that its transaction failed; an error that may pass never does. */
  lemma FailureIsNextIff(w: World, pid: Pid, answer: Answer, payout: bool)
    requires PendingCall(PhaseOf(w, pid)).None? && !PhaseOf(w, pid).Idle?
    ensures RequestOf(Next(w, Resume(pid, answer)), Resume(pid, Nothing)) == Request(PhaseOf(w, pid).id, FailOperation(payout)) <==>
              Refutes(w, PhaseOf(w, pid), answer, payout)
  {
    var p := PhaseOf(w, pid);
    FailureIsRequested(Next(w, Resume(pid, answer)), pid, p.id, payout);
    if p.At? {
      BlockFailsIff(w, p.section, p.id, p.row, answer, payout);
      BlockPhase(w, pid, p.section, p.id, p.row, answer);
    } else {
      OtherPhase(w, pid, answer);
    }
  }

  /** And then the newest attempt is recorded failed, and the intent ready to be paid again. */
  lemma RefutedIsRecorded(w: World, pid: Pid, id: IntentId, hash: Hash)
    requires id in w.db.rows && PhaseOf(w, pid) == At(VerifyBlock, id, w.db.rows[id]) && IsSubmitted(w.db.rows[id], hash)
    ensures var w' := Next(Next(w, Resume(pid, FatalError)), Resume(pid, Nothing));
            PhaseOf(w', pid).Idle? && w'.db.rows == w.db.rows[id := FailedRow(w.db.rows[id])]
  {
    FailCommits(w.db, id);
  }

  // ---------------------------------------------------------------- waiting, attaching

  function OutcomeOf(w: World, tx: TxId, g: Given): Outcome {
    if tx in w.outcomes then w.outcomes[tx] else Sent(g.payout.evidence.hash, false)
  }

  lemma SettlingStays(w: World, pid: Pid, g: Given, id: IntentId, n: nat, tx: TxId)
    ensures PhaseOf(Enter(w, pid, Waiting(id, n, tx)), pid) == Waiting(id, n, tx)
    ensures Next(Enter(w, pid, Waiting(id, n, tx)), Settle(tx, Sent(g.payout.evidence.hash, false)))
            == Enter(Next(w, Settle(tx, Sent(g.payout.evidence.hash, false))), pid, Waiting(id, n, tx))
  {
  }

  lemma SettlingDecides(w: World, g: Given, tx: TxId)
    ensures var w1 := Next(w, Settle(tx, Sent(g.payout.evidence.hash, false)));
            w1 == w.(outcomes := w1.outcomes) && tx in w1.outcomes && w1.outcomes[tx] == OutcomeOf(w, tx, g)
  {
  }

  lemma WaitTurn(w: World, pid: Pid, g: Given, id: IntentId, n: nat, tx: TxId)
    ensures var w1 := Next(w, Settle(tx, Sent(g.payout.evidence.hash, false)));
            Turn(Enter(w, pid, Waiting(id, n, tx)), pid, g)
            == Enter(w1, pid, if OutcomeOf(w, tx, g).ProviderFailed? then ToFail(id, true, n, ProviderSaid) else ToAttach(id, tx, OutcomeOf(w, tx, g).hash))
  {
    var w1 := Next(w, Settle(tx, Sent(g.payout.evidence.hash, false)));
    SettlingDecides(w, g, tx);
    SettlingStays(w, pid, g, id, n, tx);
    if w1.outcomes[tx].ProviderFailed? { FailureHeard(w1, pid, id, n, tx); } else { HashHeard(w1, pid, id, n, tx); }
  }

  lemma AttachRejected(db: Db, id: IntentId, tx: TxId, hash: Hash)
    requires id in db.rows && hash in AllHashes(db)
    ensures Call(db, id, AttachPayoutHash(tx, hash)).Rejected?
  {
  }

  lemma AttachedIsSubmitted(row: Row, tx: TxId, hash: Hash)
    requires AwaitsProvider(row, tx)
    ensures IsSubmitted(AttachedRow(row, hash), hash)
    ensures AttachedRow(row, hash).amount == row.amount && AttachedRow(row, hash).recipient == row.recipient
  {
  }

  lemma SamePools(db: Db, db': Db, row: Row, row': Row, c: ChainPayout)
    requires db' == db.(rows := db'.rows) && row'.amount == row.amount && row'.recipient == row.recipient
    ensures Settleable(db', row', c) <==> Settleable(db, row, c)
  {
  }

  lemma RereadVerifyEnds(w: World, pid: Pid, g: Given, id: IntentId, hash: Hash, pays: bool) returns (k: nat)
    requires id in w.db.rows && RowOk(w.db.rows[id]) && IsSubmitted(w.db.rows[id], hash)
    requires pays <==> Shown(w, id, g).evidence.hash == hash && Settleable(w.db, w.db.rows[id], Shown(w, id, g))
    ensures k <= 3 && Ends(Enter(w, pid, Reread(VerifyBlock, id)), pid, g, id, k, pays, Shown(w, id, g).evidence.hash)
  {
    var j := VerifyEnds(w, pid, g, id, hash, pays);
    RereadEnds(w, pid, g, VerifyBlock, id, j, pays, Shown(w, id, g).evidence.hash);
    k := j + 1;
  }

  lemma AttachedIsOk(db: Db, id: IntentId, tx: TxId, hash: Hash)
    requires id in db.rows && RowOk(db.rows[id]) && AwaitsProvider(db.rows[id], tx) && hash !in AllHashes(db)
    ensures RowOk(AttachedRow(db.rows[id], hash))
  {
    AttachCommits(db, id, tx, hash);
    RowEffect(db, id, AttachPayoutHash(tx, hash));
  }

  lemma AttachedEnds(w: World, pid: Pid, g: Given, id: IntentId, tx: TxId, hash: Hash, pays: bool) returns (k: nat)
    requires id in w.db.rows && RowOk(w.db.rows[id]) && AwaitsProvider(w.db.rows[id], tx) && hash !in AllHashes(w.db)
    requires pays <==> Shown(w, id, g).evidence.hash == hash && Settleable(w.db, w.db.rows[id], Shown(w, id, g))
    ensures k <= 3
    ensures Ends(Enter(WithRow(w, id, AttachedRow(w.db.rows[id], hash)), pid, Reread(VerifyBlock, id)), pid, g, id, k, pays, Shown(w, id, g).evidence.hash)
  {
    var row' := AttachedRow(w.db.rows[id], hash);
    var w1 := WithRow(w, id, row');
    AttachedIsOk(w.db, id, tx, hash);
    AttachedIsSubmitted(w.db.rows[id], tx, hash);
    SamePools(w.db, w1.db, w.db.rows[id], row', Shown(w, id, g));
    k := RereadVerifyEnds(w1, pid, g, id, hash, pays);
  }

  lemma AttachGoesOn(w: World, pid: Pid, g: Given, id: IntentId, tx: TxId, hash: Hash, j: nat, pays: bool, shown: Hash)
    requires id in w.db.rows && AwaitsProvider(w.db.rows[id], tx) && hash !in AllHashes(w.db)
    requires Ends(Enter(WithRow(w, id, AttachedRow(w.db.rows[id], hash)), pid, Reread(VerifyBlock, id)), pid, g, id, j, pays, shown)
    ensures Ends(Enter(w, pid, ToAttach(id, tx, hash)), pid, g, id, j + 1, pays, shown)
  {
    AttachCommits(w.db, id, tx, hash);
    CallEnds(w, pid, g, ToAttach(id, tx, hash), id, WithRow(w, id, AttachedRow(w.db.rows[id], hash)).db, j, pays, shown);
  }

  lemma AttachEnds(w: World, pid: Pid, g: Given, id: IntentId, tx: TxId, hash: Hash, pays: bool) returns (k: nat)
    requires id in w.db.rows && RowOk(w.db.rows[id]) && AwaitsProvider(w.db.rows[id], tx)
    requires pays <==> hash !in AllHashes(w.db) && Shown(w, id, g).evidence.hash == hash && Settleable(w.db, w.db.rows[id], Shown(w, id, g))
    ensures k <= 4 && Ends(Enter(w, pid, ToAttach(id, tx, hash)), pid, g, id, k, pays, Shown(w, id, g).evidence.hash)
  {
    var shown := Shown(w, id, g).evidence.hash;
    if hash in AllHashes(w.db) {
      AttachRejected(w.db, id, tx, hash);
      RejectionEnds(w, pid, g, ToAttach(id, tx, hash), id, shown);
      k := 1;
    } else {
      var j := AttachedEnds(w, pid, g, id, tx, hash, pays);
      AttachGoesOn(w, pid, g, id, tx, hash, j, pays, shown);
      k := j + 1;
    }
  }

  lemma FailureEnds(w: World, pid: Pid, g: Given, id: IntentId, n: nat, tx: TxId, shown: Hash)
    requires id in w.db.rows && AwaitsProvider(w.db.rows[id], tx)
    ensures Ends(Enter(w, pid, ToFail(id, true, n, ProviderSaid)), pid, g, id, 1, false, shown)
  {
    var db' := w.db.(rows := w.db.rows[id := FailedRow(w.db.rows[id])]);
    FailCommits(w.db, id);
    IdleEnds(w.(db := db'), pid, g, id, shown);
    CallEnds(w, pid, g, ToFail(id, true, n, ProviderSaid), id, db', 0, false, shown);
  }

  // The provider's transaction goes out under this hash, which is nobody's yet.
  predicate GoesOut(w: World, tx: TxId, g: Given, hash: Hash) {
    OutcomeOf(w, tx, g).Sent? && OutcomeOf(w, tx, g).hash == hash && hash !in AllHashes(w.db)
  }

  lemma HeardFailure(w: World, w1: World, pid: Pid, g: Given, id: IntentId, n: nat, tx: TxId, k: nat, pays: bool, shown: Hash)
    requires w1 == Next(w, Settle(tx, Sent(g.payout.evidence.hash, false))) && OutcomeOf(w, tx, g).ProviderFailed?
    requires Ends(Enter(w1, pid, ToFail(id, true, n, ProviderSaid)), pid, g, id, k, pays, shown)
    ensures Ends(Enter(w, pid, Waiting(id, n, tx)), pid, g, id, k + 1, pays, shown)
  {
    WaitTurn(w, pid, g, id, n, tx);
    OneTurn(Enter(w, pid, Waiting(id, n, tx)), pid, g, Enter(w1, pid, ToFail(id, true, n, ProviderSaid)), id, k, pays, shown);
  }

  lemma HeardHash(w: World, w1: World, pid: Pid, g: Given, id: IntentId, n: nat, tx: TxId, hash: Hash, k: nat, pays: bool, shown: Hash)
    requires w1 == Next(w, Settle(tx, Sent(g.payout.evidence.hash, false)))
    requires OutcomeOf(w, tx, g).Sent? && OutcomeOf(w, tx, g).hash == hash
    requires Ends(Enter(w1, pid, ToAttach(id, tx, hash)), pid, g, id, k, pays, shown)
    ensures Ends(Enter(w, pid, Waiting(id, n, tx)), pid, g, id, k + 1, pays, shown)
  {
    WaitTurn(w, pid, g, id, n, tx);
    OneTurn(Enter(w, pid, Waiting(id, n, tx)), pid, g, Enter(w1, pid, ToAttach(id, tx, hash)), id, k, pays, shown);
  }

  lemma WaitEnds(w: World, pid: Pid, g: Given, id: IntentId, n: nat, tx: TxId, pays: bool) returns (k: nat)
    requires id in w.db.rows && RowOk(w.db.rows[id]) && AwaitsProvider(w.db.rows[id], tx)
    requires pays <==> GoesOut(w, tx, g, Shown(w, id, g).evidence.hash) && Settleable(w.db, w.db.rows[id], Shown(w, id, g))
    ensures k <= 5 && Ends(Enter(w, pid, Waiting(id, n, tx)), pid, g, id, k, pays, Shown(w, id, g).evidence.hash)
  {
    var w1 := Next(w, Settle(tx, Sent(g.payout.evidence.hash, false)));
    var (o, shown) := (OutcomeOf(w, tx, g), Shown(w, id, g).evidence.hash);
    SettlingDecides(w, g, tx);
    var j: nat;
    if o.ProviderFailed? {
      FailureEnds(w1, pid, g, id, n, tx, shown);
      j := 1;
      HeardFailure(w, w1, pid, g, id, n, tx, j, pays, shown);
    } else {
      j := AttachEnds(w1, pid, g, id, tx, o.hash, pays);
      HeardHash(w, w1, pid, g, id, n, tx, o.hash, j, pays, shown);
    }
    k := j + 1;
  }

  // ---------------------------------------------------------------- from the relay block on

  lemma WaitingFromRelay(w: World, pid: Pid, g: Given, id: IntentId, tx: TxId, pays: bool) returns (k: nat)
    requires id in w.db.rows && RowOk(w.db.rows[id]) && AwaitsProvider(w.db.rows[id], tx)
    requires pays <==> GoesOut(w, tx, g, Shown(w, id, g).evidence.hash) && Settleable(w.db, w.db.rows[id], Shown(w, id, g))
    ensures k <= 6 && Ends(Enter(w, pid, At(RelayBlock, id, w.db.rows[id])), pid, g, id, k, pays, Shown(w, id, g).evidence.hash)
  {
    var (row, n) := (w.db.rows[id], |w.db.rows[id].payouts| - 1);
    var j := WaitEnds(w, pid, g, id, n, tx, pays);
    BlockEnds(w, pid, g, RelayBlock, id, row, Waiting(id, n, tx), j, pays, Shown(w, id, g).evidence.hash);
    k := j + 1;
  }

  lemma VerifyFromRelay(w: World, pid: Pid, g: Given, id: IntentId, hash: Hash, pays: bool) returns (k: nat)
    requires id in w.db.rows && RowOk(w.db.rows[id]) && IsSubmitted(w.db.rows[id], hash)
    requires pays <==> Shown(w, id, g).evidence.hash == hash && Settleable(w.db, w.db.rows[id], Shown(w, id, g))
    ensures k <= 3 && Ends(Enter(w, pid, At(RelayBlock, id, w.db.rows[id])), pid, g, id, k, pays, Shown(w, id, g).evidence.hash)
  {
    var row := w.db.rows[id];
    var j := VerifyEnds(w, pid, g, id, hash, pays);
    BlockEnds(w, pid, g, RelayBlock, id, row, At(VerifyBlock, id, row), j, pays, Shown(w, id, g).evidence.hash);
    k := j + 1;
  }

  // ---------------------------------------------------------------- submitting a stored key

  predicate IsUncertain(row: Row, key: Key) {
    row.status == ReadyForPayout && Last(row.payouts).Some?
    && Last(row.payouts).value.status == SubmissionUncertain && Last(row.payouts).value.key == Some(key)
  }

  // The newest attempt accepted by the provider.
  function AcceptedLast(row: Row, tx: TxId): Row
    requires row.payouts != []
  {
    var n := |row.payouts| - 1;
    row.(payouts := row.payouts[n := row.payouts[n].(status := ProviderAccepted, tx := Some(tx))], status := PayoutSubmitted, report := PaymentPending)
  }

  // The provider is idempotent: a key it knows keeps its transaction.
  function TxOf(w: World, key: Key, g: Given): TxId {
    if key in w.provider then w.provider[key] else g.tx
  }

  function WithTx(w: World, key: Key, g: Given): World {
    w.(provider := w.provider[key := TxOf(w, key, g)])
  }

  lemma SubmitTurn(w: World, pid: Pid, g: Given, id: IntentId, key: Key)
    requires key !in w.provider ==> g.tx !in w.provider.Values && g.tx !in w.outcomes
    ensures Turn(Enter(w, pid, ToSubmit(id, key)), pid, g) == Enter(WithTx(w, key, g), pid, ToAccept(id, key, TxOf(w, key, g)))
  {
    EnterTwice(w, pid, ToSubmit(id, key), ToAccept(id, key, TxOf(w, key, g)));
    if key in w.provider {
      assert w.provider[key := w.provider[key]] == w.provider;
    } else {
      SubmitStep(w, pid, id, key, g.tx);
    }
  }

  lemma AcceptsLast(db: Db, id: IntentId, key: Key, tx: TxId)
    requires id in db.rows && RowOk(db.rows[id]) && IsUncertain(db.rows[id], key) && tx !in AllTxs(db)
    ensures Call(db, id, AcceptPayout(key, tx)) == Committed(db.(rows := db.rows[id := AcceptedLast(db.rows[id], tx)]))
    ensures RowOk(AcceptedLast(db.rows[id], tx)) && AwaitsProvider(AcceptedLast(db.rows[id], tx), tx)
  {
    var ops := db.rows[id].payouts;
    assert LastWhere(ops, (op: Op) => op.key == Some(key) && op.status == SubmissionUncertain) == Some(|ops| - 1);
    RowEffect(db, id, AcceptPayout(key, tx));
  }

  lemma AcceptRejected(db: Db, id: IntentId, key: Key, tx: TxId)
    requires id in db.rows && tx in AllTxs(db)
    ensures Call(db, id, AcceptPayout(key, tx)).Rejected?
  {
  }

  lemma SameHashesAs(db: Db, db': Db, id: IntentId, row': Row)
    requires id in db.rows && db'.rows == db.rows[id := row']
    requires Hashes(row'.approvals) == Hashes(db.rows[id].approvals) && Hashes(row'.payouts) == Hashes(db.rows[id].payouts)
    ensures AllHashes(db') == AllHashes(db)
  {
    forall h ensures h in AllHashes(db') <==> h in AllHashes(db) {
      if h in AllHashes(db') {
        var other :| other in db'.rows && h in Hashes(db'.rows[other].approvals) + Hashes(db'.rows[other].payouts);
        assert h in Hashes(db.rows[other].approvals) + Hashes(db.rows[other].payouts);
      }
      if h in AllHashes(db) {
        var other :| other in db.rows && h in Hashes(db.rows[other].approvals) + Hashes(db.rows[other].payouts);
        assert h in Hashes(db'.rows[other].approvals) + Hashes(db'.rows[other].payouts);
      }
    }
  }

  lemma OpHashes(ops: seq<Op>, ops': seq<Op>)
    requires |ops'| == |ops| && forall i :: 0 <= i < |ops| ==> ops'[i].hash == ops[i].hash
    ensures Hashes(ops') == Hashes(ops)
  {
  }

  lemma AcceptedEnds(w: World, pid: Pid, g: Given, id: IntentId, key: Key, tx: TxId, pays: bool) returns (k: nat)
    requires id in w.db.rows && RowOk(w.db.rows[id]) && IsUncertain(w.db.rows[id], key) && tx !in AllTxs(w.db)
    requires pays <==> GoesOut(w, tx, g, Shown(w, id, g).evidence.hash) && Settleable(w.db, w.db.rows[id], Shown(w, id, g))
    ensures k <= 7
    ensures Ends(Enter(WithRow(w, id, AcceptedLast(w.db.rows[id], tx)), pid, Reread(RelayBlock, id)), pid, g, id, k, pays, Shown(w, id, g).evidence.hash)
  {
    var row' := AcceptedLast(w.db.rows[id], tx);
    var w1 := WithRow(w, id, row');
    AcceptsLast(w.db, id, key, tx);
    OpHashes(w.db.rows[id].payouts, row'.payouts);
    SameHashesAs(w.db, w1.db, id, row');
    SamePools(w.db, w1.db, w.db.rows[id], row', Shown(w, id, g));
    var j := WaitingFromRelay(w1, pid, g, id, tx, pays);
    RereadEnds(w1, pid, g, RelayBlock, id, j, pays, Shown(w, id, g).evidence.hash);
    k := j + 1;
  }

  lemma AcceptEnds(w: World, pid: Pid, g: Given, id: IntentId, key: Key, tx: TxId, pays: bool) returns (k: nat)
    requires id in w.db.rows && RowOk(w.db.rows[id]) && IsUncertain(w.db.rows[id], key)
    requires pays <==> tx !in AllTxs(w.db) && GoesOut(w, tx, g, Shown(w, id, g).evidence.hash) && Settleable(w.db, w.db.rows[id], Shown(w, id, g))
    ensures k <= 8 && Ends(Enter(w, pid, ToAccept(id, key, tx)), pid, g, id, k, pays, Shown(w, id, g).evidence.hash)
  {
    var shown := Shown(w, id, g).evidence.hash;
    if tx in AllTxs(w.db) {
      AcceptRejected(w.db, id, key, tx);
      RejectionEnds(w, pid, g, ToAccept(id, key, tx), id, shown);
      k := 1;
    } else {
      var j := AcceptedEnds(w, pid, g, id, key, tx, pays);
      AcceptGoesOn(w, pid, g, id, key, tx, j, pays, shown);
      k := j + 1;
    }
  }

  lemma AcceptGoesOn(w: World, pid: Pid, g: Given, id: IntentId, key: Key, tx: TxId, j: nat, pays: bool, shown: Hash)
    requires id in w.db.rows && RowOk(w.db.rows[id]) && IsUncertain(w.db.rows[id], key) && tx !in AllTxs(w.db)
    requires Ends(Enter(WithRow(w, id, AcceptedLast(w.db.rows[id], tx)), pid, Reread(RelayBlock, id)), pid, g, id, j, pays, shown)
    ensures Ends(Enter(w, pid, ToAccept(id, key, tx)), pid, g, id, j + 1, pays, shown)
  {
    AcceptsLast(w.db, id, key, tx);
    CallEnds(w, pid, g, ToAccept(id, key, tx), id, WithRow(w, id, AcceptedLast(w.db.rows[id], tx)).db, j, pays, shown);
  }

  // The stored key leads to a transaction nobody else has, which goes out under this hash.
  predicate KeyGoesOut(w: World, key: Key, g: Given, hash: Hash) {
    TxOf(w, key, g) !in AllTxs(w.db) && GoesOut(w, TxOf(w, key, g), g, hash)
  }

  lemma SubmitGoesOn(w: World, w1: World, pid: Pid, g: Given, id: IntentId, key: Key, tx: TxId, k: nat, pays: bool, shown: Hash)
    requires key !in w.provider ==> g.tx !in w.provider.Values && g.tx !in w.outcomes
    requires w1 == WithTx(w, key, g) && tx == TxOf(w, key, g) && Ends(Enter(w1, pid, ToAccept(id, key, tx)), pid, g, id, k, pays, shown)
    ensures Ends(Enter(w, pid, ToSubmit(id, key)), pid, g, id, k + 1, pays, shown)
  {
    SubmitTurn(w, pid, g, id, key);
    OneTurn(Enter(w, pid, ToSubmit(id, key)), pid, g, Enter(w1, pid, ToAccept(id, key, tx)), id, k, pays, shown);
  }

  lemma SubmitEnds(w: World, pid: Pid, g: Given, id: IntentId, key: Key, pays: bool) returns (k: nat)
    requires id in w.db.rows && RowOk(w.db.rows[id]) && IsUncertain(w.db.rows[id], key)
    requires key !in w.provider ==> g.tx !in w.provider.Values && g.tx !in w.outcomes
    requires pays <==> KeyGoesOut(w, key, g, Shown(w, id, g).evidence.hash) && Settleable(w.db, w.db.rows[id], Shown(w, id, g))
    ensures k <= 9 && Ends(Enter(w, pid, ToSubmit(id, key)), pid, g, id, k, pays, Shown(w, id, g).evidence.hash)
  {
    var (w1, tx) := (WithTx(w, key, g), TxOf(w, key, g));
    var j := AcceptEnds(w1, pid, g, id, key, tx, pays);
    SubmitGoesOn(w, w1, pid, g, id, key, tx, j, pays, Shown(w, id, g).evidence.hash);
    k := j + 1;
  }

  // ---------------------------------------------------------------- from the prepare block on

  lemma StoredKeyEnds(w: World, pid: Pid, g: Given, id: IntentId, key: Key, pays: bool) returns (k: nat)
    requires id in w.db.rows && RowOk(w.db.rows[id]) && IsUncertain(w.db.rows[id], key)
    requires key !in w.provider ==> g.tx !in w.provider.Values && g.tx !in w.outcomes
    requires pays <==> KeyGoesOut(w, key, g, Shown(w, id, g).evidence.hash) && Settleable(w.db, w.db.rows[id], Shown(w, id, g))
    ensures k <= 10 && Ends(Enter(w, pid, At(SubmitBlock, id, w.db.rows[id])), pid, g, id, k, pays, Shown(w, id, g).evidence.hash)
  {
    var j := SubmitEnds(w, pid, g, id, key, pays);
    BlockEnds(w, pid, g, SubmitBlock, id, w.db.rows[id], ToSubmit(id, key), j, pays, Shown(w, id, g).evidence.hash);
    k := j + 1;
  }

  // The world after the call has drawn its key and stored it.
  function Prepared(w: World, id: IntentId, g: Given): World
    requires id in w.db.rows
  {
    WithRow(w.(minted := w.minted[g.key := id]), id, PreparedRow(w.db.rows[id], g.key))
  }

  lemma PreparedIsUncertain(db: Db, id: IntentId, key: Key)
    requires id in db.rows && RowOk(db.rows[id]) && NeedsAttempt(db.rows[id]) && key !in Keys(db.rows[id].payouts)
    ensures RowOk(PreparedRow(db.rows[id], key)) && IsUncertain(PreparedRow(db.rows[id], key), key)
  {
    PrepareCommits(db, id, key);
    RowEffect(db, id, PreparePayout(key));
  }

  lemma PreparedHashes(row: Row, key: Key)
    ensures Hashes(PreparedRow(row, key).payouts) == Hashes(row.payouts)
  {
    var (ops, ops') := (row.payouts, PreparedRow(row, key).payouts);
    forall h ensures h in Hashes(ops') <==> h in Hashes(ops) {
      if h in Hashes(ops) {
        var i :| 0 <= i < |ops| && ops[i].hash == Some(h);
        assert ops'[i].hash == Some(h);
      }
    }
  }

  // A transaction and a key that nothing knows yet.
  predicate IsFresh(w: World, g: Given) {
    g.key !in w.minted && g.key !in w.provider && g.tx !in w.provider.Values && g.tx !in w.outcomes && g.tx !in AllTxs(w.db)
  }

  lemma PreparedGoesOut(w: World, id: IntentId, g: Given, hash: Hash)
    requires id in w.db.rows && IsFresh(w, g)
    ensures KeyGoesOut(Prepared(w, id, g), g.key, g, hash) <==> g.payout.evidence.hash == hash && hash !in AllHashes(w.db)
  {
    var w1 := Prepared(w, id, g);
    PreparedHashes(w.db.rows[id], g.key);
    SameHashesAs(w.db, w1.db, id, PreparedRow(w.db.rows[id], g.key));
    TxsAfterPrepare(w.db, id, g.key);
    assert AllTxs(w1.db) == AllTxs(w.db.(rows := w.db.rows[id := PreparedRow(w.db.rows[id], g.key)]));
  }

  lemma DrawEnds(w: World, pid: Pid, g: Given, id: IntentId, k: nat, pays: bool, hash: Hash)
    requires id in w.db.rows && NeedsAttempt(w.db.rows[id]) && g.key !in w.minted
    requires Ends(Enter(w.(minted := w.minted[g.key := id]), pid, ToPrepare(id, g.key)), pid, g, id, k, pays, hash)
    ensures Ends(Enter(w, pid, At(PrepareBlock, id, w.db.rows[id])), pid, g, id, k + 1, pays, hash)
  {
    DrawTurn(w, pid, g, id, w.db.rows[id]);
    OneTurn(Enter(w, pid, At(PrepareBlock, id, w.db.rows[id])), pid, g, Enter(w.(minted := w.minted[g.key := id]), pid, ToPrepare(id, g.key)), id, k, pays, hash);
  }

  lemma PrepareEnds(w: World, pid: Pid, g: Given, id: IntentId, k: nat, pays: bool, hash: Hash)
    requires id in w.db.rows && RowOk(w.db.rows[id]) && NeedsAttempt(w.db.rows[id]) && g.key !in Keys(w.db.rows[id].payouts)
    requires Ends(Enter(Prepared(w, id, g), pid, Reread(SubmitBlock, id)), pid, g, id, k, pays, hash)
    ensures Ends(Enter(w.(minted := w.minted[g.key := id]), pid, ToPrepare(id, g.key)), pid, g, id, k + 1, pays, hash)
  {
    PrepareCommits(w.db, id, g.key);
    CallEnds(w.(minted := w.minted[g.key := id]), pid, g, ToPrepare(id, g.key), id, Prepared(w, id, g).db, k, pays, hash);
  }

  lemma NewAttemptEnds(w: World, pid: Pid, g: Given, id: IntentId, pays: bool) returns (k: nat)
    requires id in w.db.rows && RowOk(w.db.rows[id]) && NeedsAttempt(w.db.rows[id]) && g.key !in Keys(w.db.rows[id].payouts) && IsFresh(w, g)
    requires var c := Shown(w, id, g);
             pays <==> g.payout.evidence.hash == c.evidence.hash && c.evidence.hash !in AllHashes(w.db) && Settleable(w.db, w.db.rows[id], c)
    ensures k <= 13 && Ends(Enter(w, pid, At(PrepareBlock, id, w.db.rows[id])), pid, g, id, k, pays, Shown(w, id, g).evidence.hash)
  {
    var (w1, hash) := (Prepared(w, id, g), Shown(w, id, g).evidence.hash);
    PreparedIsUncertain(w.db, id, g.key);
    PreparedGoesOut(w, id, g, hash);
    SamePools(w.db, w1.db, w.db.rows[id], w1.db.rows[id], Shown(w, id, g));
    var j := StoredKeyEnds(w1, pid, g, id, g.key, pays);
    NewKeyEnds(w, w1, pid, g, id, j, pays, hash);
    k := j + 3;
  }

  lemma NewKeyEnds(w: World, w1: World, pid: Pid, g: Given, id: IntentId, j: nat, pays: bool, hash: Hash)
    requires id in w.db.rows && RowOk(w.db.rows[id]) && NeedsAttempt(w.db.rows[id]) && g.key !in Keys(w.db.rows[id].payouts) && g.key !in w.minted
    requires w1 == Prepared(w, id, g) && id in w1.db.rows && Ends(Enter(w1, pid, At(SubmitBlock, id, w1.db.rows[id])), pid, g, id, j, pays, hash)
    ensures Ends(Enter(w, pid, At(PrepareBlock, id, w.db.rows[id])), pid, g, id, j + 3, pays, hash)
  {
    RereadEnds(w1, pid, g, SubmitBlock, id, j, pays, hash);
    PrepareEnds(w, pid, g, id, j + 1, pays, hash);
    DrawEnds(w, pid, g, id, j + 2, pays, hash);
  }

  // ---------------------------------------------------------------- any payable intent

  // How the payout that is shown comes to be the newest attempt's.
  predicate IsRelayed(w: World, row: Row, g: Given, hash: Hash)
    requires Payable(row.status)
  {
    var last := Last(row.payouts);
    if last.None? || last.value.status == Failed then g.payout.evidence.hash == hash && hash !in AllHashes(w.db)
    else if last.value.status == SubmissionUncertain then last.value.key.Some? && KeyGoesOut(w, last.value.key.value, g, hash)
    else if last.value.status == ProviderAccepted then last.value.tx.Some? && GoesOut(w, last.value.tx.value, g, hash)
    else last.value.hash == Some(hash)
  }

  lemma PayableAttempt(row: Row)
    requires RowOk(row) && Payable(row.status)
    ensures var last := Last(row.payouts);
            || NeedsAttempt(row)
            || (last.Some? && last.value.key.Some? && IsUncertain(row, last.value.key.value))
            || (last.Some? && last.value.tx.Some? && AwaitsProvider(row, last.value.tx.value))
            || (last.Some? && last.value.hash.Some? && IsSubmitted(row, last.value.hash.value))
    ensures NeedsAttempt(row) <==> Last(row.payouts).None? || Last(row.payouts).value.status == Failed
  {
  }

  lemma ReadyEnds(w: World, pid: Pid, g: Given, id: IntentId, pays: bool) returns (k: nat)
    requires id in w.db.rows && RowOk(w.db.rows[id]) && w.db.rows[id].status == ReadyForPayout && g.key !in Keys(w.db.rows[id].payouts) && IsFresh(w, g)
    requires pays <==> IsRelayed(w, w.db.rows[id], g, Shown(w, id, g).evidence.hash) && Settleable(w.db, w.db.rows[id], Shown(w, id, g))
    ensures k <= 13 && Ends(Enter(w, pid, At(PrepareBlock, id, w.db.rows[id])), pid, g, id, k, pays, Shown(w, id, g).evidence.hash)
  {
    var row := w.db.rows[id];
    PayableAttempt(row);
    if NeedsAttempt(row) {
      k := NewAttemptEnds(w, pid, g, id, pays);
    } else {
      var j := StoredKeyEnds(w, pid, g, id, Last(row.payouts).value.key.value, pays);
      BlockEnds(w, pid, g, PrepareBlock, id, row, At(SubmitBlock, id, row), j, pays, Shown(w, id, g).evidence.hash);
      k := j + 1;
    }
  }

  lemma RelayedEnds(w: World, pid: Pid, g: Given, id: IntentId, pays: bool) returns (k: nat)
    requires id in w.db.rows && RowOk(w.db.rows[id]) && w.db.rows[id].status == PayoutSubmitted
    requires pays <==> IsRelayed(w, w.db.rows[id], g, Shown(w, id, g).evidence.hash) && Settleable(w.db, w.db.rows[id], Shown(w, id, g))
    ensures k <= 6 && Ends(Enter(w, pid, At(RelayBlock, id, w.db.rows[id])), pid, g, id, k, pays, Shown(w, id, g).evidence.hash)
  {
    var row := w.db.rows[id];
    PayableAttempt(row);
    if Last(row.payouts).value.status == ProviderAccepted {
      k := WaitingFromRelay(w, pid, g, id, Last(row.payouts).value.tx.value, pays);
    } else {
      k := VerifyFromRelay(w, pid, g, id, Last(row.payouts).value.hash.value, pays);
    }
  }

  lemma PrepareBlockEnds(w: World, pid: Pid, g: Given, id: IntentId, pays: bool) returns (k: nat)
    requires id in w.db.rows && RowOk(w.db.rows[id]) && Payable(w.db.rows[id].status) && g.key !in Keys(w.db.rows[id].payouts) && IsFresh(w, g)
    requires pays <==> IsRelayed(w, w.db.rows[id], g, Shown(w, id, g).evidence.hash) && Settleable(w.db, w.db.rows[id], Shown(w, id, g))
    ensures k <= 13 && Ends(Enter(w, pid, At(PrepareBlock, id, w.db.rows[id])), pid, g, id, k, pays, Shown(w, id, g).evidence.hash)
  {
    var row := w.db.rows[id];
    if row.status == ReadyForPayout {
      k := ReadyEnds(w, pid, g, id, pays);
    } else {
      var j := RelayedEnds(w, pid, g, id, pays);
      BlockEnds(w, pid, g, PrepareBlock, id, row, At(RelayBlock, id, row), j, pays, Shown(w, id, g).evidence.hash);
      k := j + 1;
    }
  }

  // ---------------------------------------------------------------- a payout already on chain

  // What both calls need, beside the event being the intent's own.
  predicate ExternalSettles(db: Db, id: IntentId, c: ChainPayout)
    requires id in db.rows
  {
    HashIsFree(db, db.rows[id], c.evidence.hash) && !FailedWithHash(db.rows[id], c.evidence.hash) && Settleable(db, db.rows[id], c)
  }

  lemma BothCallsRest(db: Db, id: IntentId, e: Evidence)
    requires id in db.rows && RowOk(db.rows[id]) && Payable(db.rows[id].status)
    ensures BothCalls(db, id, e).Committed? <==>
              && HashIsFree(db, db.rows[id], e.hash) && !FailedWithHash(db.rows[id], e.hash)
              && SnapshotValid(e.accounting) && MatchesProjection(db, db.rows[id].amount, e.accounting)
  {
    ExternalPayoutCommitsIff(db, id, e.hash, e.place, e.accounting);
  }

  // The newest attempt of a row the confirmation has just paid carries the transaction.
  lemma PaidRow(db: Db, id: IntentId, e: Evidence)
    requires id in db.rows && RowOk(db.rows[id]) && db.rows[id].status != PaidOut
    requires Call(db, id, ConfirmPayout(e.hash, e.place, e.accounting)).Committed?
    ensures var db' := Call(db, id, ConfirmPayout(e.hash, e.place, e.accounting)).db;
            && id in db'.rows && db'.rows[id].status == PaidOut
            && Last(db'.rows[id].payouts).Some? && Last(db'.rows[id].payouts).value.hash == Some(e.hash)
  {
    ConfirmPays(db, id, ConfirmPayout(e.hash, e.place, e.accounting));
  }

  lemma ObservedRow(db: Db, id: IntentId, hash: Hash)
    requires id in db.rows && RowOk(db.rows[id]) && Payable(db.rows[id].status) && Call(db, id, ObserveExternalPayout(hash)).Committed?
    ensures var db' := Call(db, id, ObserveExternalPayout(hash)).db; id in db'.rows && RowOk(db'.rows[id]) && db'.rows[id].status != PaidOut
  {
    RowEffect(db, id, ObserveExternalPayout(hash));
    OthersNeverPay(db, id, ObserveExternalPayout(hash));
  }

  lemma ConfirmAnyEnds(w: World, pid: Pid, g: Given, id: IntentId, e: Evidence, pays: bool)
    requires id in w.db.rows && RowOk(w.db.rows[id]) && w.db.rows[id].status != PaidOut
    requires pays <==> Call(w.db, id, ConfirmPayout(e.hash, e.place, e.accounting)).Committed?
    ensures Ends(Enter(w, pid, ToConfirm(id, e)), pid, g, id, 1, pays, e.hash)
  {
    var r := Call(w.db, id, ConfirmPayout(e.hash, e.place, e.accounting));
    if r.Committed? {
      PaidRow(w.db, id, e);
      RestsNow(Enter(w.(db := r.db), pid, Idle), pid, g, id, true, e.hash);
      CallEnds(w, pid, g, ToConfirm(id, e), id, r.db, 0, true, e.hash);
    } else {
      RejectionEnds(w, pid, g, ToConfirm(id, e), id, e.hash);
    }
  }

  lemma BothCallsAre(db: Db, id: IntentId, e: Evidence)
    requires id in db.rows
    ensures var r := Call(db, id, ObserveExternalPayout(e.hash));
            BothCalls(db, id, e).Committed? <==> r.Committed? && Call(r.db, id, ConfirmPayout(e.hash, e.place, e.accounting)).Committed?
  {
  }

  lemma ObservedEnds(w: World, pid: Pid, g: Given, id: IntentId, e: Evidence, db': Db, pays: bool)
    requires id in w.db.rows && RowOk(w.db.rows[id]) && Payable(w.db.rows[id].status)
    requires Call(w.db, id, ObserveExternalPayout(e.hash)) == Committed(db')
    requires pays <==> Call(db', id, ConfirmPayout(e.hash, e.place, e.accounting)).Committed?
    ensures Ends(Enter(w, pid, ToObserveExternal(id, e)), pid, g, id, 2, pays, e.hash)
  {
    ObservedRow(w.db, id, e.hash);
    ConfirmAnyEnds(w.(db := db'), pid, g, id, e, pays);
    CallEnds(w, pid, g, ToObserveExternal(id, e), id, db', 1, pays, e.hash);
  }

  lemma ObserveEnds(w: World, pid: Pid, g: Given, id: IntentId, e: Evidence, pays: bool) returns (k: nat)
    requires id in w.db.rows && RowOk(w.db.rows[id]) && Payable(w.db.rows[id].status)
    requires pays <==> BothCalls(w.db, id, e).Committed?
    ensures k <= 2 && Ends(Enter(w, pid, ToObserveExternal(id, e)), pid, g, id, k, pays, e.hash)
  {
    BothCallsAre(w.db, id, e);
    match Call(w.db, id, ObserveExternalPayout(e.hash))
    case Committed(db') =>
      ObservedEnds(w, pid, g, id, e, db', pays);
      k := 2;
    case Rejected =>
      RejectionEnds(w, pid, g, ToObserveExternal(id, e), id, e.hash);
      k := 1;
  }

  predicate Searches(section: Section) {
    section.ExternalBlock? || section.ExternalAfterApproval?
  }

  lemma FindingGoesOn(w: World, pid: Pid, g: Given, section: Section, id: IntentId, row: Row, k: nat, pays: bool)
    requires Payable(row.status) && id in w.chain && Searches(section) && Verified(w, id, row, w.chain[id].evidence)
    requires Ends(Enter(w, pid, ToObserveExternal(id, w.chain[id].evidence)), pid, g, id, k, pays, w.chain[id].evidence.hash)
    ensures Ends(Enter(w, pid, At(section, id, row)), pid, g, id, k + 1, pays, w.chain[id].evidence.hash)
  {
    BlockEnds(w, pid, g, section, id, row, ToObserveExternal(id, w.chain[id].evidence), k, pays, w.chain[id].evidence.hash);
  }

  lemma FindingStops(w: World, pid: Pid, g: Given, section: Section, id: IntentId)
    requires id in w.db.rows && Payable(w.db.rows[id].status) && id in w.chain && Searches(section)
    requires !Verified(w, id, w.db.rows[id], w.chain[id].evidence)
    ensures Ends(Enter(w, pid, At(section, id, w.db.rows[id])), pid, g, id, 1, false, w.chain[id].evidence.hash)
  {
    IdleEnds(w, pid, g, id, w.chain[id].evidence.hash);
    BlockEnds(w, pid, g, section, id, w.db.rows[id], Idle, 0, false, w.chain[id].evidence.hash);
  }

  // Either block that searches for the payout, when the chain has made it.
  lemma FoundEnds(w: World, pid: Pid, g: Given, section: Section, id: IntentId, pays: bool) returns (k: nat)
    requires id in w.db.rows && RowOk(w.db.rows[id]) && Payable(w.db.rows[id].status) && id in w.chain && Searches(section)
    requires pays <==> Verified(w, id, w.db.rows[id], w.chain[id].evidence) && BothCalls(w.db, id, w.chain[id].evidence).Committed?
    ensures k <= 3 && Ends(Enter(w, pid, At(section, id, w.db.rows[id])), pid, g, id, k, pays, w.chain[id].evidence.hash)
  {
    if Verified(w, id, w.db.rows[id], w.chain[id].evidence) {
      var j := ObserveEnds(w, pid, g, id, w.chain[id].evidence, pays);
      FindingGoesOn(w, pid, g, section, id, w.db.rows[id], j, pays);
      k := j + 1;
    } else {
      FindingStops(w, pid, g, section, id);
      k := 1;
    }
  }

  // What decides whether a call settles the payout of a payable intent.
  predicate SettlesInCall(w: World, id: IntentId, g: Given)
    requires id in w.db.rows && Payable(w.db.rows[id].status)
  {
    if id in w.chain then ExternalSettles(w.db, id, w.chain[id])
    else IsRelayed(w, w.db.rows[id], g, g.payout.evidence.hash) && Settleable(w.db, w.db.rows[id], g.payout)
  }

  lemma ExternalSettlesIff(w: World, id: IntentId)
    requires id in w.db.rows && RowOk(w.db.rows[id]) && Payable(w.db.rows[id].status) && id in w.chain
    ensures ExternalSettles(w.db, id, w.chain[id]) <==>
              Verified(w, id, w.db.rows[id], w.chain[id].evidence) && BothCalls(w.db, id, w.chain[id].evidence).Committed?
  {
    BothCallsRest(w.db, id, w.chain[id].evidence);
  }

  // The same, in terms of what the call meets.
  predicate MeetsNoObstacle(w: World, id: IntentId, g: Given)
    requires id in w.db.rows && Payable(w.db.rows[id].status)
  {
    if id in w.chain then Verified(w, id, w.db.rows[id], w.chain[id].evidence) && BothCalls(w.db, id, w.chain[id].evidence).Committed?
    else SettlesInCall(w, id, g)
  }

  lemma SearchGoesOn(w: World, pid: Pid, g: Given, id: IntentId, row: Row, k: nat, pays: bool, hash: Hash)
    requires Payable(row.status) && id !in w.chain && Ends(Enter(w, pid, At(PrepareBlock, id, row)), pid, g, id, k, pays, hash)
    ensures Ends(Enter(w, pid, At(ExternalBlock, id, row)), pid, g, id, k + 1, pays, hash)
  {
    BlockEnds(w, pid, g, ExternalBlock, id, row, At(PrepareBlock, id, row), k, pays, hash);
  }

  lemma ExternalEnds(w: World, pid: Pid, g: Given, id: IntentId, pays: bool) returns (k: nat)
    requires id in w.db.rows && RowOk(w.db.rows[id]) && Payable(w.db.rows[id].status) && g.key !in Keys(w.db.rows[id].payouts) && IsFresh(w, g)
    requires pays <==> MeetsNoObstacle(w, id, g)
    ensures k <= 14 && Ends(Enter(w, pid, At(ExternalBlock, id, w.db.rows[id])), pid, g, id, k, pays, Shown(w, id, g).evidence.hash)
  {
    if id in w.chain {
      k := FoundEnds(w, pid, g, ExternalBlock, id, pays);
    } else {
      var j := PrepareBlockEnds(w, pid, g, id, pays);
      SearchGoesOn(w, pid, g, id, w.db.rows[id], j, pays, g.payout.evidence.hash);
      k := j + 1;
    }
  }

  lemma PassesApproval(w: World, pid: Pid, g: Given, id: IntentId, row: Row, k: nat, pays: bool, hash: Hash)
    requires Payable(row.status) && Ends(Enter(w, pid, At(ExternalBlock, id, row)), pid, g, id, k, pays, hash)
    ensures Ends(Enter(w, pid, At(AwaitingBlock, id, row)), pid, g, id, k + 2, pays, hash)
  {
    BlockEnds(w, pid, g, ApprovalBlock, id, row, At(ExternalBlock, id, row), k, pays, hash);
    BlockEnds(w, pid, g, AwaitingBlock, id, row, At(ApprovalBlock, id, row), k + 1, pays, hash);
  }

  lemma PayableCallEnds(w: World, pid: Pid, g: Given, id: IntentId, pays: bool) returns (k: nat)
    requires id in w.db.rows && RowOk(w.db.rows[id]) && Payable(w.db.rows[id].status) && g.key !in Keys(w.db.rows[id].payouts) && IsFresh(w, g)
    requires pays <==> MeetsNoObstacle(w, id, g)
    ensures k <= 16 && Ends(Enter(w, pid, At(AwaitingBlock, id, w.db.rows[id])), pid, g, id, k, pays, Shown(w, id, g).evidence.hash)
  {
    var j := ExternalEnds(w, pid, g, id, pays);
    PassesApproval(w, pid, g, id, w.db.rows[id], j, pays, Shown(w, id, g).evidence.hash);
    k := j + 2;
  }

  lemma FreshKeyIsNew(w: World, id: IntentId, key: Key)
    requires Safe(w) && id in w.db.rows && key !in w.minted
    ensures key !in Keys(w.db.rows[id].payouts)
  {
  }

  lemma ReachableIsSafe(actions: seq<Action>, w: World)
    requires w == RunAll(Empty(), actions)
    ensures Safe(w)
  {
    EveryRunIsSafe(actions);
  }

  /** In every reachable world, an undisturbed call for a payable intent ends with this payout settled, under its
      own transaction, if and only if: when the chain has paid already, the transaction is free and not that of
      a failed attempt; when it has not, the attempt that is open, or the new one, is sent under that hash and
      nobody else has it or the provider's transaction; and in both cases the event is the intent's own, its
      counters are consistent and they match the pools. */
  lemma CallPaysIff(actions: seq<Action>, pid: Pid, id: IntentId, g: Given)
    requires var w := RunAll(Empty(), actions);
             PhaseOf(w, pid).Idle? && id in w.db.rows && Payable(w.db.rows[id].status) && IsFresh(w, g)
    ensures var (w, w') := (RunAll(Empty(), actions), WholeCall(RunAll(Empty(), actions), pid, id, g));
            && PhaseOf(w', pid).Idle? && id in w'.db.rows
            && (w'.db.rows[id].status == PaidOut <==> SettlesInCall(w, id, g))
            && (SettlesInCall(w, id, g) ==> Last(w'.db.rows[id].payouts).Some? && Last(w'.db.rows[id].payouts).value.hash == Some(Shown(w, id, g).evidence.hash))
  {
    var w := RunAll(Empty(), actions);
    ReachableIsSafe(actions, w);
    FreshKeyIsNew(w, id, g.key);
    SafeCallPaysIff(w, pid, id, g);
  }

  lemma NoObstacleIff(w: World, id: IntentId, g: Given)
    requires LedgerOk(w.db) && id in w.db.rows && Payable(w.db.rows[id].status)
    ensures RowOk(w.db.rows[id]) && (MeetsNoObstacle(w, id, g) <==> SettlesInCall(w, id, g))
  {
    Recovery.RowIsOk(w.db, id);
    if id in w.chain { ExternalSettlesIff(w, id); }
  }

  lemma GoodCallPaysIff(w: World, pid: Pid, id: IntentId, g: Given, pays: bool)
    requires PhaseOf(w, pid).Idle? && id in w.db.rows && RowOk(w.db.rows[id]) && Payable(w.db.rows[id].status)
    requires IsFresh(w, g) && g.key !in Keys(w.db.rows[id].payouts) && (pays <==> MeetsNoObstacle(w, id, g))
    ensures AtRest(WholeCall(w, pid, id, g), pid, id, pays, Shown(w, id, g).evidence.hash)
  {
    var k := PayableCallEnds(w, pid, g, id, pays);
    StartEnters(w, pid, id);
    RestEnds(Enter(w, pid, At(AwaitingBlock, id, w.db.rows[id])), pid, g, id, k, AWAITS, pays, Shown(w, id, g).evidence.hash);
  }

  lemma SafeCallPaysIff(w: World, pid: Pid, id: IntentId, g: Given)
    requires LedgerOk(w.db) && PhaseOf(w, pid).Idle? && id in w.db.rows && Payable(w.db.rows[id].status)
    requires IsFresh(w, g) && g.key !in Keys(w.db.rows[id].payouts)
    ensures AtRest(WholeCall(w, pid, id, g), pid, id, SettlesInCall(w, id, g), Shown(w, id, g).evidence.hash)
  {
    NoObstacleIff(w, id, g);
    GoodCallPaysIff(w, pid, id, g, SettlesInCall(w, id, g));
  }

  lemma StartEnters(w: World, pid: Pid, id: IntentId)
    requires PhaseOf(w, pid).Idle? && id in w.db.rows
    ensures Next(w, Start(pid, id)) == Enter(w, pid, At(AwaitingBlock, id, w.db.rows[id]))
  {
  }
}
