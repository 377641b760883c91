/** Transaction hashes and provider transaction ids over the whole settlement database: whatever the
    procedures are asked to do, no two attempts of any intents ever share one. */
module SettlementReferences {
  import opened Options
  import opened RewardSettlement
  import Drivers = SettlementDrivers

  // Where an attempt is within its row.
  datatype Slot = Slot(payout: bool, i: nat)

  // The two columns with a unique constraint.
  datatype Column = HashColumn | TxColumn

  function Ops(row: Row, payout: bool): seq<Op> {
    if payout then row.payouts else row.approvals
  }

  // What an attempt has in a column; nothing where there is no attempt.
  function RefAt(row: Row, slot: Slot, c: Column): Option<nat> {
    if slot.i >= |Ops(row, slot.payout)| then None
    else if c.HashColumn? then Ops(row, slot.payout)[slot.i].hash
    else Ops(row, slot.payout)[slot.i].tx
  }

  // No value of the column stands in two attempts, of one row or of two.
  ghost predicate Unique(db: Db, c: Column) {
    forall id, slot, id', slot' ::
      id in db.rows && id' in db.rows && (id != id' || slot != slot') && RefAt(db.rows[id], slot, c).Some? ==>
        RefAt(db.rows[id], slot, c) != RefAt(db.rows[id'], slot', c)
  }

  ghost predicate ApprovalsHaveNoTx(db: Db) {
    forall id, i: nat :: id in db.rows ==> RefAt(db.rows[id], Slot(false, i), TxColumn) == None
  }

  ghost predicate ReferencesOk(db: Db) {
    Unique(db, HashColumn) && Unique(db, TxColumn) && ApprovalsHaveNoTx(db)
  }

  // A column of a row changes in one slot at most, and there to a value nobody has.
  ghost predicate OneSlot(row: Row, row': Row, slot: Slot, c: Column, taken: set<nat>) {
    && (forall s :: s != slot ==> RefAt(row', s, c) == RefAt(row, s, c))
    && (RefAt(row', slot, c) == RefAt(row, slot, c) || (RefAt(row', slot, c).Some? && RefAt(row', slot, c).value !in taken))
  }

  ghost predicate Covers(db: Db, c: Column, taken: set<nat>) {
    forall id, slot :: id in db.rows && RefAt(db.rows[id], slot, c).Some? ==> RefAt(db.rows[id], slot, c).value in taken
  }

  lemma HashesCover(db: Db)
    ensures Covers(db, HashColumn, AllHashes(db))
  {
    forall id, slot: Slot | id in db.rows && RefAt(db.rows[id], slot, HashColumn).Some?
      ensures RefAt(db.rows[id], slot, HashColumn).value in AllHashes(db)
    {
      var h := RefAt(db.rows[id], slot, HashColumn).value;
      assert h in Hashes(Ops(db.rows[id], slot.payout));
      assert h in Hashes(db.rows[id].approvals) + Hashes(db.rows[id].payouts);
    }
  }

  lemma TxsCover(db: Db)
    requires ApprovalsHaveNoTx(db)
    ensures Covers(db, TxColumn, AllTxs(db))
  {
    forall id, slot: Slot | id in db.rows && RefAt(db.rows[id], slot, TxColumn).Some?
      ensures RefAt(db.rows[id], slot, TxColumn).value in AllTxs(db)
    {
      assert slot == Slot(slot.payout, slot.i);
      assert slot.payout && db.rows[id].payouts[slot.i].tx.Some?;
    }
  }

  // Replacing one row by one that differs in one slot.
  lemma OneSlotKeepsUnique(db: Db, id: IntentId, row': Row, slot: Slot, c: Column, taken: set<nat>)
    requires Unique(db, c) && Covers(db, c, taken) && id in db.rows && OneSlot(db.rows[id], row', slot, c, taken)
    ensures Unique(db.(rows := db.rows[id := row']), c)
  {
    var rows' := db.rows[id := row'];
    forall a, s, b, t | a in rows' && b in rows' && (a != b || s != t) && RefAt(rows'[a], s, c).Some?
      ensures RefAt(rows'[a], s, c) != RefAt(rows'[b], t, c)
    {
      assert a in db.rows && b in db.rows;
      assert RefAt(db.rows[a], s, c).Some? ==> RefAt(db.rows[a], s, c) != RefAt(db.rows[b], t, c);
      assert RefAt(db.rows[a], s, c).Some? ==> RefAt(db.rows[a], s, c).value in taken;
      assert RefAt(db.rows[b], t, c).Some? ==> RefAt(db.rows[b], t, c).value in taken;
    }
  }

  // ---------------------------------------------------------------- what each procedure does to the columns

  // The new row differs in one slot in the hash column, and in a payout slot at most in the other.
  ghost predicate Refers(row: Row, row': Row, hashes: set<Hash>, txs: set<TxId>) {
    && (exists slot :: OneSlot(row, row', slot, HashColumn, hashes))
    && (exists i: nat :: OneSlot(row, row', Slot(true, i), TxColumn, txs))
  }

  lemma UpdatedSlot(row: Row, row': Row, slot: Slot, op: Op, hashes: set<Hash>, txs: set<TxId>)
    requires slot.i < |Ops(row, slot.payout)| && Ops(row', slot.payout) == Ops(row, slot.payout)[slot.i := op]
    requires Ops(row', !slot.payout) == Ops(row, !slot.payout)
    requires op.hash == Ops(row, slot.payout)[slot.i].hash || (op.hash.Some? && op.hash.value !in hashes)
    requires op.tx == Ops(row, slot.payout)[slot.i].tx || (slot.payout && op.tx.Some? && op.tx.value !in txs)
    ensures Refers(row, row', hashes, txs)
  {
    assert OneSlot(row, row', slot, HashColumn, hashes);
    assert OneSlot(row, row', Slot(true, if slot.payout then slot.i else 0), TxColumn, txs);
  }

  // An attempt is appended, after changes to the old ones that touch neither column.
  lemma AppendedSlot(row: Row, row': Row, payout: bool, before: seq<Op>, op: Op, hashes: set<Hash>, txs: set<TxId>)
    requires |before| == |Ops(row, payout)| && Ops(row', payout) == before + [op] && Ops(row', !payout) == Ops(row, !payout)
    requires forall i :: 0 <= i < |before| ==> before[i].hash == Ops(row, payout)[i].hash && before[i].tx == Ops(row, payout)[i].tx
    requires (op.hash.None? || op.hash.value !in hashes) && op.tx.None?
    ensures Refers(row, row', hashes, txs)
  {
    assert OneSlot(row, row', Slot(payout, |before|), HashColumn, hashes);
    assert OneSlot(row, row', Slot(true, 0), TxColumn, txs);
  }

  lemma SameReferences(row: Row, row': Row, hashes: set<Hash>, txs: set<TxId>)
    requires row'.approvals == row.approvals && row'.payouts == row.payouts
    ensures Refers(row, row', hashes, txs)
  {
    assert OneSlot(row, row', Slot(true, 0), HashColumn, hashes);
    assert OneSlot(row, row', Slot(true, 0), TxColumn, txs);
  }

  lemma ObserveApprovalRefers(row: Row, submitted: bool, hash: Option<Hash>, hashes: set<Hash>, txs: set<TxId>)
    ensures var r := ObserveApprovalRow(row, submitted, hash, hashes); r.Some? ==> Refers(row, r.value, hashes, txs)
  {
    var r := ObserveApprovalRow(row, submitted, hash, hashes);
    if r.Some? {
      var uncertain := LastWhere(row.approvals, (op: Op) => op.status == SubmissionUncertain);
      if r.value == row {
        SameReferences(row, row, hashes, txs);
      } else if submitted && uncertain.Some? {
        UpdatedSlot(row, r.value, Slot(false, uncertain.value), r.value.approvals[uncertain.value], hashes, txs);
      } else {
        AppendedSlot(row, r.value, false, row.approvals, r.value.approvals[|row.approvals|], hashes, txs);
      }
    }
  }

  lemma ConfirmApprovalRefers(row: Row, h: Hash, place: nat, hashes: set<Hash>, txs: set<TxId>)
    ensures var r := ConfirmApprovalRow(row, h, place); r.Some? ==> Refers(row, r.value, hashes, txs)
  {
    var r := ConfirmApprovalRow(row, h, place);
    if r.Some? {
      if r.value == row {
        SameReferences(row, row, hashes, txs);
      } else {
        var i := LastWhere(row.approvals, (op: Op) => op.hash == Some(h) && op.status == Submitted).value;
        UpdatedSlot(row, r.value, Slot(false, i), r.value.approvals[i], hashes, txs);
      }
    }
  }

  lemma FailRefers(row: Row, payout: bool, hashes: set<Hash>, txs: set<TxId>)
    ensures var r := FailOperationRow(row, payout); r.Some? ==> Refers(row, r.value, hashes, txs)
  {
    var r := FailOperationRow(row, payout);
    if r.Some? {
      var i := LastWhere(Ops(row, payout), Active).value;
      UpdatedSlot(row, r.value, Slot(payout, i), Ops(r.value, payout)[i], hashes, txs);
    }
  }

  lemma PrepareRefers(row: Row, key: Key, hashes: set<Hash>, txs: set<TxId>)
    ensures var r := PrepareRow(row, key); r.Some? ==> Refers(row, r.value, hashes, txs)
  {
    var r := PrepareRow(row, key);
    if r.Some? {
      if r.value == row {
        SameReferences(row, row, hashes, txs);
      } else {
        AppendedSlot(row, r.value, true, row.payouts, r.value.payouts[|row.payouts|], hashes, txs);
      }
    }
  }

  lemma AcceptRefers(row: Row, key: Key, tx: TxId, hashes: set<Hash>, txs: set<TxId>)
    ensures var r := AcceptRow(row, key, tx, txs); r.Some? ==> Refers(row, r.value, hashes, txs)
  {
    var r := AcceptRow(row, key, tx, txs);
    if r.Some? {
      var i := LastWhere(row.payouts, (op: Op) => op.key == Some(key) && op.status == SubmissionUncertain).value;
      UpdatedSlot(row, r.value, Slot(true, i), r.value.payouts[i], hashes, txs);
    }
  }

  lemma AttachRefers(row: Row, tx: TxId, hash: Hash, hashes: set<Hash>, txs: set<TxId>)
    ensures var r := AttachRow(row, tx, hash, hashes); r.Some? ==> Refers(row, r.value, hashes, txs)
  {
    var r := AttachRow(row, tx, hash, hashes);
    if r.Some? {
      var i := LastWhere(row.payouts, (op: Op) => op.tx == Some(tx) && op.status == ProviderAccepted).value;
      UpdatedSlot(row, r.value, Slot(true, i), r.value.payouts[i], hashes, txs);
    }
  }

  lemma ObserveExternalRefers(row: Row, hash: Hash, hashes: set<Hash>, txs: set<TxId>)
    ensures var r := ObserveExternalRow(row, hash, hashes); r.Some? ==> Refers(row, r.value, hashes, txs)
  {
    var r := ObserveExternalRow(row, hash, hashes);
    if r.Some? {
      if hash in Hashes(row.payouts) {
        SameReferences(row, row, hashes, txs);
      } else {
        AppendedSlot(row, r.value, true, FailActive(row.payouts), Op(Submitted, None, None, Some(hash), None), hashes, txs);
      }
    }
  }

  lemma ConfirmPayoutRefers(row: Row, hash: Hash, place: nat, hashes: set<Hash>, txs: set<TxId>)
    ensures var r := ConfirmPayoutRow(row, hash, place); r.Some? ==> Refers(row, r.value, hashes, txs)
  {
    var r := ConfirmPayoutRow(row, hash, place);
    if r.Some? {
      var i := LastWhere(row.payouts, (op: Op) => op.hash == Some(hash) && op.status == Submitted).value;
      UpdatedSlot(row, r.value, Slot(true, i), r.value.payouts[i], hashes, txs);
    }
  }

  // ---------------------------------------------------------------- every call, every run

  lemma CallRefers(db: Db, id: IntentId, rpc: Rpc)
    requires id in db.rows && !rpc.CreateIntent? && Call(db, id, rpc).Committed?
    ensures var db' := Call(db, id, rpc).db;
            && id in db'.rows && db'.rows == db.rows[id := db'.rows[id]]
            && Refers(db.rows[id], db'.rows[id], AllHashes(db), AllTxs(db))
  {
    var (row, hashes, txs) := (db.rows[id], AllHashes(db), AllTxs(db));
    match rpc
    case ObserveApproval(submitted, hash) => ObserveApprovalRefers(row, submitted, hash, hashes, txs);
    case ConfirmApproval(hash, place) => ConfirmApprovalRefers(row, hash, place, hashes, txs);
    case CancelIntent => SameReferences(row, CancelRow(row).value, hashes, txs);
    case FailOperation(payout) => FailRefers(row, payout, hashes, txs);
    case PreparePayout(key) => PrepareRefers(row, key, hashes, txs);
    case AcceptPayout(key, tx) => AcceptRefers(row, key, tx, hashes, txs);
    case AttachPayoutHash(tx, hash) => AttachRefers(row, tx, hash, hashes, txs);
    case ObserveExternalPayout(hash) => ObserveExternalRefers(row, hash, hashes, txs);
    case ConfirmPayout(hash, place, _) =>
      if row.status == PaidOut { SameReferences(row, row, hashes, txs); } else { ConfirmPayoutRefers(row, hash, place, hashes, txs); }
  }

  lemma RefersKeepsReferences(db: Db, id: IntentId, row': Row)
    requires ReferencesOk(db) && id in db.rows && Refers(db.rows[id], row', AllHashes(db), AllTxs(db))
    ensures ReferencesOk(db.(rows := db.rows[id := row']))
  {
    var slot :| OneSlot(db.rows[id], row', slot, HashColumn, AllHashes(db));
    var i: nat :| OneSlot(db.rows[id], row', Slot(true, i), TxColumn, AllTxs(db));
    HashesCover(db);
    TxsCover(db);
    OneSlotKeepsUnique(db, id, row', slot, HashColumn, AllHashes(db));
    OneSlotKeepsUnique(db, id, row', Slot(true, i), TxColumn, AllTxs(db));
  }

  lemma CreateKeepsReferences(db: Db, id: IntentId, row: Row)
    requires ReferencesOk(db) && id !in db.rows && row.approvals == [] && row.payouts == []
    ensures ReferencesOk(db.(rows := db.rows[id := row]))
  {
    assert forall slot, c :: RefAt(row, slot, c) == None;
  }

  lemma OnlyRowsMatter(db: Db, db': Db)
    requires ReferencesOk(db) && db'.rows == db.rows
    ensures ReferencesOk(db')
  {
  }

  /** Every committed call, whatever its arguments. */
  lemma CallKeepsReferences(db: Db, id: IntentId, rpc: Rpc)
    requires ReferencesOk(db) && Call(db, id, rpc).Committed?
    ensures ReferencesOk(Call(db, id, rpc).db)
  {
    var db' := Call(db, id, rpc).db;
    if rpc.CreateIntent? {
      CreateKeepsReferences(db, id, db'.rows[id]);
      OnlyRowsMatter(db.(rows := db.rows[id := db'.rows[id]]), db');
    } else {
      CallRefers(db, id, rpc);
      RefersKeepsReferences(db, id, db'.rows[id]);
      OnlyRowsMatter(db.(rows := db.rows[id := db'.rows[id]]), db');
    }
  }

  lemma NextKeepsReferences(w: Drivers.World, a: Drivers.Action)
    requires ReferencesOk(w.db)
    ensures ReferencesOk(Drivers.Next(w, a).db)
  {
    Drivers.DbStep(w, a);
    if Drivers.Commits(w, a) {
      CallKeepsReferences(w.db, Drivers.RequestOf(w, a).id, Drivers.RequestOf(w, a).rpc);
    } else {
      OnlyRowsMatter(w.db, Drivers.Next(w, a).db);
    }
  }

  /** And every interleaving of reconcilers, owner calls, provider and chain answers. */
  lemma {:induction false} EveryRunKeepsReferences(actions: seq<Drivers.Action>)
    ensures ReferencesOk(Drivers.RunAll(Drivers.Empty(), actions).db)
  {
    if actions != [] {
      EveryRunKeepsReferences(actions[..|actions| - 1]);
      NextKeepsReferences(Drivers.RunAll(Drivers.Empty(), actions[..|actions| - 1]), actions[|actions| - 1]);
    }
  }
}
