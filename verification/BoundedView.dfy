/** Which operation a funding intent's recovery follows: chosen from a capped view of its history. */
module BoundedView {
  import opened Options

  const MAX_LIVE: nat := 8
  const MAX_VIEW: nat := 64

  // `kind` and `id` are ranks in the order both sorts use; ids are unique.
  datatype Op = Op(id: nat, created: nat, attempt: nat, kind: nat, updated: nat, live: bool)

  // The database's order: newest first.
  predicate Newer(a: Op, b: Op) {
    a.created > b.created || (a.created == b.created && (a.attempt > b.attempt || (a.attempt == b.attempt &&
    (a.kind > b.kind || (a.kind == b.kind && a.id > b.id)))))
  }

  // The selection's order among live operations: latest attempt first.
  predicate Better(a: Op, b: Op) {
    a.attempt > b.attempt || (a.attempt == b.attempt && (a.created > b.created || (a.created == b.created &&
    (a.kind > b.kind || (a.kind == b.kind && a.id > b.id)))))
  }

  // The selection's order when nothing is live.
  predicate Later(a: Op, b: Op) {
    a.attempt > b.attempt || (a.attempt == b.attempt && (a.updated > b.updated || (a.updated == b.updated &&
    (a.kind > b.kind || (a.kind == b.kind && a.id > b.id)))))
  }

  function Live(ops: seq<Op>): seq<Op> {
    if ops == [] then [] else Live(ops[..|ops| - 1]) + if ops[|ops| - 1].live then [ops[|ops| - 1]] else []
  }

  // The first element of a sorted copy.
  function First(order: (Op, Op) -> bool, ops: seq<Op>): (r: Op)
    requires ops != []
    ensures r in ops
  {
    var last := ops[|ops| - 1];
    if |ops| == 1 then last
    else
      var best := First(order, ops[..|ops| - 1]);
      if order(last, best) then last else best
  }

  // mapFundingIntent's choice: the best live operation, or else the latest one.
  function Select(ops: seq<Op>): Option<Op> {
    if Live(ops) != [] then Some(First(Better, Live(ops)))
    else if ops != [] then Some(First(Later, ops))
    else None
  }

  function InsertNewest(x: Op, sorted: seq<Op>): seq<Op> {
    if sorted == [] || Newer(x, sorted[0]) then [x] + sorted else [sorted[0]] + InsertNewest(x, sorted[1..])
  }

  function SortNewest(ops: seq<Op>): seq<Op> {
    if ops == [] then [] else InsertNewest(ops[|ops| - 1], SortNewest(ops[..|ops| - 1]))
  }

  // A query with its order and limit.
  function Newest(ops: seq<Op>, limit: nat): seq<Op> {
    var sorted := SortNewest(ops);
    if |sorted| > limit then sorted[..limit] else sorted
  }

  // Adds what is new while there is room.
  function Merge(view: seq<Op>, more: seq<Op>): seq<Op> {
    if more == [] then view
    else
      var front := Merge(view, more[..|more| - 1]);
      var last := more[|more| - 1];
      if last in front || |front| >= MAX_VIEW then front else front + [last]
  }

  function View(ops: seq<Op>): seq<Op> {
    Merge(Merge([], Newest(Live(ops), MAX_LIVE)), Newest(ops, MAX_VIEW))
  }

  /** The loop of attachBoundedFundingOperations over the two query results. */
  method AttachBounded(active: seq<Op>, recent: seq<Op>) returns (view: seq<Op>)
    ensures view == Merge(Merge([], active), recent)
  {
    view := [];
    for i := 0 to |active|
      invariant view == Merge([], active[..i])
    {
      assert active[..i + 1][..i] == active[..i];
      if active[i] !in view && |view| < MAX_VIEW { view := view + [active[i]]; }
    }
    assert active[..|active|] == active;
    for i := 0 to |recent|
      invariant view == Merge(Merge([], active), recent[..i])
    {
      assert recent[..i + 1][..i] == recent[..i];
      if recent[i] !in view && |view| < MAX_VIEW { view := view + [recent[i]]; }
    }
    assert recent[..|recent|] == recent;
  }

  // ---------------------------------------------------------------- orders

  ghost predicate UniqueIds(ops: seq<Op>) {
    forall a, b :: a in ops && b in ops && a.id == b.id ==> a == b
  }

  /** Attempt numbers never decrease with creation time. */
  ghost predicate Monotone(ops: seq<Op>) {
    forall a, b :: a in ops && b in ops && a.created < b.created ==> a.attempt <= b.attempt
  }

  lemma {:induction false} LiveMember(ops: seq<Op>, op: Op)
    ensures op in Live(ops) <==> op in ops && op.live
  {
    if ops != [] {
      LiveMember(ops[..|ops| - 1], op);
      assert ops == ops[..|ops| - 1] + [ops[|ops| - 1]];
    }
  }

  lemma {:induction false} FirstIsBest(ops: seq<Op>, op: Op)
    requires ops != [] && op in ops
    ensures !Better(op, First(Better, ops))
  {
    if |ops| > 1 {
      var front := ops[..|ops| - 1];
      assert ops == front + [ops[|ops| - 1]];
      if op in front { FirstIsBest(front, op); }
    }
  }

  lemma {:induction false} InsertMember(x: Op, sorted: seq<Op>, op: Op)
    ensures op in InsertNewest(x, sorted) <==> op == x || op in sorted
  {
    if !(sorted == [] || Newer(x, sorted[0])) {
      InsertMember(x, sorted[1..], op);
      assert sorted == [sorted[0]] + sorted[1..];
    }
  }

  lemma {:induction false} SortMember(ops: seq<Op>, op: Op)
    ensures op in SortNewest(ops) <==> op in ops
  {
    if ops != [] {
      SortMember(ops[..|ops| - 1], op);
      InsertMember(ops[|ops| - 1], SortNewest(ops[..|ops| - 1]), op);
      assert ops == ops[..|ops| - 1] + [ops[|ops| - 1]];
    }
  }

  // The first row of a query is newer than every other.
  lemma {:induction false} SortHead(ops: seq<Op>, op: Op)
    requires ops != [] && op in ops
    ensures SortNewest(ops) != [] && !Newer(op, SortNewest(ops)[0])
  {
    var front, last := ops[..|ops| - 1], ops[|ops| - 1];
    assert ops == front + [last];
    if front != [] && op in front {
      SortHead(front, op);
    } else if front != [] {
      SortHead(front, front[0]);
    }
  }

  lemma {:induction false} MergeFacts(view: seq<Op>, more: seq<Op>)
    ensures view <= Merge(view, more)
    ensures |view| <= MAX_VIEW ==> |Merge(view, more)| <= MAX_VIEW
    ensures forall op :: op in Merge(view, more) ==> op in view || op in more
  {
    if more != [] {
      MergeFacts(view, more[..|more| - 1]);
      assert more == more[..|more| - 1] + [more[|more| - 1]];
    }
  }

  lemma {:induction false} MergeKeepsFirst(more: seq<Op>)
    requires more != []
    ensures more[0] in Merge([], more)
  {
    if |more| > 1 {
      MergeKeepsFirst(more[..|more| - 1]);
    } else {
      assert Merge([], more[..0]) == [];
    }
  }

  lemma NewestMember(ops: seq<Op>, limit: nat, op: Op)
    requires op in Newest(ops, limit)
    ensures op in ops
  {
    SortMember(ops, op);
  }

  /** The view holds at most 64 operations, all from the history, and the newest live one is among them. */
  lemma ViewFacts(ops: seq<Op>)
    ensures |View(ops)| <= MAX_VIEW
    ensures forall op :: op in View(ops) ==> op in ops
    ensures Live(ops) != [] ==> SortNewest(Live(ops)) != [] && SortNewest(Live(ops))[0] in View(ops)
  {
    var active, recent := Newest(Live(ops), MAX_LIVE), Newest(ops, MAX_VIEW);
    MergeFacts([], active);
    MergeFacts(Merge([], active), recent);
    forall op | op in View(ops) ensures op in ops {
      if op in active {
        NewestMember(Live(ops), MAX_LIVE, op);
        LiveMember(ops, op);
      } else {
        NewestMember(ops, MAX_VIEW, op);
      }
    }
    if Live(ops) != [] {
      SortHead(Live(ops), Live(ops)[0]);
      assert active[0] == SortNewest(Live(ops))[0];
      MergeKeepsFirst(active);
      assert active[0] in Merge([], active);
    }
  }

  // ---------------------------------------------------------------- main results

  // When attempts never go back, the newest live operation is the one the selection prefers.
  lemma NewestIsBest(ops: seq<Op>)
    requires UniqueIds(ops) && Monotone(ops) && Live(ops) != []
    ensures SortNewest(Live(ops)) != [] && SortNewest(Live(ops))[0] == First(Better, Live(ops))
  {
    var best := First(Better, Live(ops));
    SortHead(Live(ops), best);
    var head := SortNewest(Live(ops))[0];
    SortMember(Live(ops), head);
    FirstIsBest(Live(ops), head);
    LiveMember(ops, best);
    LiveMember(ops, head);
  }

  lemma {:induction false} FirstIsLatest(ops: seq<Op>, op: Op)
    requires ops != [] && op in ops
    ensures !Later(op, First(Later, ops))
  {
    if |ops| > 1 {
      var front := ops[..|ops| - 1];
      assert ops == front + [ops[|ops| - 1]];
      if op in front { FirstIsLatest(front, op); }
    }
  }

  lemma LiveChoice(ops: seq<Op>, view: seq<Op>)
    requires UniqueIds(ops) && Live(ops) != [] && forall op :: op in view ==> op in ops
    ensures Select(view) == Select(ops) <==> Select(ops).value in view
  {
    var best := First(Better, Live(ops));
    LiveMember(ops, best);
    if best in view {
      LiveMember(view, best);
      var chosen := First(Better, Live(view));
      LiveMember(view, chosen);
      LiveMember(ops, chosen);
      FirstIsBest(Live(view), best);
      FirstIsBest(Live(ops), chosen);
    }
    if Select(view) == Some(best) && Live(view) != [] { LiveMember(view, best); }
  }

  lemma DeadChoice(ops: seq<Op>, view: seq<Op>)
    requires UniqueIds(ops) && Live(ops) == [] && ops != [] && forall op :: op in view ==> op in ops
    ensures Select(view) == Select(ops) <==> Select(ops).value in view
  {
    var best := First(Later, ops);
    if Live(view) != [] {
      LiveMember(view, Live(view)[0]);
      LiveMember(ops, Live(view)[0]);
    }
    if best in view {
      FirstIsLatest(view, best);
      FirstIsLatest(ops, First(Later, view));
    }
  }

  // The same choice is made from a part of the history exactly when the choice is in it.
  lemma ChoiceIsViewed(ops: seq<Op>, view: seq<Op>)
    requires UniqueIds(ops) && ops != [] && forall op :: op in view ==> op in ops
    ensures Select(view) == Select(ops) <==> Select(ops).value in view
  {
    if Live(ops) != [] { LiveChoice(ops, view); } else { DeadChoice(ops, view); }
  }

  // ---------------------------------------------------------------- what is in the view

  ghost predicate Distinct(ops: seq<Op>) {
    forall i, j :: 0 <= i < j < |ops| ==> ops[i].id != ops[j].id
  }

  ghost predicate SortedNewest(ops: seq<Op>) {
    forall i, j :: 0 <= i < j < |ops| ==> Newer(ops[i], ops[j])
  }

  // How many operations are newer.
  function Rank(ops: seq<Op>, op: Op): nat {
    if ops == [] then 0 else Rank(ops[..|ops| - 1], op) + if Newer(ops[|ops| - 1], op) then 1 else 0
  }

  lemma {:induction false} RankConcat(a: seq<Op>, b: seq<Op>, op: Op)
    ensures Rank(a + b, op) == Rank(a, op) + Rank(b, op)
    decreases |b|
  {
    if b == [] {
      assert a + b == a;
    } else {
      RankConcat(a, b[..|b| - 1], op);
      assert (a + b)[..|a + b| - 1] == a + b[..|b| - 1];
    }
  }

  lemma {:induction false} RankAll(ops: seq<Op>, op: Op)
    requires forall i :: 0 <= i < |ops| ==> Newer(ops[i], op)
    ensures Rank(ops, op) == |ops|
  {
    if ops != [] { RankAll(ops[..|ops| - 1], op); }
  }

  lemma {:induction false} RankNone(ops: seq<Op>, op: Op)
    requires forall i :: 0 <= i < |ops| ==> !Newer(ops[i], op)
    ensures Rank(ops, op) == 0
  {
    if ops != [] { RankNone(ops[..|ops| - 1], op); }
  }

  lemma RankOne(x: Op, op: Op)
    ensures Rank([x], op) == if Newer(x, op) then 1 else 0
  {
    assert [x][..0] == [];
  }

  lemma {:induction false} RankInsert(x: Op, sorted: seq<Op>, op: Op)
    ensures Rank(InsertNewest(x, sorted), op) == Rank(sorted, op) + if Newer(x, op) then 1 else 0
  {
    RankOne(x, op);
    if sorted == [] || Newer(x, sorted[0]) {
      RankConcat([x], sorted, op);
    } else {
      RankInsert(x, sorted[1..], op);
      assert sorted == [sorted[0]] + sorted[1..];
      RankConcat([sorted[0]], sorted[1..], op);
      RankConcat([sorted[0]], InsertNewest(x, sorted[1..]), op);
    }
  }

  lemma {:induction false} RankSort(ops: seq<Op>, op: Op)
    ensures Rank(SortNewest(ops), op) == Rank(ops, op)
  {
    if ops != [] {
      RankSort(ops[..|ops| - 1], op);
      RankInsert(ops[|ops| - 1], SortNewest(ops[..|ops| - 1]), op);
    }
  }

  lemma {:induction false} InsertSorts(x: Op, sorted: seq<Op>)
    requires SortedNewest(sorted) && forall i :: 0 <= i < |sorted| ==> sorted[i].id != x.id
    ensures SortedNewest(InsertNewest(x, sorted))
  {
    if !(sorted == [] || Newer(x, sorted[0])) {
      InsertSorts(x, sorted[1..]);
      var rest := InsertNewest(x, sorted[1..]);
      forall j | 0 <= j < |rest| ensures Newer(sorted[0], rest[j]) {
        InsertMember(x, sorted[1..], rest[j]);
      }
    }
  }

  lemma {:induction false} SortSorts(ops: seq<Op>)
    requires Distinct(ops)
    ensures SortedNewest(SortNewest(ops))
  {
    if ops != [] {
      var front, last := ops[..|ops| - 1], ops[|ops| - 1];
      SortSorts(front);
      forall i | 0 <= i < |SortNewest(front)| ensures SortNewest(front)[i].id != last.id { SortMember(front, SortNewest(front)[i]); }
      InsertSorts(last, SortNewest(front));
    }
  }

  lemma OlderIsNotNewer(a: Op, b: Op)
    requires Newer(a, b)
    ensures !Newer(b, a)
  {
  }

  // In a sorted list an operation stands at its rank.
  lemma SortedRank(sorted: seq<Op>, k: nat)
    requires SortedNewest(sorted) && k < |sorted|
    ensures Rank(sorted, sorted[k]) == k
  {
    var (before, after) := (sorted[..k], sorted[k..]);
    RankAll(before, sorted[k]);
    forall i | 0 <= i < |after| ensures !Newer(after[i], sorted[k]) {
      if i > 0 { OlderIsNotNewer(sorted[k], sorted[k + i]); }
    }
    RankNone(after, sorted[k]);
    RankConcat(before, after, sorted[k]);
    assert sorted == before + after;
  }

  // So it stands there in the query's order.
  lemma StandsAtRank(ops: seq<Op>, op: Op)
    requires Distinct(ops) && op in ops
    ensures SortedNewest(SortNewest(ops))
    ensures Rank(ops, op) < |SortNewest(ops)| && SortNewest(ops)[Rank(ops, op)] == op
  {
    SortSorts(ops);
    SortMember(ops, op);
    var k :| 0 <= k < |SortNewest(ops)| && SortNewest(ops)[k] == op;
    SortedRank(SortNewest(ops), k);
    RankSort(ops, op);
  }

  lemma SortedNoDup(sorted: seq<Op>, i: nat, k: nat)
    requires SortedNewest(sorted) && i < |sorted| && k < |sorted| && sorted[i] == sorted[k]
    ensures i == k
  {
    if i < k { OlderIsNotNewer(sorted[i], sorted[k]); }
    if k < i { OlderIsNotNewer(sorted[k], sorted[i]); }
  }

  lemma InNewestIff(ops: seq<Op>, limit: nat, op: Op)
    requires Distinct(ops) && op in ops
    ensures op in Newest(ops, limit) <==> Rank(ops, op) < limit
  {
    StandsAtRank(ops, op);
    var (sorted, newest) := (SortNewest(ops), Newest(ops, limit));
    if op in newest {
      var i :| 0 <= i < |newest| && newest[i] == op;
      SortedNoDup(sorted, i, Rank(ops, op));
    }
    if Rank(ops, op) < limit { assert newest[Rank(ops, op)] == op; }
  }

  ghost predicate NoDup(ops: seq<Op>) {
    forall i, j :: 0 <= i < j < |ops| ==> ops[i] != ops[j]
  }

  lemma {:induction false} NoDupIsShort(a: seq<Op>, b: seq<Op>)
    requires NoDup(a) && forall op :: op in a ==> op in b
    ensures |a| <= |b|
  {
    if a != [] {
      var front, last := a[..|a| - 1], a[|a| - 1];
      assert last in a;
      var i :| 0 <= i < |b| && b[i] == last;
      var rest := b[..i] + b[i + 1..];
      forall op | op in front ensures op in rest {
        assert op in a && op != last;
        var k :| 0 <= k < |b| && b[k] == op;
        assert rest[if k < i then k else k - 1] == op;
      }
      NoDupIsShort(front, rest);
    }
  }

  lemma {:induction false} MergeNoDup(view: seq<Op>, more: seq<Op>)
    requires NoDup(view)
    ensures NoDup(Merge(view, more))
  {
    if more != [] { MergeNoDup(view, more[..|more| - 1]); }
  }

  lemma {:induction false} MergeConcat(view: seq<Op>, a: seq<Op>, b: seq<Op>)
    ensures Merge(view, a + b) == Merge(Merge(view, a), b)
    decreases |b|
  {
    if b == [] {
      assert a + b == a;
    } else {
      MergeConcat(view, a, b[..|b| - 1]);
      assert (a + b)[..|a + b| - 1] == a + b[..|b| - 1];
    }
  }

  // There is room for an operation if all the merge holds before it stands before it, in fewer than 64 places.
  lemma MergeTakes(view: seq<Op>, before: seq<Op>, op: Op, after: seq<Op>)
    requires NoDup(view) && (forall other :: other in view ==> other in before) && |before| < MAX_VIEW
    ensures op in Merge(view, before + [op] + after)
  {
    MergeNoDup(view, before);
    MergeFacts(view, before);
    NoDupIsShort(Merge(view, before), before);
    var taken := Merge(view, before + [op]);
    assert (before + [op])[..|before|] == before;
    assert op in taken;
    MergeConcat(view, before + [op], after);
    MergeFacts(taken, after);
    assert op in Merge(taken, after)[..|taken|];
  }

  lemma TakesNth(view: seq<Op>, more: seq<Op>, k: nat, op: Op)
    requires NoDup(view) && k < MAX_VIEW && k < |more| && more[k] == op && forall other :: other in view ==> other in more[..k]
    ensures op in Merge(view, more)
  {
    assert more == more[..k] + [op] + more[k + 1..];
    MergeTakes(view, more[..k], op, more[k + 1..]);
  }

  lemma {:induction false} LiveDistinct(ops: seq<Op>)
    requires Distinct(ops)
    ensures Distinct(Live(ops))
  {
    if ops != [] {
      var front := ops[..|ops| - 1];
      LiveDistinct(front);
      forall i | 0 <= i < |Live(front)| ensures Live(front)[i].id != ops[|ops| - 1].id { LiveMember(front, Live(front)[i]); }
    }
  }

  lemma NewestAt(ops: seq<Op>, limit: nat, op: Op)
    requires Distinct(ops) && op in ops && Rank(ops, op) < limit
    ensures Rank(ops, op) < |Newest(ops, limit)| && Newest(ops, limit)[Rank(ops, op)] == op
  {
    StandsAtRank(ops, op);
  }

  lemma ActiveIsViewed(ops: seq<Op>, op: Op)
    requires Distinct(ops) && op in ops && op.live && Rank(Live(ops), op) < MAX_LIVE
    ensures op in View(ops)
  {
    var active := Newest(Live(ops), MAX_LIVE);
    LiveDistinct(ops);
    LiveMember(ops, op);
    NewestAt(Live(ops), MAX_LIVE, op);
    TakesNth([], active, Rank(Live(ops), op), op);
    MergeFacts(Merge([], active), Newest(ops, MAX_VIEW));
  }

  // A newer operation stands before an older one.
  lemma NewerStandsBefore(ops: seq<Op>, a: Op, b: Op)
    requires Distinct(ops) && a in ops && b in ops && Newer(a, b)
    ensures Rank(ops, a) < Rank(ops, b)
  {
    StandsAtRank(ops, a);
    StandsAtRank(ops, b);
    OlderIsNotNewer(a, b);
  }

  // The capped live operations are newer than a live one that is not among them.
  lemma ActiveIsNewer(ops: seq<Op>, op: Op, other: Op)
    requires Distinct(ops) && op in ops && op.live && Rank(Live(ops), op) >= MAX_LIVE && other in Newest(Live(ops), MAX_LIVE)
    ensures other in ops && Newer(other, op)
  {
    LiveDistinct(ops);
    LiveMember(ops, op);
    NewestMember(Live(ops), MAX_LIVE, other);
    LiveMember(ops, other);
    InNewestIff(Live(ops), MAX_LIVE, other);
    StandsAtRank(Live(ops), other);
    StandsAtRank(Live(ops), op);
  }

  lemma StandsBefore(ops: seq<Op>, limit: nat, a: Op, b: Op)
    requires Distinct(ops) && a in ops && b in ops && Newer(a, b) && Rank(ops, b) < limit
    ensures Rank(ops, b) < |Newest(ops, limit)| && a in Newest(ops, limit)[..Rank(ops, b)]
  {
    NewerStandsBefore(ops, a, b);
    NewestAt(ops, limit, a);
    NewestAt(ops, limit, b);
    assert Newest(ops, limit)[..Rank(ops, b)][Rank(ops, a)] == a;
  }

  lemma RecentIsViewed(ops: seq<Op>, op: Op)
    requires Distinct(ops) && op in ops && Rank(ops, op) < MAX_VIEW
    requires if op.live then Rank(Live(ops), op) >= MAX_LIVE else Live(ops) == []
    ensures op in View(ops)
  {
    var (active, recent, k) := (Newest(Live(ops), MAX_LIVE), Newest(ops, MAX_VIEW), Rank(ops, op));
    NewestAt(ops, MAX_VIEW, op);
    MergeNoDup([], active);
    MergeFacts([], active);
    forall other | other in Merge([], active) ensures other in recent[..k] {
      if op.live {
        ActiveIsNewer(ops, op, other);
        StandsBefore(ops, MAX_VIEW, other, op);
      }
    }
    TakesNth(Merge([], active), recent, k, op);
  }

  // It is live with fewer than 8 newer live operations, or has fewer than 64 newer ones.
  predicate RanksHigh(ops: seq<Op>, op: Op) {
    (op.live && Rank(Live(ops), op) < MAX_LIVE) || Rank(ops, op) < MAX_VIEW
  }

  lemma ViewedIff(ops: seq<Op>, op: Op)
    requires Distinct(ops) && op in ops && (op.live || Live(ops) == [])
    ensures op in View(ops) <==> RanksHigh(ops, op)
  {
    var (active, recent) := (Newest(Live(ops), MAX_LIVE), Newest(ops, MAX_VIEW));
    if RanksHigh(ops, op) {
      if op.live && Rank(Live(ops), op) < MAX_LIVE { ActiveIsViewed(ops, op); } else { RecentIsViewed(ops, op); }
    }
    if op in View(ops) {
      MergeFacts([], active);
      MergeFacts(Merge([], active), recent);
      LiveDistinct(ops);
      LiveMember(ops, op);
      if op in active {
        NewestMember(Live(ops), MAX_LIVE, op);
        InNewestIff(Live(ops), MAX_LIVE, op);
      } else {
        InNewestIff(ops, MAX_VIEW, op);
      }
    }
  }

  lemma ChosenFrom(ops: seq<Op>)
    requires ops != []
    ensures Select(ops).Some? && Select(ops).value in ops && (Select(ops).value.live || Live(ops) == [])
  {
    if Live(ops) != [] { LiveMember(ops, First(Better, Live(ops))); }
  }

  /** For every history, live operations or not: the capped view selects the operation that the whole history
      selects exactly when that operation is live with fewer than 8 newer live ones, or has fewer than 64
      newer ones altogether. */
  lemma SameSelectionIff(ops: seq<Op>)
    requires Distinct(ops)
    ensures Select(View(ops)) == Select(ops) <==> (Select(ops).Some? ==> RanksHigh(ops, Select(ops).value))
  {
    ViewFacts(ops);
    if ops == [] {
      assert forall op :: op in View(ops) ==> op in ops;
      assert View(ops) == [];
    } else {
      ChosenFrom(ops);
      ChoiceIsViewed(ops, View(ops));
      ViewedIff(ops, Select(ops).value);
    }
  }

  /** And it does whenever something is live and attempt numbers never decrease with creation time. */
  lemma BoundedViewRefines(ops: seq<Op>)
    requires UniqueIds(ops) && Monotone(ops) && Live(ops) != []
    ensures |View(ops)| <= MAX_VIEW && Select(View(ops)) == Select(ops)
  {
    ViewFacts(ops);
    NewestIsBest(ops);
    ChoiceIsViewed(ops, View(ops));
  }

  // Nothing of the history comes after it: neither a later attempt, nor of the same attempt one updated later, nor
  // of the same moment one of a higher kind or number.
  ghost predicate IsLatest(ops: seq<Op>, op: Op) {
    && (forall other :: other in ops ==> other.attempt <= op.attempt)
    && (forall other :: other in ops && other.attempt == op.attempt ==> other.updated <= op.updated)
    && (forall other :: other in ops && other.attempt == op.attempt && other.updated == op.updated ==> other.kind <= op.kind)
    && (forall other :: other in ops && other.attempt == op.attempt && other.updated == op.updated && other.kind == op.kind ==> other.id <= op.id)
  }

  // The same among the live ones, by creation, which polling does not touch.
  ghost predicate IsNewestAttempt(ops: seq<Op>, op: Op) {
    && (forall other :: other in ops && other.live ==> other.attempt <= op.attempt)
    && (forall other :: other in ops && other.live && other.attempt == op.attempt ==> other.created <= op.created)
    && (forall other :: other in ops && other.live && other.attempt == op.attempt && other.created == op.created ==> other.kind <= op.kind)
    && (forall other :: other in ops && other.live && other.attempt == op.attempt && other.created == op.created && other.kind == op.kind ==> other.id <= op.id)
  }

  /** While an operation is live, the selected one is that of the newest attempt, the one created last in it. */
  lemma LiveSelectionIff(ops: seq<Op>, op: Op)
    requires UniqueIds(ops) && Live(ops) != []
    ensures Select(ops) == Some(op) <==> op in ops && op.live && IsNewestAttempt(ops, op)
  {
    var best := First(Better, Live(ops));
    LiveMember(ops, best);
    forall other | other in ops && other.live ensures !Better(other, best) {
      LiveMember(ops, other);
      FirstIsBest(Live(ops), other);
    }
    assert IsNewestAttempt(ops, best);
  }

  /** When none is, it is that of the newest attempt, the one touched last in it. */
  lemma DeadSelectionIff(ops: seq<Op>, op: Op)
    requires UniqueIds(ops) && Live(ops) == []
    ensures Select(ops) == Some(op) <==> op in ops && IsLatest(ops, op)
  {
    if ops != [] {
      var best := First(Later, ops);
      forall other | other in ops ensures !Later(other, best) { FirstIsLatest(ops, other); }
      assert IsLatest(ops, best);
    }
  }

  // Everything about an operation that polling does not touch.
  function Terms(op: Op): Op { op.(updated := 0) }

  ghost predicate Has(ops: seq<Op>, terms: Op) {
    exists other :: other in ops && Terms(other) == terms
  }

  // The same operations, in any order and with any update times.
  ghost predicate SameHistory(a: seq<Op>, b: seq<Op>) {
    forall terms :: Has(a, terms) <==> Has(b, terms)
  }

  lemma Counterpart(a: seq<Op>, b: seq<Op>, op: Op) returns (other: Op)
    requires SameHistory(a, b) && op in a
    ensures other in b && Terms(other) == Terms(op)
  {
    assert Has(a, Terms(op));
    other :| other in b && Terms(other) == Terms(op);
  }

  // The choice from one history is not beaten by any live operation of the other.
  lemma ChoiceIsUnbeaten(a: seq<Op>, b: seq<Op>, op: Op)
    requires SameHistory(a, b) && op in Live(a)
    ensures Live(b) != [] && !Better(op, First(Better, Live(b)))
  {
    LiveMember(a, op);
    var other := Counterpart(a, b, op);
    LiveMember(b, other);
    FirstIsBest(Live(b), other);
    SameTermsSameOrder(op, other, First(Better, Live(b)));
  }

  lemma SameTermsSameOrder(a: Op, b: Op, c: Op)
    requires Terms(a) == Terms(b)
    ensures Better(a, c) <==> Better(b, c)
  {
    assert a.attempt == Terms(a).attempt && a.created == Terms(a).created && a.kind == Terms(a).kind && a.id == Terms(a).id;
    assert b.attempt == Terms(b).attempt && b.created == Terms(b).created && b.kind == Terms(b).kind && b.id == Terms(b).id;
  }

  lemma Unordered(a: Op, b: Op)
    requires !Better(a, b) && !Better(b, a)
    ensures a.id == b.id
  {
  }

  /** Neither the order of the rows nor polling, which only touches update times, changes the choice. */
  lemma SelectionIgnoresOrderAndPolling(a: seq<Op>, b: seq<Op>)
    requires SameHistory(a, b) && Live(a) != []
    ensures Live(b) != [] && Select(b).value.id == Select(a).value.id
  {
    var x := First(Better, Live(a));
    ChoiceIsUnbeaten(a, b, x);
    var y := First(Better, Live(b));
    ChoiceIsUnbeaten(b, a, y);
    Unordered(x, y);
  }
}
