/** What every run of key lookups and responses keeps, under a clock that never goes back. */
module KeyCacheSafety {
  import opened KeyCache
  import opened Options

  // One key fetch: when it was charged, and when the fixed window it was charged to had started.
  datatype Charge = Charge(time: nat, start: nat)

  // `fetched`, `charges`, `found` and `missed` are history: ids fetched, fetches charged, keys received and ids said
  // not to exist, and when.
  datatype World = World(s: State, now: nat, fetched: set<KeyId>, charges: seq<Charge>, found: set<(KeyId, PublicKey, nat)>, missed: set<(KeyId, nat)>)

  datatype Event =
    | Lookup(id: KeyId, pruneAt: nat, checkAt: nat, budgetAt: nat)
    | Receive(id: KeyId, response: Response, at: nat)

  function Next(w: World, configured: bool, e: Event): World {
    match e
    case Lookup(id, pruneAt, checkAt, budgetAt) =>
      if !(w.now <= pruneAt <= checkAt <= budgetAt) then w
      else
        var s := LookupState(w.s, configured, id, pruneAt, checkAt, budgetAt);
        if LookupResult(w.s, configured, id, pruneAt, checkAt, budgetAt) != Fetch then w.(s := s, now := budgetAt)
        else w.(s := s, now := budgetAt, fetched := w.fetched + {id}, charges := w.charges + [Charge(budgetAt, s.windowStart)])
    case Receive(id, response, at) =>
      if at < w.now || id !in w.fetched then w
      else
        w.(s := ResponseState(w.s, id, response, at), now := at,
           found := if response.Found? then w.found + {(id, response.key, at)} else w.found,
           missed := if response.NoSuchKey? then w.missed + {(id, at)} else w.missed)
  }

  function RunAll(configured: bool, start: nat, events: seq<Event>): World {
    if events == [] then World(State([], [], start, 0), start, {}, [], {}, {})
    else Next(RunAll(configured, start, events[..|events| - 1]), configured, events[|events| - 1])
  }

  // ---------------------------------------------------------------- the caches

  ghost predicate Distinct<T>(cache: seq<Entry<T>>) {
    forall i, j :: 0 <= i < j < |cache| ==> cache[i].id != cache[j].id
  }

  ghost predicate Bounded<T>(cache: seq<Entry<T>>) {
    |cache| <= MAX_ENTRIES && Distinct(cache)
  }

  // Each cached key is what a fetch for its id returned, one TTL before it expires.
  ghost predicate Received(w: World) {
    forall e :: e in w.s.keys ==> e.expires >= POSITIVE_TTL_MS && (e.id, e.value, e.expires - POSITIVE_TTL_MS) in w.found
  }

  // Each cached failure is what a fetch for its id answered, one shorter TTL before it expires.
  ghost predicate Missed(w: World) {
    forall e :: e in w.s.unknown ==> e.expires >= NEGATIVE_TTL_MS && (e.id, e.expires - NEGATIVE_TTL_MS) in w.missed
  }

  ghost predicate CachesOk(w: World) {
    Bounded(w.s.keys) && Bounded(w.s.unknown) && Received(w) && Missed(w)
  }

  lemma LastIsNew<T>(cache: seq<Entry<T>>, e: Entry<T>)
    requires cache != [] && Distinct(cache) && e in cache[..|cache| - 1]
    ensures e.id != cache[|cache| - 1].id
  {
    var i :| 0 <= i < |cache| - 1 && cache[i] == e;
  }

  lemma AppendDistinct<T>(cache: seq<Entry<T>>, e: Entry<T>)
    requires Distinct(cache) && forall i :: 0 <= i < |cache| ==> cache[i].id != e.id
    ensures Distinct(cache + [e])
  {
  }

  lemma {:induction false} LiveMember<T>(cache: seq<Entry<T>>, now: nat, e: Entry<T>)
    ensures e in Live(cache, now) <==> e in cache && e.expires > now
  {
    if cache != [] {
      LiveMember(cache[..|cache| - 1], now, e);
      assert cache == cache[..|cache| - 1] + [cache[|cache| - 1]];
    }
  }

  lemma {:induction false} RemoveMember<T>(cache: seq<Entry<T>>, id: KeyId, e: Entry<T>)
    ensures e in Remove(cache, id) <==> e in cache && e.id != id
  {
    if cache != [] {
      RemoveMember(cache[..|cache| - 1], id, e);
      assert cache == cache[..|cache| - 1] + [cache[|cache| - 1]];
    }
  }

  lemma {:induction false} LiveIsPart<T>(cache: seq<Entry<T>>, now: nat)
    requires Distinct(cache)
    ensures Distinct(Live(cache, now)) && |Live(cache, now)| <= |cache|
  {
    if cache != [] {
      var front, last := cache[..|cache| - 1], cache[|cache| - 1];
      LiveIsPart(front, now);
      var live := Live(front, now);
      forall i | 0 <= i < |live| ensures live[i].id != last.id {
        LiveMember(front, now, live[i]);
        LastIsNew(cache, live[i]);
      }
      AppendDistinct(live, last);
    }
  }

  lemma {:induction false} RemoveIsPart<T>(cache: seq<Entry<T>>, id: KeyId)
    requires Distinct(cache)
    ensures Distinct(Remove(cache, id)) && |Remove(cache, id)| <= |cache|
  {
    if cache != [] {
      var front, last := cache[..|cache| - 1], cache[|cache| - 1];
      RemoveIsPart(front, id);
      var kept := Remove(front, id);
      forall i | 0 <= i < |kept| ensures kept[i].id != last.id {
        RemoveMember(front, id, kept[i]);
        LastIsNew(cache, kept[i]);
      }
      AppendDistinct(kept, last);
    }
  }

  lemma NewestIsTail<T>(all: seq<Entry<T>>)
    requires Distinct(all) && all != []
    ensures Bounded(Newest(all)) && Newest(all) == all[|all| - |Newest(all)|..] && Newest(all) != []
  {
    if |all| > MAX_ENTRIES { DropKeepsDistinct(all, |all| - MAX_ENTRIES); }
  }

  lemma DropKeepsDistinct<T>(all: seq<Entry<T>>, n: nat)
    requires Distinct(all) && n <= |all|
    ensures Distinct(all[n..])
  {
    var tail := all[n..];
    forall i, j | 0 <= i < j < |tail| ensures tail[i].id != tail[j].id {
      assert tail[i] == all[n + i] && tail[j] == all[n + j];
    }
  }

  /** Inserting keeps the bound, and what is inserted survives the eviction it may cause. */
  lemma PutKeepsNewest<T>(cache: seq<Entry<T>>, e: Entry<T>)
    requires Bounded(cache)
    ensures Bounded(Put(cache, e)) && Put(cache, e) != [] && Put(cache, e)[|Put(cache, e)| - 1] == e
    ensures forall i :: 0 <= i < |Put(cache, e)| - 1 ==> Put(cache, e)[i] in cache && Put(cache, e)[i].id != e.id
  {
    RemoveIsPart(cache, e.id);
    var kept := Remove(cache, e.id);
    forall i | 0 <= i < |kept| ensures kept[i] in cache && kept[i].id != e.id {
      assert kept[i] in kept;
      RemoveMember(cache, e.id, kept[i]);
    }
    AppendDistinct(kept, e);
    NewestIsTail(kept + [e]);
  }

  lemma PruneKeepsCaches(w: World, pruneAt: nat)
    requires CachesOk(w)
    ensures var p := Pruned(w.s, pruneAt);
            && Bounded(p.keys) && Bounded(p.unknown) && (forall e :: e in p.keys ==> e in w.s.keys && e.expires > pruneAt)
            && (forall e :: e in p.unknown ==> e in w.s.unknown && e.expires > pruneAt)
  {
    LiveIsPart(w.s.keys, pruneAt);
    LiveIsPart(w.s.unknown, pruneAt);
    forall e | e in Live(w.s.keys, pruneAt) ensures e in w.s.keys && e.expires > pruneAt { LiveMember(w.s.keys, pruneAt, e); }
    forall e | e in Live(w.s.unknown, pruneAt) ensures e in w.s.unknown && e.expires > pruneAt { LiveMember(w.s.unknown, pruneAt, e); }
  }

  lemma LookupKeepsCaches(w: World, configured: bool, id: KeyId, pruneAt: nat, checkAt: nat, budgetAt: nat)
    requires CachesOk(w)
    ensures var s := LookupState(w.s, configured, id, pruneAt, checkAt, budgetAt);
            && Bounded(s.keys) && Bounded(s.unknown) && (forall e :: e in s.keys ==> e in w.s.keys)
            && (forall e :: e in s.unknown ==> e in w.s.unknown)
  {
    PruneKeepsCaches(w, pruneAt);
    var p := Pruned(w.s, pruneAt);
    RemoveIsPart(p.unknown, id);
    forall e | e in Remove(p.unknown, id) ensures e in p.unknown { RemoveMember(p.unknown, id, e); }
  }

  lemma FoundKeepsCaches(w: World, id: KeyId, key: PublicKey, at: nat, found: set<(KeyId, PublicKey, nat)>)
    requires CachesOk(w) && w.found <= found && (id, key, at) in found
    ensures CachesOk(w.(s := ResponseState(w.s, id, Found(key), at), now := at, found := found))
  {
    var e := Entry(id, key, at + POSITIVE_TTL_MS);
    PutKeepsNewest(w.s.keys, e);
    var put := Put(w.s.keys, e);
    forall other | other in put
      ensures other.expires >= POSITIVE_TTL_MS && (other.id, other.value, other.expires - POSITIVE_TTL_MS) in found
    {
      var i :| 0 <= i < |put| && put[i] == other;
    }
  }

  lemma MissKeepsCaches(w: World, id: KeyId, at: nat, missed: set<(KeyId, nat)>)
    requires CachesOk(w) && w.missed <= missed && (id, at) in missed
    ensures CachesOk(w.(s := ResponseState(w.s, id, NoSuchKey, at), now := at, missed := missed))
  {
    var e := Entry(id, (), at + NEGATIVE_TTL_MS);
    PutKeepsNewest(w.s.unknown, e);
    var put := Put(w.s.unknown, e);
    forall other | other in put ensures other.expires >= NEGATIVE_TTL_MS && (other.id, other.expires - NEGATIVE_TTL_MS) in missed {
      var i :| 0 <= i < |put| && put[i] == other;
    }
  }

  lemma NextKeepsCaches(w: World, configured: bool, e: Event)
    requires CachesOk(w)
    ensures CachesOk(Next(w, configured, e))
  {
    match e
    case Lookup(id, pruneAt, checkAt, budgetAt) => LookupKeepsCaches(w, configured, id, pruneAt, checkAt, budgetAt);
    case Receive(id, response, at) =>
      if response.Found? { FoundKeepsCaches(w, id, response.key, at, w.found + {(id, response.key, at)}); }
      if response.NoSuchKey? { MissKeepsCaches(w, id, at, w.missed + {(id, at)}); }
  }

  // The key was received for this id less than one TTL before the caches were pruned.
  ghost predicate ReceivedLately(w: World, id: KeyId, key: PublicKey, pruneAt: nat) {
    exists at: nat :: pruneAt < at + POSITIVE_TTL_MS && (id, key, at) in w.found
  }

  // ---------------------------------------------------------------- the lookup budget

  ghost predicate Charges(w: World) {
    && w.s.count <= MAX_LOOKUPS && w.s.count <= |w.charges| && w.s.windowStart <= w.now
    && (forall i :: 0 <= i < |w.charges| ==> w.charges[i].start <= w.charges[i].time < w.charges[i].start + WINDOW_MS && w.charges[i].time <= w.now)
    && (forall i, j :: 0 <= i < j < |w.charges| ==> w.charges[i].time <= w.charges[j].time && w.charges[i].start <= w.charges[j].start)
    && (forall i, j :: 0 <= i < i + MAX_LOOKUPS <= j < |w.charges| ==> w.charges[i].start + WINDOW_MS <= w.charges[j].start)
    && (forall i :: |w.charges| - w.s.count <= i < |w.charges| ==> w.charges[i].start == w.s.windowStart)
    && (forall i :: 0 <= i < |w.charges| - w.s.count ==> w.charges[i].start + WINDOW_MS <= w.s.windowStart)
  }

  lemma WindowKeepsCharges(w: World, at: nat)
    requires Charges(w) && w.now <= at
    ensures Charges(w.(s := Window(w.s, at), now := at)) && at < Window(w.s, at).windowStart + WINDOW_MS
  {
  }

  lemma ChargeKeepsCharges(w: World)
    requires Charges(w) && w.s.count < MAX_LOOKUPS && w.now < w.s.windowStart + WINDOW_MS
    ensures Charges(w.(s := w.s.(count := w.s.count + 1), charges := w.charges + [Charge(w.now, w.s.windowStart)]))
  {
  }

  lemma OnlyBudgetMatters(w: World, w': World)
    requires Charges(w) && w'.charges == w.charges && w'.now >= w.now
    requires w'.s.windowStart == w.s.windowStart && w'.s.count == w.s.count
    ensures Charges(w')
  {
  }

  lemma NextKeepsCharges(w: World, configured: bool, e: Event)
    requires Charges(w)
    ensures Charges(Next(w, configured, e))
  {
    var w' := Next(w, configured, e);
    if e.Lookup? && w.now <= e.pruneAt <= e.checkAt <= e.budgetAt {
      var r := LookupResult(w.s, configured, e.id, e.pruneAt, e.checkAt, e.budgetAt);
      var windowed := w.(s := Window(w.s, e.budgetAt), now := e.budgetAt);
      WindowKeepsCharges(w, e.budgetAt);
      if r.Fetch? {
        ChargeKeepsCharges(windowed);
        OnlyBudgetMatters(windowed.(s := windowed.s.(count := windowed.s.count + 1),
                                    charges := w.charges + [Charge(e.budgetAt, windowed.s.windowStart)]), w');
      } else if r.BudgetExhausted? {
        OnlyBudgetMatters(windowed, w');
      } else {
        OnlyBudgetMatters(w, w');
      }
    } else {
      OnlyBudgetMatters(w, w');
    }
  }

  /** Every run keeps both caches bounded and sourced, and the budget honest. */
  lemma {:induction false} EveryRunIsSafe(configured: bool, start: nat, events: seq<Event>)
    ensures CachesOk(RunAll(configured, start, events)) && Charges(RunAll(configured, start, events))
  {
    if events != [] {
      EveryRunIsSafe(configured, start, events[..|events| - 1]);
      NextKeepsCaches(RunAll(configured, start, events[..|events| - 1]), configured, events[|events| - 1]);
      NextKeepsCharges(RunAll(configured, start, events[..|events| - 1]), configured, events[|events| - 1]);
    }
  }

  lemma HitStep(w: World, configured: bool, id: KeyId, pruneAt: nat, checkAt: nat, budgetAt: nat)
    requires CachesOk(w) && LookupResult(w.s, configured, id, pruneAt, checkAt, budgetAt).Hit?
    ensures ReceivedLately(w, id, LookupResult(w.s, configured, id, pruneAt, checkAt, budgetAt).key, pruneAt)
  {
    PruneKeepsCaches(w, pruneAt);
    var e := Find(Pruned(w.s, pruneAt).keys, id).value;
    assert e in w.s.keys;
    var at: nat := e.expires - POSITIVE_TTL_MS;
    assert (id, e.value, at) in w.found;
  }

  /** In every run, a hit returns a key that a fetch for this id delivered less than ten minutes before. */
  lemma HitIsFresh(configured: bool, start: nat, events: seq<Event>, id: KeyId, pruneAt: nat, checkAt: nat, budgetAt: nat)
    requires LookupResult(RunAll(configured, start, events).s, configured, id, pruneAt, checkAt, budgetAt).Hit?
    ensures var w := RunAll(configured, start, events);
            ReceivedLately(w, id, LookupResult(w.s, configured, id, pruneAt, checkAt, budgetAt).key, pruneAt)
  {
    EveryRunIsSafe(configured, start, events);
    HitStep(RunAll(configured, start, events), configured, id, pruneAt, checkAt, budgetAt);
  }

  // A fetch for this id was answered so less than one shorter TTL before the check.
  ghost predicate MissedLately(w: World, id: KeyId, checkAt: nat) {
    exists at: nat :: checkAt < at + NEGATIVE_TTL_MS && (id, at) in w.missed
  }

  lemma RefusalStep(w: World, configured: bool, id: KeyId, pruneAt: nat, checkAt: nat, budgetAt: nat)
    requires CachesOk(w) && LookupResult(w.s, configured, id, pruneAt, checkAt, budgetAt).KnownUnknown?
    ensures MissedLately(w, id, checkAt)
  {
    PruneKeepsCaches(w, pruneAt);
    var e := Find(Pruned(w.s, pruneAt).unknown, id).value;
    assert e in w.s.unknown;
    var at: nat := e.expires - NEGATIVE_TTL_MS;
    assert (id, at) in w.missed;
  }

  /** And one that is refused without a fetch was answered with "no such key" less than a minute before. */
  lemma RefusalIsFresh(configured: bool, start: nat, events: seq<Event>, id: KeyId, pruneAt: nat, checkAt: nat, budgetAt: nat)
    requires LookupResult(RunAll(configured, start, events).s, configured, id, pruneAt, checkAt, budgetAt).KnownUnknown?
    ensures MissedLately(RunAll(configured, start, events), id, checkAt)
  {
    EveryRunIsSafe(configured, start, events);
    RefusalStep(RunAll(configured, start, events), configured, id, pruneAt, checkAt, budgetAt);
  }

  // How many fetches fall into the half-open minute that starts at lo.
  function InMinute(charges: seq<Charge>, lo: nat): nat {
    if charges == [] then 0
    else
      var last := charges[|charges| - 1];
      InMinute(charges[..|charges| - 1], lo) + if lo <= last.time < lo + WINDOW_MS then 1 else 0
  }

  lemma {:induction false} InMinuteBound(charges: seq<Charge>, lo: nat, first: nat)
    requires forall i :: 0 <= i < first && i < |charges| ==> charges[i].time < lo
    requires forall i :: first + 2 * MAX_LOOKUPS <= i < |charges| ==> charges[i].time >= lo + WINDOW_MS
    ensures InMinute(charges, lo) <= if |charges| <= first then 0
                                     else if |charges| <= first + 2 * MAX_LOOKUPS then |charges| - first
                                     else 2 * MAX_LOOKUPS
  {
    if charges != [] { InMinuteBound(charges[..|charges| - 1], lo, first); }
  }

  lemma {:induction false} FirstSince(charges: seq<Charge>, lo: nat) returns (first: nat)
    requires forall i, j :: 0 <= i < j < |charges| ==> charges[i].time <= charges[j].time
    ensures first <= |charges| && (forall i :: 0 <= i < first ==> charges[i].time < lo)
    ensures forall i :: first <= i < |charges| ==> charges[i].time >= lo
  {
    if charges == [] || charges[|charges| - 1].time < lo {
      first := |charges|;
    } else {
      first := FirstSince(charges[..|charges| - 1], lo);
    }
  }

  /** Two fixed windows of sixteen: no minute, wherever it starts, sees more than thirty-two fetches. */
  lemma AtMostThirtyTwoAMinute(configured: bool, start: nat, events: seq<Event>, lo: nat)
    ensures InMinute(RunAll(configured, start, events).charges, lo) <= 2 * MAX_LOOKUPS
  {
    EveryRunIsSafe(configured, start, events);
    var charges := RunAll(configured, start, events).charges;
    var first := FirstSince(charges, lo);
    forall i | first + 2 * MAX_LOOKUPS <= i < |charges| ensures charges[i].time >= lo + WINDOW_MS {
      var mid := first + MAX_LOOKUPS;
      assert charges[first].start + WINDOW_MS <= charges[mid].start && charges[mid].start + WINDOW_MS <= charges[i].start;
    }
    InMinuteBound(charges, lo, first);
  }

  // ---------------------------------------------------------------- what a lookup answers

  ghost predicate Holds<T>(cache: seq<Entry<T>>, id: KeyId, since: nat) {
    exists e :: e in cache && e.id == id && e.expires > since
  }

  lemma FindsIff<T>(cache: seq<Entry<T>>, id: KeyId, now: nat)
    requires Distinct(cache)
    ensures Find(Live(cache, now), id).Some? <==> Holds(cache, id, now)
    ensures forall e :: e in cache && e.id == id && e.expires > now ==> Find(Live(cache, now), id) == Option.Some(e)
  {
    LiveIsPart(cache, now);
    var r := Find(Live(cache, now), id);
    if r.Some? { LiveMember(cache, now, r.value); }
    forall e | e in cache && e.id == id && e.expires > now ensures r == Option.Some(e) {
      LiveMember(cache, now, e);
      var live := Live(cache, now);
      var i :| 0 <= i < |live| && live[i] == e;
      var j :| 0 <= j < |live| && live[j] == r.value;
      assert live[i].id == live[j].id;
    }
  }

  lemma UnknownIff(s: State, id: KeyId, pruneAt: nat, checkAt: nat)
    requires Distinct(s.unknown) && pruneAt <= checkAt
    ensures StillUnknown(Pruned(s, pruneAt), id, checkAt) <==> Holds(s.unknown, id, checkAt)
  {
    FindsIff(s.unknown, id, pruneAt);
    var found := Find(Live(s.unknown, pruneAt), id);
    if found.Some? { LiveMember(s.unknown, pruneAt, found.value); }
  }

  /** In every run, for a clock that does not go back within the lookup: it answers from the cache if and only if a
      key that has not expired is cached for the id; with a known failure if and only if none is and the failure has
      not expired; and it fetches if and only if neither is the case, the service is configured and the budget of the
      minute is not spent. */
  lemma LookupAnswersIff(configured: bool, start: nat, events: seq<Event>, id: KeyId, pruneAt: nat, checkAt: nat, budgetAt: nat)
    requires pruneAt <= checkAt <= budgetAt
    ensures var s := RunAll(configured, start, events).s;
            var r := LookupResult(s, configured, id, pruneAt, checkAt, budgetAt);
            && (r.Hit? <==> Holds(s.keys, id, pruneAt))
            && (r.KnownUnknown? <==> !Holds(s.keys, id, pruneAt) && Holds(s.unknown, id, checkAt))
            && (r.Fetch? <==>
                  && !Holds(s.keys, id, pruneAt) && !Holds(s.unknown, id, checkAt) && configured
                  && (budgetAt - s.windowStart >= WINDOW_MS || s.count < MAX_LOOKUPS))
  {
    EveryRunIsSafe(configured, start, events);
    var s := RunAll(configured, start, events).s;
    FindsIff(s.keys, id, pruneAt);
    UnknownIff(s, id, pruneAt, checkAt);
  }

  lemma LookupShape(s: State, configured: bool, id: KeyId, pruneAt: nat, checkAt: nat, budgetAt: nat)
    ensures var (r, s') := (LookupResult(s, configured, id, pruneAt, checkAt, budgetAt), LookupState(s, configured, id, pruneAt, checkAt, budgetAt));
            && s'.keys == Live(s.keys, pruneAt)
            && s'.unknown == if r.Hit? || r.KnownUnknown? then Live(s.unknown, pruneAt) else Remove(Live(s.unknown, pruneAt), id)
  {
  }

  /** A lookup leaves in the caches exactly what has not expired; on its way to a fetch it also forgets a failure of the
      id that expired meanwhile. */
  lemma LookupKeeps(s: State, configured: bool, id: KeyId, pruneAt: nat, checkAt: nat, budgetAt: nat, key: Entry<PublicKey>, miss: Entry<()>)
    ensures var (r, s') := (LookupResult(s, configured, id, pruneAt, checkAt, budgetAt), LookupState(s, configured, id, pruneAt, checkAt, budgetAt));
            && (key in s'.keys <==> key in s.keys && key.expires > pruneAt)
            && (miss in s'.unknown <==> miss in s.unknown && miss.expires > pruneAt && (r.Hit? || r.KnownUnknown? || miss.id != id))
  {
    LookupShape(s, configured, id, pruneAt, checkAt, budgetAt);
    LiveMember(s.keys, pruneAt, key);
    LiveMember(s.unknown, pruneAt, miss);
    RemoveMember(Live(s.unknown, pruneAt), id, miss);
  }

  // ---------------------------------------------------------------- how long a received key stays

  function RunFrom(w: World, configured: bool, more: seq<Event>): World {
    if more == [] then w else Next(RunFrom(w, configured, more[..|more| - 1]), configured, more[|more| - 1])
  }

  function KeysReceived(more: seq<Event>): nat {
    if more == [] then 0
    else
      var last := more[|more| - 1];
      KeysReceived(more[..|more| - 1]) + if last.Receive? && last.response.Found? then 1 else 0
  }

  ghost predicate ReceivesFor(more: seq<Event>, id: KeyId) {
    exists e :: e in more && e.Receive? && e.response.Found? && e.id == id
  }

  // It is in the cache, with at most so many newer entries.
  ghost predicate Within<T>(cache: seq<Entry<T>>, e: Entry<T>, newer: nat) {
    exists i :: 0 <= i < |cache| && |cache| - 1 - newer <= i && cache[i] == e
  }

  lemma WithinFront<T>(cache: seq<Entry<T>>, e: Entry<T>, newer: nat)
    requires Within(cache, e, newer) && cache[|cache| - 1] != e
    ensures newer > 0 && Within(cache[..|cache| - 1], e, newer - 1)
  {
    var i :| 0 <= i < |cache| && |cache| - 1 - newer <= i && cache[i] == e;
    assert cache[..|cache| - 1][i] == e;
  }

  lemma WithinSnoc<T>(cache: seq<Entry<T>>, e: Entry<T>, newer: nat, x: Entry<T>)
    requires Within(cache, e, newer)
    ensures Within(cache + [x], e, newer + 1)
  {
    var i :| 0 <= i < |cache| && |cache| - 1 - newer <= i && cache[i] == e;
    assert (cache + [x])[i] == e;
  }

  lemma WithinMore<T>(cache: seq<Entry<T>>, e: Entry<T>, newer: nat, more: nat)
    requires Within(cache, e, newer) && newer <= more
    ensures Within(cache, e, more)
  {
    var i :| 0 <= i < |cache| && |cache| - 1 - newer <= i && cache[i] == e;
    assert |cache| - 1 - more <= i;
  }

  lemma WithinLast<T>(cache: seq<Entry<T>>, e: Entry<T>, newer: nat)
    ensures Within(cache + [e], e, newer)
  {
    assert (cache + [e])[|cache|] == e;
  }

  lemma {:induction false} LiveWithin<T>(cache: seq<Entry<T>>, now: nat, e: Entry<T>, newer: nat)
    requires Within(cache, e, newer) && e.expires > now
    ensures Within(Live(cache, now), e, newer)
  {
    var (front, last) := (cache[..|cache| - 1], cache[|cache| - 1]);
    if last == e {
      WithinLast(Live(front, now), e, newer);
    } else {
      WithinFront(cache, e, newer);
      LiveWithin(front, now, e, newer - 1);
      if last.expires <= now {
        assert Live(cache, now) == Live(front, now) + [] == Live(front, now);
        WithinMore(Live(front, now), e, newer - 1, newer);
      } else {
        WithinSnoc(Live(front, now), e, newer - 1, last);
      }
    }
  }

  lemma {:induction false} RemoveWithin<T>(cache: seq<Entry<T>>, id: KeyId, e: Entry<T>, newer: nat)
    requires Within(cache, e, newer) && e.id != id
    ensures Within(Remove(cache, id), e, newer)
  {
    var (front, last) := (cache[..|cache| - 1], cache[|cache| - 1]);
    if last == e {
      WithinLast(Remove(front, id), e, newer);
    } else {
      WithinFront(cache, e, newer);
      RemoveWithin(front, id, e, newer - 1);
      if last.id == id {
        assert Remove(cache, id) == Remove(front, id) + [] == Remove(front, id);
        WithinMore(Remove(front, id), e, newer - 1, newer);
      } else {
        WithinSnoc(Remove(front, id), e, newer - 1, last);
      }
    }
  }

  lemma NewestWithin<T>(all: seq<Entry<T>>, e: Entry<T>, newer: nat)
    requires Within(all, e, newer) && newer < MAX_ENTRIES
    ensures Within(Newest(all), e, newer)
  {
    var i :| 0 <= i < |all| && |all| - 1 - newer <= i && all[i] == e;
    if |all| > MAX_ENTRIES { assert Newest(all)[i - (|all| - MAX_ENTRIES)] == e; }
  }

  lemma PutWithin<T>(cache: seq<Entry<T>>, x: Entry<T>, e: Entry<T>, newer: nat)
    requires Within(cache, e, newer) && x.id != e.id && newer + 1 < MAX_ENTRIES
    ensures Within(Put(cache, x), e, newer + 1)
  {
    RemoveWithin(cache, x.id, e, newer);
    WithinSnoc(Remove(cache, x.id), e, newer, x);
    NewestWithin(Remove(cache, x.id) + [x], e, newer + 1);
  }

  lemma NextStays(w: World, configured: bool, event: Event, e: Entry<PublicKey>, newer: nat)
    requires Within(w.s.keys, e, newer) && newer + KeysReceived([event]) < MAX_ENTRIES && !ReceivesFor([event], e.id)
    requires Next(w, configured, event).now < e.expires
    ensures Within(Next(w, configured, event).s.keys, e, newer + KeysReceived([event])) && w.now <= Next(w, configured, event).now
  {
    assert [event][..0] == [];
    match event
    case Lookup(id, pruneAt, checkAt, budgetAt) =>
      if w.now <= pruneAt <= checkAt <= budgetAt { LiveWithin(w.s.keys, pruneAt, e, newer); }
    case Receive(id, response, at) =>
      if response.Found? {
        assert event in [event];
        WithinMore(w.s.keys, e, newer, newer + 1);
        PutWithin(w.s.keys, Entry(id, response.key, at + POSITIVE_TTL_MS), e, newer);
      }
  }

  lemma NowGrows(w: World, configured: bool, event: Event)
    ensures w.now <= Next(w, configured, event).now
  {
  }

  lemma {:induction false} RunStays(w: World, configured: bool, more: seq<Event>, e: Entry<PublicKey>)
    requires Within(w.s.keys, e, 0) && KeysReceived(more) < MAX_ENTRIES && !ReceivesFor(more, e.id)
    requires RunFrom(w, configured, more).now < e.expires
    ensures Within(RunFrom(w, configured, more).s.keys, e, KeysReceived(more))
  {
    if more != [] {
      var (front, last) := (more[..|more| - 1], more[|more| - 1]);
      assert [last][..0] == [] && KeysReceived(more) == KeysReceived(front) + KeysReceived([last]);
      assert forall x :: x in front ==> x in more;
      assert last in more;
      NowGrows(RunFrom(w, configured, front), configured, last);
      RunStays(w, configured, front, e);
      NextStays(RunFrom(w, configured, front), configured, last, e, KeysReceived(front));
    }
  }

  lemma {:induction false} RunKeepsCaches(w: World, configured: bool, more: seq<Event>)
    requires CachesOk(w)
    ensures CachesOk(RunFrom(w, configured, more))
  {
    if more != [] {
      RunKeepsCaches(w, configured, more[..|more| - 1]);
      NextKeepsCaches(RunFrom(w, configured, more[..|more| - 1]), configured, more[|more| - 1]);
    }
  }

  /** In every run, a key that a fetch delivered answers every lookup for its id in the next ten minutes, as long as
      fewer than 128 other keys arrive meanwhile and no new one for the id. */
  lemma ReceivedKeyAnswers(configured: bool, start: nat, events: seq<Event>, id: KeyId, key: PublicKey, at: nat, more: seq<Event>, pruneAt: nat, checkAt: nat, budgetAt: nat)
    requires var w := RunAll(configured, start, events); id in w.fetched && w.now <= at
    requires KeysReceived(more) < MAX_ENTRIES && !ReceivesFor(more, id)
    requires RunFrom(Next(RunAll(configured, start, events), configured, Receive(id, Found(key), at)), configured, more).now <= pruneAt < at + POSITIVE_TTL_MS
    ensures var w' := RunFrom(Next(RunAll(configured, start, events), configured, Receive(id, Found(key), at)), configured, more);
            LookupResult(w'.s, configured, id, pruneAt, checkAt, budgetAt) == Hit(key)
  {
    var w := RunAll(configured, start, events);
    var (w1, e) := (Next(w, configured, Receive(id, Found(key), at)), Entry(id, key, at + POSITIVE_TTL_MS));
    EveryRunIsSafe(configured, start, events);
    NextKeepsCaches(w, configured, Receive(id, Found(key), at));
    WithinLast(Remove(w.s.keys, id), e, 0);
    NewestWithin(Remove(w.s.keys, id) + [e], e, 0);
    RunStays(w1, configured, more, e);
    RunKeepsCaches(w1, configured, more);
    FindsIff(RunFrom(w1, configured, more).s.keys, id, pruneAt);
  }

  /** And an id that the service did not know is refused without a fetch for the next minute. */
  lemma UnknownIdIsRefused(configured: bool, start: nat, events: seq<Event>, id: KeyId, at: nat, pruneAt: nat, checkAt: nat, budgetAt: nat)
    requires var w := RunAll(configured, start, events); id in w.fetched && w.now <= at && !Holds(w.s.keys, id, pruneAt)
    requires at <= pruneAt <= checkAt < at + NEGATIVE_TTL_MS
    ensures var w' := Next(RunAll(configured, start, events), configured, Receive(id, NoSuchKey, at));
            LookupResult(w'.s, configured, id, pruneAt, checkAt, budgetAt) == KnownUnknown
  {
    var w := RunAll(configured, start, events);
    var e := Entry(id, (), at + NEGATIVE_TTL_MS);
    EveryRunIsSafe(configured, start, events);
    PutKeepsNewest(w.s.unknown, e);
    FindsIff(w.s.keys, id, pruneAt);
    UnknownIff(ResponseState(w.s, id, NoSuchKey, at), id, pruneAt, checkAt);
    assert e in Put(w.s.unknown, e);
  }
}
