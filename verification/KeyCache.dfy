/** The webhook verifier's key caches and its budget of key lookups. */
module KeyCache {
  import opened Options

  type KeyId = nat
  type PublicKey = nat

  const POSITIVE_TTL_MS: nat := 600_000
  const NEGATIVE_TTL_MS: nat := 60_000
  const MAX_ENTRIES: nat := 128
  const WINDOW_MS: nat := 60_000
  const MAX_LOOKUPS: nat := 16

  // A JavaScript Map keeps insertion order; here it is the list of its entries.
  datatype Entry<T> = Entry(id: KeyId, value: T, expires: nat)

  datatype State = State(keys: seq<Entry<PublicKey>>, unknown: seq<Entry<()>>, windowStart: nat, count: nat)

  // What getKey does before its fetch, and after it.
  datatype Before = Hit(key: PublicKey) | KnownUnknown | Unconfigured | BudgetExhausted | Fetch

  datatype Response = Found(key: PublicKey) | NoSuchKey | Unusable

  function Find<T>(cache: seq<Entry<T>>, id: KeyId): (r: Option<Entry<T>>)
    ensures r.Some? ==> r.value in cache && r.value.id == id
    ensures r.None? ==> forall i :: 0 <= i < |cache| ==> cache[i].id != id
  {
    if cache == [] then None
    else if cache[|cache| - 1].id == id then Some(cache[|cache| - 1])
    else Find(cache[..|cache| - 1], id)
  }

  function Remove<T>(cache: seq<Entry<T>>, id: KeyId): seq<Entry<T>> {
    if cache == [] then []
    else Remove(cache[..|cache| - 1], id) + if cache[|cache| - 1].id == id then [] else [cache[|cache| - 1]]
  }

  function Live<T>(cache: seq<Entry<T>>, now: nat): seq<Entry<T>> {
    if cache == [] then []
    else Live(cache[..|cache| - 1], now) + if cache[|cache| - 1].expires <= now then [] else [cache[|cache| - 1]]
  }

  lemma {:induction false} LiveWasThere<T>(cache: seq<Entry<T>>, now: nat, e: Entry<T>)
    requires e in Live(cache, now)
    ensures e in cache && e.expires > now
  {
    if cache != [] {
      var last := |cache| - 1;
      if e in Live(cache[..last], now) { LiveWasThere(cache[..last], now, e); }
    }
  }

  // The newest entries that fit.
  function Newest<T>(cache: seq<Entry<T>>): seq<Entry<T>> {
    if |cache| > MAX_ENTRIES then cache[|cache| - MAX_ENTRIES..] else cache
  }

  function Put<T>(cache: seq<Entry<T>>, e: Entry<T>): seq<Entry<T>> {
    Newest(Remove(cache, e.id) + [e])
  }

  function Pruned(s: State, now: nat): State {
    s.(keys := Live(s.keys, now), unknown := Live(s.unknown, now))
  }

  // The fixed window restarts when it is over.
  function Window(s: State, now: nat): State {
    if now - s.windowStart >= WINDOW_MS then s.(windowStart := now, count := 0) else s
  }

  // The clock is read three times: by the pruning, by the check of a negative entry and by the budget.
  // The entry the pruned cache of unknown keys still holds against this id.
  predicate StillUnknown(p: State, id: KeyId, checkAt: nat) {
    Find(p.unknown, id).Some? && Find(p.unknown, id).value.expires > checkAt
  }

  function Charged(s: State, budgetAt: nat): State {
    var w := Window(s, budgetAt);
    if w.count >= MAX_LOOKUPS then w else w.(count := w.count + 1)
  }

  function LookupState(s: State, configured: bool, id: KeyId, pruneAt: nat, checkAt: nat, budgetAt: nat): State {
    var p := Pruned(s, pruneAt);
    if Find(p.keys, id).Some? || StillUnknown(p, id, checkAt) then p
    else
      var q := p.(unknown := Remove(p.unknown, id));
      if configured then Charged(q, budgetAt) else q
  }

  function LookupResult(s: State, configured: bool, id: KeyId, pruneAt: nat, checkAt: nat, budgetAt: nat): Before {
    var p := Pruned(s, pruneAt);
    if Find(p.keys, id).Some? then Hit(Find(p.keys, id).value.value)
    else if StillUnknown(p, id, checkAt) then KnownUnknown
    else if !configured then Unconfigured
    else if Window(p, budgetAt).count >= MAX_LOOKUPS then BudgetExhausted
    else Fetch
  }

  function ResponseState(s: State, id: KeyId, response: Response, now: nat): State {
    match response
    case Found(key) => s.(keys := Put(s.keys, Entry(id, key, now + POSITIVE_TTL_MS)))
    case NoSuchKey => s.(unknown := Put(s.unknown, Entry(id, (), now + NEGATIVE_TTL_MS)))
    case Unusable => s
  }

  lemma RemoveStep<T>(cache: seq<Entry<T>>, i: nat, id: KeyId)
    requires i < |cache|
    ensures Remove(cache[..i + 1], id) == Remove(cache[..i], id) + if cache[i].id == id then [] else [cache[i]]
    ensures forall now: nat :: Live(cache[..i + 1], now) == Live(cache[..i], now) + if cache[i].expires <= now then [] else [cache[i]]
  {
    assert cache[..i + 1][..i] == cache[..i];
  }

  method Delete<T>(cache: seq<Entry<T>>, id: KeyId) returns (r: seq<Entry<T>>)
    ensures r == Remove(cache, id)
  {
    r := [];
    for i := 0 to |cache|
      invariant r == Remove(cache[..i], id)
    {
      RemoveStep(cache, i, id);
      if cache[i].id != id { r := r + [cache[i]]; }
    }
    assert cache[..|cache|] == cache;
  }

  method Prune<T>(cache: seq<Entry<T>>, now: nat) returns (r: seq<Entry<T>>)
    ensures r == Live(cache, now)
  {
    r := [];
    for i := 0 to |cache|
      invariant r == Live(cache[..i], now)
    {
      RemoveStep(cache, i, 0);
      if cache[i].expires > now { r := r + [cache[i]]; }
    }
    assert cache[..|cache|] == cache;
  }

  // Inserts last, then drops the oldest entries one by one.
  method SetBounded<T>(cache: seq<Entry<T>>, e: Entry<T>) returns (r: seq<Entry<T>>)
    ensures r == Put(cache, e)
  {
    r := Delete(cache, e.id);
    r := r + [e];
    ghost var all := r;
    while |r| > MAX_ENTRIES
      invariant |r| <= |all| && r == all[|all| - |r|..]
      invariant |all| >= MAX_ENTRIES ==> |r| >= MAX_ENTRIES
      invariant |all| < MAX_ENTRIES ==> r == all
    {
      r := r[1..];
    }
  }

  class CircleGatewayWebhookVerifier {
    var keys: seq<Entry<PublicKey>>
    var unknownKeys: seq<Entry<()>>
    var windowStartedAt: nat
    var lookupCount: nat
    const configured: bool

    ghost function Now(): State
      reads this
    {
      State(keys, unknownKeys, windowStartedAt, lookupCount)
    }

    constructor (configured: bool, now: nat)
      ensures Now() == State([], [], now, 0) && this.configured == configured
    {
      this.configured := configured;
      keys, unknownKeys, windowStartedAt, lookupCount := [], [], now, 0;
    }

    // getKey up to its fetch.
    method Lookup(id: KeyId, pruneAt: nat, checkAt: nat, budgetAt: nat) returns (r: Before)
      modifies this
      ensures Now() == LookupState(old(Now()), configured, id, pruneAt, checkAt, budgetAt)
      ensures r == LookupResult(old(Now()), configured, id, pruneAt, checkAt, budgetAt)
      ensures r.Hit? ==> exists e :: e in old(keys) && e.id == id && e.value == r.key && e.expires > pruneAt
      ensures r.Fetch? ==> configured && 0 < lookupCount <= MAX_LOOKUPS
    {
      PruneCaches(pruneAt);
      var cached := Find(keys, id);
      if cached.Some? {
        LiveWasThere(old(keys), pruneAt, cached.value);
        return Hit(cached.value.value);
      }
      var unknownUntil := Find(unknownKeys, id);
      if unknownUntil.Some? && unknownUntil.value.expires > checkAt { return KnownUnknown; }
      ForgetUnknown(id);
      if !configured { return Unconfigured; }
      var ok := ConsumeBudget(budgetAt);
      r := if ok then Fetch else BudgetExhausted;
    }

    method PruneCaches(now: nat)
      modifies `keys, `unknownKeys
      ensures Now() == Pruned(old(Now()), now)
    {
      keys := Prune(keys, now);
      unknownKeys := Prune(unknownKeys, now);
    }

    method ForgetUnknown(id: KeyId)
      modifies `unknownKeys
      ensures Now() == old(Now()).(unknown := Remove(old(Now()).unknown, id))
    {
      unknownKeys := Delete(unknownKeys, id);
    }

    method ConsumeBudget(now: nat) returns (ok: bool)
      modifies `windowStartedAt, `lookupCount
      ensures ok <==> Window(old(Now()), now).count < MAX_LOOKUPS
      ensures Now() == Charged(old(Now()), now)
      ensures now - old(windowStartedAt) < WINDOW_MS ==>
                windowStartedAt == old(windowStartedAt) && lookupCount == old(lookupCount) + if ok then 1 else 0
      ensures ok ==> 0 < lookupCount <= MAX_LOOKUPS
    {
      if now - windowStartedAt >= WINDOW_MS {
        windowStartedAt := now;
        lookupCount := 0;
      }
      if lookupCount >= MAX_LOOKUPS { return false; }
      lookupCount := lookupCount + 1;
      ok := true;
    }

    // getKey after its fetch.
    method Receive(id: KeyId, response: Response, now: nat)
      modifies this
      ensures Now() == ResponseState(old(Now()), id, response, now)
    {
      match response
      case Found(key) => keys := SetBounded(keys, Entry(id, key, now + POSITIVE_TTL_MS));
      case NoSuchKey => unknownKeys := SetBounded(unknownKeys, Entry(id, (), now + NEGATIVE_TTL_MS));
      case Unusable =>
    }
  }
}
