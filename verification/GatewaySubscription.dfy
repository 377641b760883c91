/** The reconciler of the remote webhook subscription, its retried requests, and the lease that must cover it. */
module GatewaySubscription {
  import opened Options

  type Address = nat
  type Domain = nat

  const ATTEMPTS: nat := 3
  const MAX_ADDRESSES: nat := 50
  const MAX_LEASE_MS: nat := 900_000
  const LEASE_MARGIN_MS: nat := 30_000
  const LONGEST_TIMEOUT_MS: nat := 60_000

  datatype Subscription = Subscription(stable: bool, enabled: bool, notifiesDeposits: bool, addresses: seq<Address>, domains: seq<Domain>)

  // ---------------------------------------------------------------- sorted copies without duplicates

  // Set order does not survive a sort, so the sorted array is a function of the set.
  function Insert(x: nat, sorted: seq<nat>): seq<nat> {
    if sorted == [] then [x]
    else if x == sorted[0] then sorted
    else if x < sorted[0] then [x] + sorted
    else [sorted[0]] + Insert(x, sorted[1..])
  }

  function SortUnique(values: seq<nat>): seq<nat> {
    if values == [] then [] else Insert(values[|values| - 1], SortUnique(values[..|values| - 1]))
  }

  ghost predicate Increasing(s: seq<nat>) {
    forall i, j :: 0 <= i < j < |s| ==> s[i] < s[j]
  }

  lemma {:induction false} InsertSorted(x: nat, s: seq<nat>)
    requires Increasing(s)
    ensures Increasing(Insert(x, s)) && forall y :: y in Insert(x, s) <==> y == x || y in s
  {
    if s != [] && x > s[0] {
      InsertSorted(x, s[1..]);
      assert s == [s[0]] + s[1..];
      var rest := Insert(x, s[1..]);
      forall i | 0 <= i < |rest| ensures s[0] < rest[i] { assert rest[i] in rest; }
    }
  }

  lemma {:induction false} SortUniqueSorts(values: seq<nat>)
    ensures Increasing(SortUnique(values)) && forall y :: y in SortUnique(values) <==> y in values
  {
    if values != [] {
      var front := values[..|values| - 1];
      SortUniqueSorts(front);
      InsertSorted(values[|values| - 1], SortUnique(front));
      assert values == front + [values[|values| - 1]];
    }
  }

  lemma HasMember(s: seq<nat>)
    ensures s == [] || exists y :: y in s
  {
    if s != [] { assert s[0] in s; }
  }

  lemma {:induction false} SameMembersSameList(a: seq<nat>, b: seq<nat>)
    requires Increasing(a) && Increasing(b) && forall y :: y in a <==> y in b
    ensures a == b
  {
    HasMember(b);
    if a != [] {
      assert a[0] in a && a[0] in b;
      assert b[0] in b && b[0] in a;
      var j :| 0 <= j < |b| && b[j] == a[0];
      var i :| 0 <= i < |a| && a[i] == b[0];
      assert a[0] == b[0];
      assert a == [a[0]] + a[1..] && b == [b[0]] + b[1..];
      forall y ensures y in a[1..] <==> y in b[1..] {
        if y in a[1..] { assert y in b && y != b[0]; }
        if y in b[1..] { assert y in a && y != a[0]; }
      }
      SameMembersSameList(a[1..], b[1..]);
    }
  }

  method SameValues(left: seq<nat>, right: seq<nat>) returns (same: bool)
    ensures same <==> left == right
  {
    if |left| != |right| { return false; }
    for i := 0 to |left|
      invariant left[..i] == right[..i]
    {
      assert left[..i + 1] == left[..i] + [left[i]] && right[..i + 1] == right[..i] + [right[i]];
      if left[i] != right[i] { return false; }
    }
    assert left == left[..|left|] && right == right[..|right|];
    same := true;
  }

  /** The comparison of the sorted copies decides equality of the sets. */
  lemma ComparesSets(a: seq<nat>, b: seq<nat>)
    ensures SortUnique(a) == SortUnique(b) <==> forall y :: y in a <==> y in b
  {
    SortUniqueSorts(a);
    SortUniqueSorts(b);
    if forall y :: y in a <==> y in b { SameMembersSameList(SortUnique(a), SortUnique(b)); }
  }

  // ---------------------------------------------------------------- reconcile

  datatype Outcome = Reconciled(changed: bool, subscription: Subscription) | Refused(retryable: bool)

  predicate UpToDate(s: Subscription, addresses: seq<Address>, domains: seq<Domain>) {
    && s.enabled && s.notifiesDeposits
    && SortUnique(s.addresses) == SortUnique(addresses) && SortUnique(s.domains) == SortUnique(domains)
  }

  predicate Acceptable(addresses: seq<Address>, domains: seq<Domain>) {
    && 0 < |SortUnique(addresses)| <= MAX_ADDRESSES && 0 < |SortUnique(domains)|
    && forall i :: 0 <= i < |domains| ==> domains[i] in {0, 3, 6, 26}
  }

  function Members(s: seq<nat>): set<nat> {
    if s == [] then {} else {s[0]} + Members(s[1..])
  }

  lemma {:induction false} MembersAre(s: seq<nat>, x: nat)
    ensures x in Members(s) <==> x in s
  {
    if s != [] {
      MembersAre(s[1..], x);
      assert s == [s[0]] + s[1..];
    }
  }

  lemma {:induction false} IncreasingSize(s: seq<nat>)
    requires Increasing(s)
    ensures |Members(s)| == |s|
  {
    if s != [] {
      IncreasingSize(s[1..]);
      MembersAre(s[1..], s[0]);
      assert forall i :: 0 <= i < |s[1..]| ==> s[1..][i] == s[i + 1] && s[i + 1] > s[0];
    }
  }

  lemma SortedSize(values: seq<nat>)
    ensures |SortUnique(values)| == |set x | x in values|
  {
    SortUniqueSorts(values);
    IncreasingSize(SortUnique(values));
    forall x ensures x in Members(SortUnique(values)) <==> x in (set y | y in values) { MembersAre(SortUnique(values), x); }
    assert Members(SortUnique(values)) == (set x | x in values);
  }

  lemma AllDomains(domains: seq<Domain>)
    ensures (forall i :: 0 <= i < |domains| ==> domains[i] in {0, 3, 6, 26}) <==> (forall d :: d in domains ==> d == 0 || d == 3 || d == 6 || d == 26)
  {
    if forall i :: 0 <= i < |domains| ==> domains[i] in {0, 3, 6, 26} {
      forall d | d in domains ensures d == 0 || d == 3 || d == 6 || d == 26 {
        var i :| 0 <= i < |domains| && domains[i] == d;
      }
    } else {
      var i :| 0 <= i < |domains| && domains[i] !in {0, 3, 6, 26};
      assert domains[i] in domains;
    }
  }

  /** Between one and fifty different addresses, and at least one domain, each one of the four supported. */
  lemma AcceptableIff(addresses: seq<Address>, domains: seq<Domain>)
    ensures Acceptable(addresses, domains) <==>
              && 1 <= |set a | a in addresses| <= 50 && domains != []
              && forall d :: d in domains ==> d == 0 || d == 3 || d == 6 || d == 26
  {
    SortedSize(addresses);
    SortUniqueSorts(domains);
    AllDomains(domains);
    if domains != [] { assert domains[0] in SortUnique(domains); }
    if SortUnique(domains) != [] { assert SortUnique(domains)[0] in domains; }
  }

  // The remote end: `drift` is what others do to the subscription before the verifying read.
  class Remote {
    var subscription: Subscription
    var patches: nat

    constructor (subscription: Subscription)
      ensures this.subscription == subscription && patches == 0
    {
      this.subscription := subscription;
      patches := 0;
    }

    method Patch(addresses: seq<Address>, domains: seq<Domain>)
      modifies this
      ensures patches == old(patches) + 1
      ensures subscription == old(subscription).(enabled := true, notifiesDeposits := true, addresses := addresses, domains := domains)
    {
      subscription := subscription.(enabled := true, notifiesDeposits := true, addresses := addresses, domains := domains);
      patches := patches + 1;
    }

    method Drift(drift: Subscription -> Subscription)
      modifies `subscription
      ensures subscription == drift(old(subscription))
    {
      subscription := drift(subscription);
    }
  }

  function Intended(s: Subscription, addresses: seq<Address>, domains: seq<Domain>): Subscription {
    if UpToDate(s, addresses, domains) then s
    else s.(enabled := true, notifiesDeposits := true, addresses := SortUnique(addresses), domains := SortUnique(domains))
  }

  /** Read, patch if needed, read again. `answers` says which of the three requests got through. It returns
      normally exactly when the second read shows what was asked for. */
  method Reconcile(remote: Remote, addresses: seq<Address>, domains: seq<Domain>, answers: (bool, bool, bool), drift: Subscription -> Subscription)
    returns (r: Outcome)
    modifies remote
    ensures var before, seen := old(remote.subscription), drift(Intended(old(remote.subscription), addresses, domains));
            r.Reconciled? <==>
              && Acceptable(addresses, domains) && answers.0 && before.stable && answers.2 && seen.stable
              && (answers.1 || UpToDate(before, addresses, domains)) && UpToDate(seen, addresses, domains)
    ensures r.Reconciled? ==> remote.subscription == drift(Intended(old(remote.subscription), addresses, domains))
    ensures r.Reconciled? ==> r.subscription == remote.subscription && (r.changed <==> remote.patches == old(remote.patches) + 1)
    ensures remote.patches == old(remote.patches) || (remote.patches == old(remote.patches) + 1 && !UpToDate(old(remote.subscription), addresses, domains))
  {
    if !Acceptable(addresses, domains) { return Refused(false); }
    if !answers.0 { return Refused(true); }
    if !remote.subscription.stable { return Refused(false); }
    var sameAddresses := SameValues(SortUnique(addresses), SortUnique(remote.subscription.addresses));
    var sameDomains := SameValues(SortUnique(domains), SortUnique(remote.subscription.domains));
    var requiresPatch := !remote.subscription.enabled || !remote.subscription.notifiesDeposits || !sameAddresses || !sameDomains;
    if requiresPatch {
      if !answers.1 { return Refused(true); }
      remote.Patch(SortUnique(addresses), SortUnique(domains));
    }
    remote.Drift(drift);
    if !answers.2 { return Refused(true); }
    if !remote.subscription.stable { return Refused(false); }
    sameAddresses := SameValues(SortUnique(addresses), SortUnique(remote.subscription.addresses));
    sameDomains := SameValues(SortUnique(domains), SortUnique(remote.subscription.domains));
    if !sameAddresses || !sameDomains || !remote.subscription.enabled || !remote.subscription.notifiesDeposits { return Refused(true); }
    r := Reconciled(requiresPatch, remote.subscription);
  }

  /** Up to date means: the remote sets are the requested sets. */
  lemma UpToDateMeansSameSets(s: Subscription, addresses: seq<Address>, domains: seq<Domain>)
    ensures UpToDate(s, addresses, domains) <==>
              && s.enabled && s.notifiesDeposits
              && (forall a :: a in s.addresses <==> a in addresses) && (forall d :: d in s.domains <==> d in domains)
  {
    ComparesSets(s.addresses, addresses);
    ComparesSets(s.domains, domains);
  }

  lemma {:induction false} SortUniqueTwice(values: seq<nat>)
    ensures SortUnique(SortUnique(values)) == SortUnique(values)
  {
    SortUniqueSorts(values);
    SortUniqueSorts(SortUnique(values));
    SameMembersSameList(SortUnique(SortUnique(values)), SortUnique(values));
  }

  /** One patch converges, and the call after it patches nothing. */
  method ReconcileTwice(remote: Remote, addresses: seq<Address>, domains: seq<Domain>) returns (first: Outcome, second: Outcome)
    requires Acceptable(addresses, domains) && remote.subscription.stable
    modifies remote
    ensures first.Reconciled? && second == Reconciled(false, first.subscription)
    ensures remote.patches <= old(remote.patches) + 1
  {
    SortUniqueTwice(addresses);
    SortUniqueTwice(domains);
    first := Reconcile(remote, addresses, domains, (true, true, true), s => s);
    second := Reconcile(remote, addresses, domains, (true, true, true), s => s);
  }

  // ---------------------------------------------------------------- retries and the lease

  datatype Reply = NoResponse(ms: nat) | Status(code: nat, retryAfter: Option<nat>, ms: nat)

  // What the network and the random jitter do to the attempts of one request.
  datatype Network = Network(replies: seq<Reply>, jitter: seq<nat>)

  function Min(a: nat, b: nat): nat { if a < b then a else b }

  function Max(a: nat, b: nat): nat { if a < b then b else a }

  predicate Retryable(reply: Reply) { reply.NoResponse? || reply.code == 429 || reply.code >= 500 }

  predicate Expected(reply: Reply, expected: set<nat>) { reply.Status? && reply.code in expected }

  function Backoff(attempt: nat, jitter: nat): nat { (if attempt == 0 then 250 else 500) + jitter }

  // The pause after a retried attempt; only a Retry-After or backoff after a response is capped by the timeout.
  function Pause(timeout: nat, attempt: nat, reply: Reply, jitter: nat): nat {
    match reply
    case NoResponse(_) => Backoff(attempt, jitter)
    case Status(_, retryAfter, _) => Min(if retryAfter.Some? then retryAfter.value else Backoff(attempt, jitter), timeout)
  }

  // The attempts of one request from the given one on: did it succeed, and how long did it take?
  function Attempts(timeout: nat, expected: set<nat>, replies: seq<Reply>, jitter: seq<nat>, attempt: nat): (bool, nat)
    requires |replies| == ATTEMPTS && |jitter| == ATTEMPTS && attempt < ATTEMPTS
    decreases ATTEMPTS - attempt
  {
    var reply := replies[attempt];
    if Expected(reply, expected) then (true, reply.ms)
    else if Retryable(reply) && attempt < ATTEMPTS - 1 then
      var (ok, rest) := Attempts(timeout, expected, replies, jitter, attempt + 1);
      (ok, reply.ms + Pause(timeout, attempt, reply, jitter[attempt]) + rest)
    else (false, reply.ms)
  }

  method Request(timeout: nat, expected: set<nat>, replies: seq<Reply>, jitter: seq<nat>) returns (ok: bool, elapsed: nat)
    requires |replies| == ATTEMPTS && |jitter| == ATTEMPTS
    ensures (ok, elapsed) == Attempts(timeout, expected, replies, jitter, 0)
  {
    elapsed := 0;
    var attempt := 0;
    while attempt < ATTEMPTS
      invariant attempt <= ATTEMPTS
      invariant attempt < ATTEMPTS ==>
                  var (rok, rest) := Attempts(timeout, expected, replies, jitter, attempt);
                  (rok, elapsed + rest) == Attempts(timeout, expected, replies, jitter, 0)
      invariant attempt == ATTEMPTS ==> (false, elapsed) == Attempts(timeout, expected, replies, jitter, 0)
    {
      var reply := replies[attempt];
      elapsed := elapsed + reply.ms;
      if Expected(reply, expected) { return true, elapsed; }
      if Retryable(reply) && attempt < ATTEMPTS - 1 {
        elapsed := elapsed + Pause(timeout, attempt, reply, jitter[attempt]);
        attempt := attempt + 1;
      } else {
        return false, elapsed;
      }
    }
    ok := false;
  }

  // Every attempt is cut off at the timeout, and the jitter is at most 100 ms.
  ghost predicate Timed(timeout: nat, replies: seq<Reply>, jitter: seq<nat>) {
    && |replies| == ATTEMPTS && |jitter| == ATTEMPTS
    && forall i :: 0 <= i < ATTEMPTS ==> replies[i].ms <= timeout && jitter[i] <= 100
  }

  // The attempts before this one all invite a retry.
  predicate Reaches(replies: seq<Reply>, expected: set<nat>, i: nat) {
    i < |replies| && forall j :: 0 <= j < i ==> !Expected(replies[j], expected) && Retryable(replies[j])
  }

  // The time of the attempts before this one, with the pauses after them.
  function TimeBefore(timeout: nat, replies: seq<Reply>, jitter: seq<nat>, i: nat): nat
    requires i <= |replies| && i <= |jitter|
  {
    if i == 0 then 0 else TimeBefore(timeout, replies, jitter, i - 1) + replies[i - 1].ms + Pause(timeout, i - 1, replies[i - 1], jitter[i - 1])
  }

  /** A request succeeds if and only if one of its three attempts is answered as expected and every earlier one
      invited a retry; then it took that attempt, the earlier ones and the pauses between them. */
  lemma RequestSucceedsIff(timeout: nat, expected: set<nat>, replies: seq<Reply>, jitter: seq<nat>)
    requires |replies| == ATTEMPTS && |jitter| == ATTEMPTS
    ensures Attempts(timeout, expected, replies, jitter, 0).0 <==>
              exists i :: 0 <= i < ATTEMPTS && Reaches(replies, expected, i) && Expected(replies[i], expected)
    ensures forall i :: 0 <= i < ATTEMPTS && Reaches(replies, expected, i) && (Expected(replies[i], expected) || !Retryable(replies[i]) || i == ATTEMPTS - 1) ==>
              Attempts(timeout, expected, replies, jitter, 0).1 == TimeBefore(timeout, replies, jitter, i) + replies[i].ms
  {
    var a := Attempts(timeout, expected, replies, jitter, 0);
    assert a.0 ==> exists i :: 0 <= i < ATTEMPTS && Reaches(replies, expected, i) && Expected(replies[i], expected) by {
      if Expected(replies[0], expected) { assert Reaches(replies, expected, 0); }
      else if Expected(replies[1], expected) { assert a.0 ==> Reaches(replies, expected, 1); }
      else { assert Attempts(timeout, expected, replies, jitter, 1).0 ==> Attempts(timeout, expected, replies, jitter, 2).0; assert a.0 ==> Reaches(replies, expected, 2); }
    }
    forall i | 0 <= i < ATTEMPTS && Reaches(replies, expected, i) && (Expected(replies[i], expected) || !Retryable(replies[i]) || i == ATTEMPTS - 1)
      ensures a == (Expected(replies[i], expected), TimeBefore(timeout, replies, jitter, i) + replies[i].ms)
    {
      ReachedDecides(timeout, expected, replies, jitter, i, i);
    }
  }

  lemma {:induction false} ReachedDecides(timeout: nat, expected: set<nat>, replies: seq<Reply>, jitter: seq<nat>, i: nat, k: nat)
    requires |replies| == ATTEMPTS && |jitter| == ATTEMPTS && k <= i < ATTEMPTS && Reaches(replies, expected, i)
    requires Expected(replies[i], expected) || !Retryable(replies[i]) || i == ATTEMPTS - 1
    ensures var (ok, rest) := Attempts(timeout, expected, replies, jitter, i - k);
            ok == Expected(replies[i], expected)
            && TimeBefore(timeout, replies, jitter, i - k) + rest == TimeBefore(timeout, replies, jitter, i) + replies[i].ms
    decreases k
  {
    if k > 0 { ReachedDecides(timeout, expected, replies, jitter, i, k - 1); }
  }

  function WorstRequest(timeout: nat): nat { 3 * timeout + Max(350, timeout) + Max(600, timeout) }

  function Lease(timeout: nat): nat { Min(MAX_LEASE_MS, 3 * (3 * timeout + 2 * timeout) + LEASE_MARGIN_MS) }

  lemma RequestIsBounded(timeout: nat, expected: set<nat>, replies: seq<Reply>, jitter: seq<nat>)
    requires Timed(timeout, replies, jitter)
    ensures Attempts(timeout, expected, replies, jitter, 0).1 <= WorstRequest(timeout)
  {
    assert Attempts(timeout, expected, replies, jitter, 2).1 <= timeout;
    assert Attempts(timeout, expected, replies, jitter, 1).1 <= 2 * timeout + Max(600, timeout);
  }

  lemma WorstIsReached(timeout: nat, expected: set<nat>) returns (replies: seq<Reply>, jitter: seq<nat>)
    requires 429 !in expected
    ensures Timed(timeout, replies, jitter) && Attempts(timeout, expected, replies, jitter, 0).1 == WorstRequest(timeout)
  {
    var slow := Status(429, Some(timeout), timeout);
    var lost := NoResponse(timeout);
    replies := [if timeout >= 350 then slow else lost, if timeout >= 600 then slow else lost, lost];
    jitter := [100, 100, 100];
    assert Attempts(timeout, expected, replies, jitter, 2) == (false, timeout);
    assert Attempts(timeout, expected, replies, jitter, 1) == (false, 2 * timeout + Max(600, timeout));
  }

  lemma LeaseCoversIff(timeout: nat)
    ensures 3 * WorstRequest(timeout) <= Lease(timeout) <==> timeout <= LONGEST_TIMEOUT_MS
  {
  }

  function Elapsed(timeout: nat, expected: set<nat>, n: Network): nat
    requires |n.replies| == ATTEMPTS && |n.jitter| == ATTEMPTS
  {
    Attempts(timeout, expected, n.replies, n.jitter, 0).1
  }

  // Whatever the network does, the three requests of one reconciliation end within the lease.
  ghost predicate LeaseSuffices(timeout: nat, expected: set<nat>) {
    forall get: Network, patch: Network, verify: Network ::
      Timed(timeout, get.replies, get.jitter) && Timed(timeout, patch.replies, patch.jitter) && Timed(timeout, verify.replies, verify.jitter) ==>
        Elapsed(timeout, expected, get) + Elapsed(timeout, expected, patch) + Elapsed(timeout, expected, verify) <= Lease(timeout)
  }

  /** The lease covers every behaviour of the network exactly for timeouts of up to a minute. The
      configuration allows 58 seconds. */
  lemma LeaseSufficesIff(timeout: nat, expected: set<nat>)
    requires 429 !in expected
    ensures LeaseSuffices(timeout, expected) <==> timeout <= LONGEST_TIMEOUT_MS
  {
    LeaseCoversIff(timeout);
    if timeout <= LONGEST_TIMEOUT_MS {
      forall get: Network, patch: Network, verify: Network
        | Timed(timeout, get.replies, get.jitter) && Timed(timeout, patch.replies, patch.jitter) && Timed(timeout, verify.replies, verify.jitter)
        ensures Elapsed(timeout, expected, get) + Elapsed(timeout, expected, patch) + Elapsed(timeout, expected, verify) <= Lease(timeout)
      {
        RequestIsBounded(timeout, expected, get.replies, get.jitter);
        RequestIsBounded(timeout, expected, patch.replies, patch.jitter);
        RequestIsBounded(timeout, expected, verify.replies, verify.jitter);
      }
    } else {
      var replies, jitter := WorstIsReached(timeout, expected);
      var worst := Network(replies, jitter);
      assert 3 * Elapsed(timeout, expected, worst) > Lease(timeout);
    }
  }
}
