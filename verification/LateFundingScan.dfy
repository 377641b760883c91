/** The windowed scan for USDC transfers that reached the escrow outside a tracked intent. */
module LateFundingScan {

  const WINDOW: nat := 50_000

  // One ERC-20 Transfer whose recipient is the escrow, in canonical chain order.
  datatype Log = Log(hash: nat, index: nat, from: nat, value: nat, block: nat)

  predicate Ordered(chain: seq<Log>) {
    forall i, j :: 0 <= i < j < |chain| ==> chain[i].block <= chain[j].block
  }

  // What getLogs returns for an inclusive block range.
  function LogsIn(chain: seq<Log>, lo: int, hi: int): seq<Log> {
    if chain == [] then []
    else
      var front := LogsIn(chain[..|chain| - 1], lo, hi);
      var last := chain[|chain| - 1];
      if lo <= last.block <= hi then front + [last] else front
  }

  function NonZero(logs: seq<Log>): seq<Log> {
    if logs == [] then []
    else
      var front := NonZero(logs[..|logs| - 1]);
      var last := logs[|logs| - 1];
      if last.value == 0 then front else front + [last]
  }

  /** The specification of the whole scan: one pass over the full range. */
  function FullScan(chain: seq<Log>, lo: int, hi: int): seq<Log> {
    NonZero(LogsIn(chain, lo, hi))
  }

  predicate Wanted(log: Log, lo: int, hi: int) {
    lo <= log.block <= hi && log.value > 0
  }

  lemma {:induction false} NonZeroConcat(a: seq<Log>, b: seq<Log>)
    ensures NonZero(a + b) == NonZero(a) + NonZero(b)
    decreases |b|
  {
    if b == [] {
      assert a + b == a;
    } else {
      NonZeroConcat(a, b[..|b| - 1]);
      assert (a + b)[..|a + b| - 1] == a + b[..|b| - 1];
    }
  }

  lemma {:induction false} EmptyRange(chain: seq<Log>, lo: int, hi: int)
    requires forall i :: 0 <= i < |chain| ==> !(lo <= chain[i].block <= hi)
    ensures LogsIn(chain, lo, hi) == []
  {
    if chain != [] { EmptyRange(chain[..|chain| - 1], lo, hi); }
  }

  /** Adjacent block ranges concatenate: windows neither overlap nor leave a gap. */
  lemma {:induction false} AdjacentRanges(chain: seq<Log>, lo: int, mid: int, hi: int)
    requires Ordered(chain) && lo <= mid + 1 <= hi + 1
    ensures LogsIn(chain, lo, mid) + LogsIn(chain, mid + 1, hi) == LogsIn(chain, lo, hi)
  {
    if chain != [] {
      var front := chain[..|chain| - 1];
      var last := chain[|chain| - 1];
      AdjacentRanges(front, lo, mid, hi);
      if lo <= last.block <= mid {
        EmptyRange(front, mid + 1, hi);
        assert LogsIn(front, lo, mid) == LogsIn(front, lo, hi);
      }
    }
  }

  datatype ScanResult = Found(events: seq<Log>, scannedThrough: nat) | ScanFailed

  /** What the node says of the logs it returned: `complete`, that no field of the log is missing;
      `canonical`, that the block of the log is still the canonical one. */
  datatype Node = Node(complete: Log -> bool, canonical: Log -> bool)

  predicate Trusted(node: Node, log: Log) {
    node.complete(log) && (log.value > 0 ==> node.canonical(log))
  }

  predicate AllTrusted(node: Node, logs: seq<Log>) {
    forall i :: 0 <= i < |logs| ==> Trusted(node, logs[i])
  }

  lemma AllTrustedConcat(node: Node, a: seq<Log>, b: seq<Log>)
    ensures AllTrusted(node, a + b) <==> AllTrusted(node, a) && AllTrusted(node, b)
  {
    if AllTrusted(node, a + b) {
      assert forall i :: 0 <= i < |a| ==> (a + b)[i] == a[i];
      assert forall i :: 0 <= i < |b| ==> (a + b)[|a| + i] == b[i];
    }
  }

  method CollectWindow(node: Node, logs: seq<Log>, events: seq<Log>) returns (ok: bool, collected: seq<Log>)
    ensures ok <==> AllTrusted(node, logs)
    ensures ok ==> collected == events + NonZero(logs)
  {
    collected := events;
    for i := 0 to |logs|
      invariant collected == events + NonZero(logs[..i])
      invariant AllTrusted(node, logs[..i])
    {
      assert logs[..i + 1][..i] == logs[..i] && logs[..i + 1][i] == logs[i];
      if !node.complete(logs[i]) { return false, collected; }
      if logs[i].value != 0 {
        if !node.canonical(logs[i]) { return false, collected; }
        collected := collected + [logs[i]];
      }
    }
    assert logs[..|logs|] == logs;
    ok := true;
  }

  /** The loop of findLateFunding: 50,000-block windows, each read and checked on its own, amount to one
      pass over the whole range, and the call fails exactly when some log in the range is not trusted. */
  method FindLateFunding(node: Node, chain: seq<Log>, latest: nat, fromBlock: nat) returns (r: ScanResult)
    requires Ordered(chain)
    ensures r == if AllTrusted(node, LogsIn(chain, fromBlock, latest))
                 then Found(FullScan(chain, fromBlock, latest), latest) else ScanFailed
  {
    EmptyRangeAbove(chain, fromBlock, if fromBlock > latest then latest else fromBlock - 1);
    if fromBlock > latest { return Found([], latest); }
    var events: seq<Log> := [];
    var from: nat := fromBlock;
    ghost var done: int := fromBlock - 1;
    while from <= latest
      invariant fromBlock <= done + 1 && done <= latest
      invariant if from <= latest then done == from - 1 else done == latest
      invariant events == FullScan(chain, fromBlock, done)
      invariant AllTrusted(node, LogsIn(chain, fromBlock, done))
    {
      var to: nat := if from + (WINDOW - 1) < latest then from + (WINDOW - 1) else latest;
      var logs := LogsIn(chain, from, to);
      var ok;
      ok, events := CollectWindow(node, logs, events);
      WindowStep(node, chain, fromBlock, from, to, latest);
      if !ok { return ScanFailed; }
      from := from + WINDOW;
      done := to;
    }
    r := Found(events, latest);
  }

  lemma WindowStep(node: Node, chain: seq<Log>, lo: nat, from: nat, to: nat, latest: nat)
    requires Ordered(chain) && lo <= from <= to <= latest
    ensures FullScan(chain, lo, to) == FullScan(chain, lo, from - 1) + FullScan(chain, from, to)
    ensures AllTrusted(node, LogsIn(chain, lo, to)) <==>
            AllTrusted(node, LogsIn(chain, lo, from - 1)) && AllTrusted(node, LogsIn(chain, from, to))
    ensures AllTrusted(node, LogsIn(chain, lo, latest)) ==> AllTrusted(node, LogsIn(chain, lo, to))
  {
    AdjacentRanges(chain, lo, from - 1, to);
    NonZeroConcat(LogsIn(chain, lo, from - 1), LogsIn(chain, from, to));
    AllTrustedConcat(node, LogsIn(chain, lo, from - 1), LogsIn(chain, from, to));
    AdjacentRanges(chain, lo, to, latest);
    AllTrustedConcat(node, LogsIn(chain, lo, to), LogsIn(chain, to + 1, latest));
  }

  lemma EmptyRangeAbove(chain: seq<Log>, lo: int, hi: int)
    requires hi < lo
    ensures LogsIn(chain, lo, hi) == []
  {
    EmptyRange(chain, lo, hi);
  }

  // ---------------------------------------------------------------- what a scan contains

  lemma {:induction false} ScanStep(chain: seq<Log>, log: Log, lo: int, hi: int)
    ensures FullScan(chain + [log], lo, hi) == FullScan(chain, lo, hi) + if Wanted(log, lo, hi) then [log] else []
  {
    assert (chain + [log])[..|chain|] == chain;
    var logs := LogsIn(chain, lo, hi);
    if lo <= log.block <= hi { assert (logs + [log])[..|logs|] == logs; }
  }

  /** A later chain does not change what an earlier range contains. */
  lemma {:induction false} ScanStable(chain: seq<Log>, more: seq<Log>, lo: int, hi: int)
    requires forall i :: 0 <= i < |more| ==> more[i].block > hi
    ensures FullScan(chain + more, lo, hi) == FullScan(chain, lo, hi)
    decreases |more|
  {
    if more == [] {
      assert chain + more == chain;
    } else {
      var front := more[..|more| - 1];
      ScanStable(chain, front, lo, hi);
      assert chain + more == (chain + front) + [more[|more| - 1]];
      ScanStep(chain + front, more[|more| - 1], lo, hi);
    }
  }

  /** Scanning a longer chain only appends. */
  lemma {:induction false} ScanPrefix(chain: seq<Log>, n: nat, lo: int, hi: int)
    requires n <= |chain|
    ensures FullScan(chain[..n], lo, hi) <= FullScan(chain, lo, hi)
  {
    if n == |chain| {
      assert chain[..n] == chain;
    } else {
      var front := chain[..|chain| - 1];
      ScanPrefix(front, n, lo, hi);
      assert front[..n] == chain[..n] && chain == front + [chain[|chain| - 1]];
      ScanStep(front, chain[|chain| - 1], lo, hi);
    }
  }

  /** Every wanted log is found, right after what the logs before it contribute. */
  lemma ScanFinds(chain: seq<Log>, i: nat, lo: int, hi: int)
    requires i < |chain| && Wanted(chain[i], lo, hi)
    ensures FullScan(chain[..i], lo, hi) + [chain[i]] <= FullScan(chain, lo, hi)
  {
    ScanPrefix(chain, i + 1, lo, hi);
    assert chain[..i + 1] == chain[..i] + [chain[i]];
    ScanStep(chain[..i], chain[i], lo, hi);
  }

  /** Nothing else is found: each event is a wanted log at its place in chain order. */
  lemma {:induction false} ScanIsFromChain(chain: seq<Log>, k: nat, lo: int, hi: int) returns (i: nat)
    requires k < |FullScan(chain, lo, hi)|
    ensures i < |chain| && Wanted(chain[i], lo, hi) && chain[i] == FullScan(chain, lo, hi)[k]
    ensures FullScan(chain[..i], lo, hi) == FullScan(chain, lo, hi)[..k]
  {
    assert chain == [] ==> FullScan(chain, lo, hi) == [];
    var front := chain[..|chain| - 1];
    assert chain == front + [chain[|chain| - 1]];
    ScanStep(front, chain[|chain| - 1], lo, hi);
    if k < |FullScan(front, lo, hi)| {
      i := ScanIsFromChain(front, k, lo, hi);
      assert front[..i] == chain[..i];
    } else {
      i := |chain| - 1;
    }
  }
}
