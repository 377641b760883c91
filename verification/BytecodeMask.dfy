/** Zeroing the immutable ranges of deployed bytecode before it is compared with the pinned artifact, in the
    three places that do it. */
module BytecodeMask {
  import opened Options

  type Byte = n: nat | n < 256

  datatype Range = Range(start: int, length: int)

  // The three copies differ in the ranges they refuse. Buffer.fill itself refuses a negative offset or end.
  datatype Copy = RpcAdapter | ArtifactLoader | LiveDriver

  predicate Refused(copy: Copy, r: Range, size: nat) {
    match copy
    case RpcAdapter => r.start < 0 || r.length < 0 || r.start + r.length > size
    case ArtifactLoader => r.start + r.length > size || r.start < 0 || r.start + r.length < 0
    case LiveDriver => r.start < 0 || r.length <= 0 || r.start + r.length > size
  }

  predicate Covers(r: Range, i: nat) { r.start <= i < r.start + r.length }

  predicate Covered(ranges: seq<Range>, i: nat) {
    exists k :: 0 <= k < |ranges| && Covers(ranges[k], i)
  }

  /** Zero inside any range, the original byte elsewhere. */
  function Masked(bytes: seq<Byte>, ranges: seq<Range>): (r: seq<Byte>)
    ensures |r| == |bytes|
    ensures forall i :: 0 <= i < |bytes| ==> r[i] == if Covered(ranges, i) then 0 else bytes[i]
  {
    seq(|bytes|, i requires 0 <= i < |bytes| => if Covered(ranges, i) then 0 else bytes[i])
  }

  predicate AnyRefused(copy: Copy, ranges: seq<Range>, size: nat) {
    exists k :: 0 <= k < |ranges| && Refused(copy, ranges[k], size)
  }

  // The normalised bytecode, or the error.
  function Normalised(copy: Copy, bytes: seq<Byte>, ranges: seq<Range>): Option<seq<Byte>> {
    if AnyRefused(copy, ranges, |bytes|) then None else Some(Masked(bytes, ranges))
  }

  function Flatten(references: seq<seq<Range>>): seq<Range> {
    if references == [] then [] else Flatten(references[..|references| - 1]) + references[|references| - 1]
  }

  lemma MaskStep(bytes: seq<Byte>, done: seq<Range>, r: Range, i: nat)
    requires i < |bytes|
    ensures Masked(bytes, done + [r])[i] == if Covers(r, i) then 0 else Masked(bytes, done)[i]
  {
    var all := done + [r];
    assert all[|done|] == r;
    if Covered(done, i) {
      var k :| 0 <= k < |done| && Covers(done[k], i);
      assert all[k] == done[k];
    }
  }

  // Buffer.fill(0, start, end), which does nothing when the end is not after the start.
  method Fill(a: array<Byte>, r: Range)
    requires 0 <= r.start && 0 <= r.start + r.length <= a.Length
    modifies a
    ensures forall i :: 0 <= i < a.Length ==> a[i] == if Covers(r, i) then 0 else old(a[i])
  {
    var i := r.start;
    while i < r.start + r.length
      invariant r.start <= i && (i <= r.start + r.length || i == r.start)
      invariant forall k :: 0 <= k < a.Length ==> a[k] == if r.start <= k < i then 0 else old(a[k])
    {
      a[i] := 0;
      i := i + 1;
    }
  }

  /** The nested fill loops, in place. */
  method Normalise(copy: Copy, a: array<Byte>, references: seq<seq<Range>>) returns (ok: bool)
    modifies a
    ensures ok <==> !AnyRefused(copy, Flatten(references), a.Length)
    ensures ok ==> a[..] == Masked(old(a[..]), Flatten(references))
  {
    ghost var bytes := a[..];
    assert Flatten(references[..0]) == [];
    for k := 0 to |references|
      invariant !AnyRefused(copy, Flatten(references[..k]), a.Length)
      invariant a[..] == Masked(bytes, Flatten(references[..k]))
    {
      assert references[..k + 1][..k] == references[..k];
      var group := references[k];
      ghost var before := Flatten(references[..k]);
      assert before + group[..0] == before;
      for j := 0 to |group|
        invariant !AnyRefused(copy, before + group[..j], a.Length)
        invariant a[..] == Masked(bytes, before + group[..j])
      {
        assert before + group[..j + 1] == (before + group[..j]) + [group[j]];
        if Refused(copy, group[j], a.Length) {
          RefusedSomewhere(copy, references, k, j, a.Length);
          return false;
        }
        Fill(a, group[j]);
        forall i | 0 <= i < a.Length ensures a[i] == Masked(bytes, before + group[..j + 1])[i] {
          MaskStep(bytes, before + group[..j], group[j], i);
        }
      }
      assert before + group[..|group|] == Flatten(references[..k + 1]);
    }
    assert references[..|references|] == references;
    ok := true;
  }

  lemma {:induction false} RefusedSomewhere(copy: Copy, references: seq<seq<Range>>, k: nat, j: nat, size: nat)
    requires k < |references| && j < |references[k]| && Refused(copy, references[k][j], size)
    ensures AnyRefused(copy, Flatten(references), size)
  {
    var n := |references| - 1;
    var front := Flatten(references[..n]);
    if k < n {
      RefusedSomewhere(copy, references[..n], k, j, size);
      var m :| 0 <= m < |front| && Refused(copy, front[m], size);
      assert Flatten(references)[m] == front[m];
    } else {
      assert Flatten(references)[|front| + j] == references[k][j];
    }
  }

  // ---------------------------------------------------------------- what the masking means

  /** Order, repetition and overlap of the ranges do not matter. */
  lemma OnlyTheCoverMatters(bytes: seq<Byte>, a: seq<Range>, b: seq<Range>)
    requires forall i :: 0 <= i < |bytes| ==> (Covered(a, i) <==> Covered(b, i))
    ensures Masked(bytes, a) == Masked(bytes, b)
  {
  }

  lemma MaskingTwiceIsOnce(bytes: seq<Byte>, ranges: seq<Range>)
    ensures Masked(Masked(bytes, ranges), ranges) == Masked(bytes, ranges)
  {
  }

  /** Two runtimes normalise equally exactly when they agree at every byte outside the ranges. */
  lemma MaskedEqualIff(x: seq<Byte>, y: seq<Byte>, ranges: seq<Range>)
    requires |x| == |y|
    ensures Masked(x, ranges) == Masked(y, ranges) <==> forall i :: 0 <= i < |x| && !Covered(ranges, i) ==> x[i] == y[i]
  {
    if Masked(x, ranges) == Masked(y, ranges) {
      forall i | 0 <= i < |x| && !Covered(ranges, i) ensures x[i] == y[i] {
        assert Masked(x, ranges)[i] == Masked(y, ranges)[i];
      }
    }
  }

  // What the artifact schema admits.
  predicate Admitted(ranges: seq<Range>) {
    forall k :: 0 <= k < |ranges| ==> ranges[k].start >= 0 && ranges[k].length > 0
  }

  /** On every range list the artifact schema admits, in bounds or not, the three copies do the same. */
  lemma CopiesAgree(bytes: seq<Byte>, ranges: seq<Range>)
    requires Admitted(ranges)
    ensures Normalised(RpcAdapter, bytes, ranges) == Normalised(ArtifactLoader, bytes, ranges) == Normalised(LiveDriver, bytes, ranges)
  {
    assert forall k, c: Copy :: 0 <= k < |ranges| ==> (Refused(c, ranges[k], |bytes|) <==> ranges[k].start + ranges[k].length > |bytes|);
  }

  /** An empty range is what separates the live driver from the other two. */
  lemma DriverDiffersIff(bytes: seq<Byte>, ranges: seq<Range>)
    requires forall k :: 0 <= k < |ranges| ==> ranges[k].start >= 0 && ranges[k].length >= 0
    ensures Normalised(RpcAdapter, bytes, ranges) == Normalised(ArtifactLoader, bytes, ranges)
    ensures Normalised(RpcAdapter, bytes, ranges) != Normalised(LiveDriver, bytes, ranges) <==>
            !AnyRefused(RpcAdapter, ranges, |bytes|) && exists k :: 0 <= k < |ranges| && ranges[k].length == 0
  {
    assert forall k :: 0 <= k < |ranges| ==> (Refused(RpcAdapter, ranges[k], |bytes|) <==> Refused(ArtifactLoader, ranges[k], |bytes|));
    assert forall k :: 0 <= k < |ranges| ==>
      (Refused(LiveDriver, ranges[k], |bytes|) <==> Refused(RpcAdapter, ranges[k], |bytes|) || ranges[k].length == 0);
  }
}
