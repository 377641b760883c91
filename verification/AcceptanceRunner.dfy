/** The 30-step acceptance runner: its state, what each call does to it, and the object that holds
    it. All timestamps of one call are the single `now` of that call. */
module AcceptanceRunner {
  import opened Options

  datatype StepKind = Automatic | Signature | Reload | Operator

  const STEP_COUNT: nat := 30
  const MAX_EVIDENCE: nat := 256
  const MAX_DIAGNOSTICS: nat := 32
  const PRE_LABEL := "pre_reload_durable_fingerprint"
  const POST_LABEL := "owner_page_reloaded_and_hydrated"

  function KindOf(step: nat): StepKind {
    if step in {2, 5, 8, 11, 13, 15, 17, 21, 25, 28} then Signature
    else if step in {4, 7, 10, 19, 27} then Reload
    else if step == 23 then Operator
    else Automatic
  }

  // The verification step whose evidence a reload checkpoint freezes.
  function ReloadSource(step: nat): (source: nat)
    requires KindOf(step) == Reload
    ensures source < step && KindOf(source) == Automatic
  {
    match step
    case 4 => 3
    case 7 => 6
    case 10 => 9
    case 19 => 18
    case _ => 26
  }

  // SHA-256 of the normalised evidence, taken as injective: a digest is its preimage.
  datatype Digest = Sha256(preimage: seq<Content>) | OtherHash(id: nat)

  // The public fields of an evidence item, without the two that the fingerprint drops.
  datatype Content = Content(
    kind: string, labelText: string, operationId: Option<string>, intentId: Option<string>,
    depositId: Option<string>, challengeId: Option<string>, transactionHash: Option<string>,
    blockHash: Option<Digest>, address: Option<string>, other: string)

  datatype Evidence = Evidence(stepId: nat, recordedAt: nat, content: Content)

  datatype Diagnostic = Diagnostic(stepId: nat, recordedAt: nat, code: string, retryable: bool)

  datatype Status =
    Pending | Running | WaitingSignature | WaitingReload | WaitingOperator | Passed | Failed

  datatype State = State(
    revision: nat, runId: nat, index: nat, steps: seq<Status>,
    evidence: seq<Evidence>, diagnostics: seq<Diagnostic>)

  // What a driver hands back; a malformed item does not pass the evidence schema.
  datatype Item = Item(content: Content) | Malformed

  datatype DriverAnswer =
    | Verified(items: seq<Item>, durableFingerprint: Option<Digest>)
    | AssertionFailed(code: string, retryable: bool)
    | OtherError

  datatype Call =
    | Advance(answer: DriverAnswer)
    | RecordSignature(input: Item)
    | CompleteSignature
    | AcknowledgeReload(answer: DriverAnswer)
    | AcknowledgeOperator(operationId: Option<string>, wellFormed: bool)
    | RetryFailed

  // A call returns normally or throws; a throw can leave earlier in-memory writes behind.
  datatype Outcome = Outcome(state: State, thrown: Option<string>)

  function Fresh(runId: nat): State {
    State(0, runId, 0, seq(STEP_COUNT, _ => Pending), [], [])
  }

  // ---------------------------------------------------------------- pure parts

  function Contents(evidence: seq<Evidence>): seq<Content> {
    if evidence == [] then []
    else Contents(evidence[..|evidence| - 1]) + [evidence[|evidence| - 1].content]
  }

  function Fingerprint(evidence: seq<Evidence>): Digest {
    Sha256(Contents(evidence))
  }

  function OfStep(evidence: seq<Evidence>, step: nat): seq<Evidence> {
    if evidence == [] then []
    else
      var last := evidence[|evidence| - 1];
      var earlier := OfStep(evidence[..|evidence| - 1], step);
      if last.stepId == step then earlier + [last] else earlier
  }

  // Array.prototype.find with the pre-reload label.
  function FirstPre(evidence: seq<Evidence>, step: nat): Option<Evidence> {
    if evidence == [] then None
    else
      var earlier := FirstPre(evidence[..|evidence| - 1], step);
      var last := evidence[|evidence| - 1];
      if earlier.Some? then earlier
      else if last.stepId == step && last.content.labelText == PRE_LABEL then Some(last) else None
  }

  predicate Durable(step: nat, c: Content) {
    var known := c.transactionHash.Some? || c.operationId.Some?;
    if step == 2 then c.challengeId.Some? && c.address.Some?
    else if step in {11, 13, 15} then c.intentId.Some? && c.depositId.Some? && known
    else c.intentId.Some? && known
  }

  predicate SameOperation(candidate: Content, c: Content) {
    || (candidate.transactionHash.Some? && c.transactionHash == candidate.transactionHash)
    || (candidate.operationId.Some? && c.operationId == candidate.operationId)
  }

  function FirstDuplicate(evidence: seq<Evidence>, step: nat, candidate: Content): Option<Content> {
    if evidence == [] then None
    else
      var earlier := FirstDuplicate(evidence[..|evidence| - 1], step, candidate);
      var last := evidence[|evidence| - 1];
      if earlier.Some? then earlier
      else if last.stepId == step && SameOperation(candidate, last.content) then Some(last.content) else None
  }

  function Checkpoint(labelText: string, operationId: Option<string>, hash: Option<Digest>): Content {
    Content("checkpoint", labelText, operationId, None, None, None, None, hash, None, "")
  }

  // ---------------------------------------------------------------- what each call does

  function SetStep(s: State, step: nat, status: Status): State
    requires step < |s.steps|
  {
    s.(steps := s.steps[step := status], revision := s.revision + 1)
  }

  function Append(s: State, step: nat, now: nat, item: Item): Outcome {
    if item.Malformed? then Outcome(s, Some("schema"))
    else if |s.evidence| >= MAX_EVIDENCE then Outcome(s, Some("evidence_capacity_exceeded"))
    else Outcome(s.(evidence := s.evidence + [Evidence(step, now, item.content)], revision := s.revision + 1), None)
  }

  function AppendAll(s: State, step: nat, now: nat, items: seq<Item>): (o: Outcome)
    ensures o.state.steps == s.steps
  {
    if items == [] then Outcome(s, None)
    else
      var o := AppendAll(s, step, now, items[..|items| - 1]);
      if o.thrown.Some? then o else Append(o.state, step, now, items[|items| - 1])
  }

  function PassStep(s: State, step: nat): State
    requires step < |s.steps|
  {
    var passed := SetStep(s, step, Passed);
    passed.(index := passed.index + 1, revision := passed.revision + 1)
  }

  function LastUpTo<T>(items: seq<T>, n: nat): seq<T> {
    if |items| <= n then items else items[|items| - n..]
  }

  function FailStep(s: State, step: nat, now: nat, code: string, retryable: bool): State
    requires step < |s.steps|
  {
    var failed := SetStep(s, step, Failed);
    failed.(diagnostics := LastUpTo(failed.diagnostics, MAX_DIAGNOSTICS - 1) + [Diagnostic(step, now, code, retryable)],
            revision := failed.revision + 1)
  }

  // The catch block shared by both verifications; `fallback` names an error that is not an assertion.
  function FailThrown(s: State, step: nat, now: nat, thrown: string, fallback: string): State
    requires step < |s.steps|
  {
    if thrown == "schema" then FailStep(s, step, now, fallback, true)
    else FailStep(s, step, now, thrown, false)
  }

  function Verify(s: State, step: nat, now: nat, answer: DriverAnswer): State
    requires step < |s.steps|
  {
    var fallback := "acceptance_check_failed";
    var running := SetStep(s, step, Running);
    match answer
    case AssertionFailed(code, retryable) => FailStep(running, step, now, code, retryable)
    case OtherError => FailStep(running, step, now, fallback, true)
    case Verified(items, _) =>
      var o := AppendAll(running, step, now, items);
      match o.thrown
      case None => PassStep(o.state, step)
      case Some(thrown) => FailThrown(o.state, step, now, thrown, fallback)
  }

  function EnterReload(s: State, step: nat, now: nat): Outcome
    requires step < |s.steps| && KindOf(step) == Reload
  {
    var waiting := SetStep(s, step, WaitingReload);
    if FirstPre(waiting.evidence, step).Some? then Outcome(waiting, None)
    else
      var frozen := Fingerprint(OfStep(waiting.evidence, ReloadSource(step)));
      Append(waiting, step, now, Item(Checkpoint(PRE_LABEL, None, Some(frozen))))
  }

  function DoAdvance(s: State, now: nat, answer: DriverAnswer): Outcome
    decreases STEP_COUNT - s.index
  {
    if s.index >= STEP_COUNT || s.index >= |s.steps| then Outcome(s, None)
    else
      var step := s.index;
      if s.steps[step] == Passed then DoAdvance(s.(index := s.index + 1), now, answer)
      else if s.steps[step] == Failed then Outcome(s, Some("failed_step_requires_retry"))
      else
        match KindOf(step)
        case Automatic => Outcome(Verify(s, step, now, answer), None)
        case Signature => Outcome(SetStep(s, step, WaitingSignature), None)
        case Operator => Outcome(SetStep(s, step, WaitingOperator), None)
        case Reload => EnterReload(s, step, now)
  }

  predicate CurrentKind(s: State, kind: StepKind) {
    s.index < STEP_COUNT && s.index < |s.steps| && KindOf(s.index) == kind
  }

  function DoRecord(s: State, now: nat, input: Item): Outcome {
    if !CurrentKind(s, Signature) then Outcome(s, Some("checkpoint_kind_mismatch"))
    else if s.steps[s.index] != WaitingSignature then Outcome(s, Some("signature_checkpoint_not_active"))
    else if input.Malformed? then Outcome(s, Some("schema"))
    else
      var candidate := input.content.(kind := if input.content.transactionHash.None? then "operation" else "transaction");
      match FirstDuplicate(s.evidence, s.index, candidate)
      case Some(known) =>
        if Sha256([known]) != Sha256([candidate]) then Outcome(s, Some("known_operation_evidence_conflict")) else Outcome(s, None)
      case None => Append(s, s.index, now, Item(candidate))
  }

  predicate HasDurable(evidence: seq<Evidence>, step: nat) {
    exists i :: 0 <= i < |evidence| && evidence[i].stepId == step && Durable(step, evidence[i].content)
  }

  function DoComplete(s: State): Outcome {
    if !CurrentKind(s, Signature) then Outcome(s, Some("checkpoint_kind_mismatch"))
    else if !HasDurable(s.evidence, s.index) then Outcome(s, Some("signature_evidence_required"))
    else Outcome(PassStep(s, s.index), None)
  }

  function DoAcknowledgeReload(s: State, now: nat, answer: DriverAnswer): Outcome {
    if !CurrentKind(s, Reload) then Outcome(s, Some("checkpoint_kind_mismatch"))
    else
      var step := s.index;
      var pre := FirstPre(s.evidence, step);
      if pre.None? || pre.value.content.blockHash.None? then Outcome(s, Some("pre_reload_fingerprint_missing"))
      else
        var fallback := "reload_verification_failed";
        match answer
        case AssertionFailed(code, retryable) => Outcome(FailStep(s, step, now, code, retryable), None)
        case OtherError => Outcome(FailStep(s, step, now, fallback, true), None)
        case Verified(items, durable) =>
          if durable != pre.value.content.blockHash
          then Outcome(FailStep(s, step, now, "reload_projection_mismatch", true), None)
          else
            var o := AppendAll(s, step, now, items + [Item(Checkpoint(POST_LABEL, None, durable))]);
            match o.thrown
            case None => Outcome(PassStep(o.state, step), None)
            case Some(thrown) => Outcome(FailThrown(o.state, step, now, thrown, fallback), None)
  }

  function DoAcknowledgeOperator(s: State, now: nat, operationId: Option<string>, wellFormed: bool): Outcome {
    if !CurrentKind(s, Operator) then Outcome(s, Some("checkpoint_kind_mismatch"))
    else
      var item := if wellFormed then Item(Checkpoint("operator_action_completed", operationId, None)) else Malformed;
      var o := Append(s, s.index, now, item);
      if o.thrown.Some? then o else Outcome(PassStep(o.state, s.index), None)
  }

  function DoRetry(s: State): Outcome {
    if s.index >= STEP_COUNT || s.index >= |s.steps| || s.steps[s.index] != Failed then Outcome(s, Some("failed_step_not_found"))
    else Outcome(SetStep(s, s.index, Pending), None)
  }

  function Apply(s: State, now: nat, call: Call): Outcome {
    match call
    case Advance(answer) => DoAdvance(s, now, answer)
    case RecordSignature(input) => DoRecord(s, now, input)
    case CompleteSignature => DoComplete(s)
    case AcknowledgeReload(answer) => DoAcknowledgeReload(s, now, answer)
    case AcknowledgeOperator(operationId, wellFormed) => DoAcknowledgeOperator(s, now, operationId, wellFormed)
    case RetryFailed => DoRetry(s)
  }

  function Run(s: State, calls: seq<(nat, Call)>): State {
    if calls == [] then s
    else
      var last := calls[|calls| - 1];
      Apply(Run(s, calls[..|calls| - 1]), last.0, last.1).state
  }

  // ---------------------------------------------------------------- the object

  class ArcAcceptanceRunner {
    var state: State

    constructor (s: State)
      ensures state == s
    {
      state := s;
    }

    method Touch()
      modifies this
      ensures state == old(state).(revision := old(state).revision + 1)
    {
      state := state.(revision := state.revision + 1);
    }

    method WriteStep(step: nat, status: Status)
      requires step < |state.steps|
      modifies this
      ensures state == SetStep(old(state), step, status)
    {
      state := state.(steps := state.steps[step := status]);
      Touch();
    }

    method AppendEvidence(step: nat, now: nat, item: Item) returns (thrown: Option<string>)
      modifies this
      ensures Outcome(state, thrown) == Append(old(state), step, now, item)
    {
      if item.Malformed? { return Some("schema"); }
      if |state.evidence| >= MAX_EVIDENCE { return Some("evidence_capacity_exceeded"); }
      state := state.(evidence := state.evidence + [Evidence(step, now, item.content)]);
      Touch();
      thrown := None;
    }

    method AppendItems(step: nat, now: nat, items: seq<Item>) returns (thrown: Option<string>)
      modifies this
      ensures Outcome(state, thrown) == AppendAll(old(state), step, now, items)
    {
      thrown := None;
      var i := 0;
      while i < |items| && thrown.None?
        invariant 0 <= i <= |items|
        invariant Outcome(state, thrown) == AppendAll(old(state), step, now, items[..i])
      {
        assert items[..i + 1][..i] == items[..i];
        thrown := AppendEvidence(step, now, items[i]);
        i := i + 1;
      }
      if thrown.Some? { ThrownStays(old(state), step, now, items, i); }
      assert items[..|items|] == items;
    }

    method Pass(step: nat)
      requires step < |state.steps|
      modifies this
      ensures state == PassStep(old(state), step)
    {
      WriteStep(step, Passed);
      state := state.(index := state.index + 1);
      Touch();
    }

    method Fail(step: nat, now: nat, code: string, retryable: bool)
      requires step < |state.steps|
      modifies this
      ensures state == FailStep(old(state), step, now, code, retryable)
    {
      WriteStep(step, Failed);
      state := state.(diagnostics := LastUpTo(state.diagnostics, MAX_DIAGNOSTICS - 1) + [Diagnostic(step, now, code, retryable)]);
      Touch();
    }

    method AdvanceCall(now: nat, answer: DriverAnswer) returns (thrown: Option<string>)
      modifies this
      ensures Outcome(state, thrown) == DoAdvance(old(state), now, answer)
      decreases STEP_COUNT - state.index
    {
      thrown := None;
      if state.index >= STEP_COUNT || state.index >= |state.steps| { return; }
      var step := state.index;
      if state.steps[step] == Passed {
        state := state.(index := state.index + 1);
        thrown := AdvanceCall(now, answer);
        return;
      }
      if state.steps[step] == Failed { return Some("failed_step_requires_retry"); }
      if KindOf(step) != Automatic {
        WriteStep(step, match KindOf(step) case Signature => WaitingSignature case Reload => WaitingReload case _ => WaitingOperator);
        if KindOf(step) == Reload && FirstPre(state.evidence, step).None? {
          var frozen := Fingerprint(OfStep(state.evidence, ReloadSource(step)));
          thrown := AppendEvidence(step, now, Item(Checkpoint(PRE_LABEL, None, Some(frozen))));
        }
        return;
      }
      WriteStep(step, Running);
      match answer
      case AssertionFailed(code, retryable) => Fail(step, now, code, retryable);
      case OtherError => Fail(step, now, "acceptance_check_failed", true);
      case Verified(items, _) =>
        var caught := AppendItems(step, now, items);
        match caught
        case None => Pass(step);
        case Some(code) =>
          if code == "schema" { Fail(step, now, "acceptance_check_failed", true); } else { Fail(step, now, code, false); }
    }

    method RecordSignatureEvidence(now: nat, input: Item) returns (thrown: Option<string>)
      modifies this
      ensures Outcome(state, thrown) == DoRecord(old(state), now, input)
    {
      if !CurrentKind(state, Signature) { return Some("checkpoint_kind_mismatch"); }
      if state.steps[state.index] != WaitingSignature { return Some("signature_checkpoint_not_active"); }
      if input.Malformed? { return Some("schema"); }
      var candidate := input.content.(kind := if input.content.transactionHash.None? then "operation" else "transaction");
      var duplicate := FirstDuplicate(state.evidence, state.index, candidate);
      if duplicate.Some? {
        if Sha256([duplicate.value]) != Sha256([candidate]) { return Some("known_operation_evidence_conflict"); }
        return None;
      }
      thrown := AppendEvidence(state.index, now, Item(candidate));
    }

    method CompleteSignatureBoundary() returns (thrown: Option<string>)
      modifies this
      ensures Outcome(state, thrown) == DoComplete(old(state))
    {
      if !CurrentKind(state, Signature) { return Some("checkpoint_kind_mismatch"); }
      if !HasDurable(state.evidence, state.index) { return Some("signature_evidence_required"); }
      Pass(state.index);
      thrown := None;
    }

    method AcknowledgeReloadCall(now: nat, answer: DriverAnswer) returns (thrown: Option<string>)
      modifies this
      ensures Outcome(state, thrown) == DoAcknowledgeReload(old(state), now, answer)
    {
      if !CurrentKind(state, Reload) { return Some("checkpoint_kind_mismatch"); }
      var step := state.index;
      var pre := FirstPre(state.evidence, step);
      if pre.None? || pre.value.content.blockHash.None? { return Some("pre_reload_fingerprint_missing"); }
      thrown := None;
      match answer
      case AssertionFailed(code, retryable) => Fail(step, now, code, retryable);
      case OtherError => Fail(step, now, "reload_verification_failed", true);
      case Verified(items, durable) =>
        if durable != pre.value.content.blockHash {
          Fail(step, now, "reload_projection_mismatch", true);
          return;
        }
        var last := Item(Checkpoint(POST_LABEL, None, durable));
        var caught := AppendItems(step, now, items);
        if caught.None? { caught := AppendEvidence(step, now, last); }
        assert (items + [last])[..|items + [last]| - 1] == items;
        match caught
        case None => Pass(step);
        case Some(code) =>
          if code == "schema" { Fail(step, now, "reload_verification_failed", true); } else { Fail(step, now, code, false); }
    }

    method AcknowledgeOperatorAction(now: nat, operationId: Option<string>, wellFormed: bool) returns (thrown: Option<string>)
      modifies this
      ensures Outcome(state, thrown) == DoAcknowledgeOperator(old(state), now, operationId, wellFormed)
      ensures if thrown.Some? then state == old(state)
              else state.index == old(state).index + 1 && |state.evidence| == |old(state).evidence| + 1 && old(state).evidence <= state.evidence
    {
      if !CurrentKind(state, Operator) { return Some("checkpoint_kind_mismatch"); }
      var step := state.index;
      thrown := AppendEvidence(step, now,
        if wellFormed then Item(Checkpoint("operator_action_completed", operationId, None)) else Malformed);
      if thrown.None? { Pass(step); }
    }

    method RetryFailedAssertion() returns (thrown: Option<string>)
      modifies this
      ensures Outcome(state, thrown) == DoRetry(old(state))
      ensures state.index == old(state).index && state.evidence == old(state).evidence && state.diagnostics == old(state).diagnostics
      ensures forall i :: 0 <= i < |state.steps| && i != state.index ==> i < |old(state).steps| && state.steps[i] == old(state).steps[i]
    {
      if state.index >= STEP_COUNT || state.index >= |state.steps| || state.steps[state.index] != Failed {
        return Some("failed_step_not_found");
      }
      WriteStep(state.index, Pending);
      thrown := None;
    }
  }

  lemma {:induction false} ThrownStays(s: State, step: nat, now: nat, items: seq<Item>, i: nat)
    requires i <= |items| && AppendAll(s, step, now, items[..i]).thrown.Some?
    ensures AppendAll(s, step, now, items) == AppendAll(s, step, now, items[..i])
    decreases |items|
  {
    if i < |items| {
      var front := items[..|items| - 1];
      assert front[..i] == items[..i];
      ThrownStays(s, step, now, front, i);
    } else {
      assert items[..i] == items;
    }
  }
}
