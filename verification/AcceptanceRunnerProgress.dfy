/** What moves the acceptance runner on: the exact condition under which a call passes, fails or leaves the
    current step, and the evidence and diagnostics it leaves behind. */
module AcceptanceRunnerProgress {
  import opened Options
  import opened AcceptanceRunner
  import opened AcceptanceRunnerSafety

  // ---------------------------------------------------------------- appending a driver's items

  predicate AllWellFormed(items: seq<Item>) {
    forall i :: 0 <= i < |items| ==> items[i].Item?
  }

  // The driver's items, recorded for the step at the time of the call.
  ghost predicate Records(before: seq<Evidence>, after: seq<Evidence>, step: nat, now: nat, items: seq<Item>) {
    && |after| == |before| + |items| && before <= after
    && forall i :: 0 <= i < |items| ==> items[i].Item? && after[|before| + i] == Evidence(step, now, items[i].content)
  }

  // The number of items before the first that is refused.
  predicate Accepted(s: State, items: seq<Item>, n: nat) {
    n <= |items| && |s.evidence| + n <= MAX_EVIDENCE && forall i :: 0 <= i < n ==> items[i].Item?
  }

  lemma RecordsMore(before: seq<Evidence>, mid: seq<Evidence>, after: seq<Evidence>, step: nat, now: nat, items: seq<Item>)
    requires items != [] && Records(before, mid, step, now, items[..|items| - 1]) && items[|items| - 1].Item?
    requires after == mid + [Evidence(step, now, items[|items| - 1].content)]
    ensures Records(before, after, step, now, items)
  {
    forall i | 0 <= i < |items| ensures items[i].Item? && after[|before| + i] == Evidence(step, now, items[i].content) {
      if i < |items| - 1 {
        assert items[..|items| - 1][i] == items[i];
        assert after[|before| + i] == mid[|before| + i];
      }
    }
  }

  /** All items are recorded, in order, exactly if every one is well-formed and they fit; otherwise those before
      the first refused one are, and the error says what was wrong with that one. */
  lemma {:induction false} AppendAllIff(s: State, step: nat, now: nat, items: seq<Item>)
    requires |s.evidence| <= MAX_EVIDENCE
    ensures var o := AppendAll(s, step, now, items);
            && (o.thrown.None? <==> Accepted(s, items, |items|))
            && o.state == s.(evidence := o.state.evidence, revision := o.state.revision)
            && |o.state.evidence| <= MAX_EVIDENCE
    ensures var o := AppendAll(s, step, now, items);
            o.thrown.None? ==> Records(s.evidence, o.state.evidence, step, now, items)
    ensures var o := AppendAll(s, step, now, items);
            o.thrown.Some? ==>
              var n := |o.state.evidence| - |s.evidence|;
              && 0 <= n < |items| && Accepted(s, items, n) && Records(s.evidence, o.state.evidence, step, now, items[..n])
              && (if items[n].Malformed? then o.thrown == Some("schema")
                  else |s.evidence| + n == MAX_EVIDENCE && o.thrown == Some("evidence_capacity_exceeded"))
  {
    if items != [] {
      var front := items[..|items| - 1];
      AppendAllIff(s, step, now, front);
      var o := AppendAll(s, step, now, front);
      assert forall i :: 0 <= i < |front| ==> front[i] == items[i];
      if o.thrown.Some? {
        var n := |o.state.evidence| - |s.evidence|;
        assert front[..n] == items[..n];
        NotAllAccepted(s, items, n);
      } else if Append(o.state, step, now, items[|items| - 1]).thrown.None? {
        RecordsMore(s.evidence, o.state.evidence, AppendAll(s, step, now, items).state.evidence, step, now, items);
      }
    }
  }

  lemma NotAllAccepted(s: State, items: seq<Item>, n: nat)
    requires n < |items| && (items[n].Malformed? || |s.evidence| + n >= MAX_EVIDENCE)
    ensures !Accepted(s, items, |items|)
  {
  }

  // ---------------------------------------------------------------- automatic steps

  // The driver verified the step, and what it hands back can be recorded.
  predicate Verifies(s: State, answer: DriverAnswer) {
    answer.Verified? && Accepted(s, answer.items, |answer.items|)
  }

  // There is a malformed item, and room for those before it.
  ghost predicate MeetsMalformed(s: State, items: seq<Item>) {
    exists n :: 0 <= n < |items| && Accepted(s, items, n) && items[n].Malformed?
  }

  // Why a verification counts as failed.
  ghost predicate Blames(s: State, answer: DriverAnswer, fallback: string, extra: nat, code: string, retryable: bool) {
    match answer
    case AssertionFailed(c, r) => code == c && retryable == r
    case OtherError => code == fallback && retryable
    case Verified(items, _) =>
      if MeetsMalformed(s, items) then code == fallback && retryable
      else |s.evidence| + |items| + extra > MAX_EVIDENCE && code == "evidence_capacity_exceeded" && !retryable
  }

  // The step is failed, and the newest diagnostic says why; of the older ones the last 31 are kept.
  predicate FailedWith(s: State, s': State, now: nat, code: string, retryable: bool) {
    && s.index < |s.steps| && s'.index == s.index && s'.steps == s.steps[s.index := Failed]
    && s'.diagnostics != [] && s'.diagnostics[|s'.diagnostics| - 1] == Diagnostic(s.index, now, code, retryable)
    && var kept := s'.diagnostics[..|s'.diagnostics| - 1];
       |kept| == (if |s.diagnostics| < 31 then |s.diagnostics| else 31) && kept == s.diagnostics[|s.diagnostics| - |kept|..]
  }

  // The step is passed and the runner stands at the next one; nothing else changed but the log.
  predicate PassedOn(s: State, s': State) {
    && s.index < |s.steps| && s'.index == s.index + 1 && s'.steps == s.steps[s.index := Passed]
    && s'.diagnostics == s.diagnostics && s'.runId == s.runId
  }

  lemma FailsWith(s: State, mid: State, now: nat, code: string, retryable: bool)
    requires s.index < |s.steps| && mid.index == s.index && mid.diagnostics == s.diagnostics
    requires |mid.steps| == |s.steps| && mid.steps == s.steps[s.index := mid.steps[s.index]]
    ensures FailedWith(s, FailStep(mid, s.index, now, code, retryable), now, code, retryable)
  {
    var s' := FailStep(mid, s.index, now, code, retryable);
    assert mid.steps[s.index := Failed] == s.steps[s.index := Failed];
    assert s'.diagnostics[..|s'.diagnostics| - 1] == LastUpTo(s.diagnostics, 31);
  }

  predicate AtAutomatic(s: State) {
    CurrentKind(s, Automatic) && s.steps[s.index] != Passed && s.steps[s.index] != Failed
  }

  lemma VerifiedPasses(s: State, now: nat, answer: DriverAnswer)
    requires Inv(s) && AtAutomatic(s) && Verifies(s, answer)
    ensures var s' := Verify(s, s.index, now, answer);
            PassedOn(s, s') && Records(s.evidence, s'.evidence, s.index, now, answer.items)
  {
    var running := SetStep(s, s.index, Running);
    assert Accepted(running, answer.items, |answer.items|);
    AppendAllIff(running, s.index, now, answer.items);
    assert s.steps[s.index := Running][s.index := Passed] == s.steps[s.index := Passed];
  }

  // The first item that is refused, among the driver's own or after them.
  lemma MalformedIsMet(s: State, items: seq<Item>, last: seq<Item>, n: nat)
    requires AllWellFormed(last) && Accepted(s, items + last, n) && n < |items + last| && (items + last)[n].Malformed?
    ensures MeetsMalformed(s, items)
  {
    assert forall i :: |items| <= i < |items + last| ==> (items + last)[i] == last[i - |items|];
    assert forall i :: 0 <= i < n ==> items[i] == (items + last)[i];
    assert Accepted(s, items, n) && items[n].Malformed?;
  }

  lemma NoneIsMet(s: State, items: seq<Item>, last: seq<Item>, n: nat)
    requires Accepted(s, items + last, n) && n < |items + last| && (items + last)[n].Item? && |s.evidence| + n == MAX_EVIDENCE
    ensures !MeetsMalformed(s, items)
  {
    assert forall i :: 0 <= i < |items| ==> items[i] == (items + last)[i];
  }

  // The items that were refused, seen from the outcome of the loop.
  lemma RefusalBlames(s: State, now: nat, items: seq<Item>, durable: Option<Digest>, fallback: string, last: seq<Item>)
    requires |s.evidence| <= MAX_EVIDENCE && AllWellFormed(last)
    requires AppendAll(s, s.index, now, items + last).thrown.Some?
    ensures var thrown := AppendAll(s, s.index, now, items + last).thrown.value;
            if thrown == "schema" then Blames(s, Verified(items, durable), fallback, |last|, fallback, true)
            else Blames(s, Verified(items, durable), fallback, |last|, thrown, false)
  {
    var all := items + last;
    AppendAllIff(s, s.index, now, all);
    var n := |AppendAll(s, s.index, now, all).state.evidence| - |s.evidence|;
    if all[n].Malformed? { MalformedIsMet(s, items, last, n); } else { NoneIsMet(s, items, last, n); }
  }

  lemma UnverifiedFails(s: State, now: nat, answer: DriverAnswer) returns (code: string, retryable: bool)
    requires Inv(s) && AtAutomatic(s) && !Verifies(s, answer)
    ensures Blames(s, answer, "acceptance_check_failed", 0, code, retryable)
    ensures FailedWith(s, Verify(s, s.index, now, answer), now, code, retryable)
  {
    var fallback := "acceptance_check_failed";
    var running := SetStep(s, s.index, Running);
    match answer
    case AssertionFailed(c, r) =>
      code, retryable := c, r;
      FailsWith(s, running, now, code, retryable);
    case OtherError =>
      code, retryable := fallback, true;
      FailsWith(s, running, now, code, retryable);
    case Verified(items, durable) =>
      AppendAllIff(running, s.index, now, items);
      var o := AppendAll(running, s.index, now, items);
      assert Accepted(running, items, |items|) == Accepted(s, items, |items|);
      assert items + [] == items;
      RefusalBlames(running, now, items, durable, fallback, []);
      SameBlame(s, running, answer, fallback, 0);
      code, retryable := if o.thrown.value == "schema" then fallback else o.thrown.value, o.thrown.value == "schema";
      FailsWith(s, o.state, now, code, retryable);
  }

  lemma SameBlame(s: State, s': State, answer: DriverAnswer, fallback: string, extra: nat)
    requires s'.evidence == s.evidence
    ensures forall code, retryable :: Blames(s', answer, fallback, extra, code, retryable) <==> Blames(s, answer, fallback, extra, code, retryable)
  {
    if answer.Verified? {
      assert forall n :: Accepted(s', answer.items, n) <==> Accepted(s, answer.items, n);
      assert MeetsMalformed(s', answer.items) <==> MeetsMalformed(s, answer.items);
    }
  }

  /** At an automatic step that has not failed, a call moves on exactly if the driver verified the step and its
      evidence is well-formed and fits; then precisely that evidence is recorded. Otherwise the step is failed
      and the newest diagnostic carries the driver's code and whether a retry may help. */
  lemma AdvanceMovesIff(s: State, now: nat, answer: DriverAnswer)
    requires Inv(s) && AtAutomatic(s)
    ensures var o := Apply(s, now, Advance(answer));
            && o.thrown.None?
            && (o.state.index == s.index + 1 <==> Verifies(s, answer))
            && (Verifies(s, answer) ==> PassedOn(s, o.state) && Records(s.evidence, o.state.evidence, s.index, now, answer.items))
            && (!Verifies(s, answer) ==>
                  exists code, retryable ::
                    FailedWith(s, o.state, now, code, retryable) && Blames(s, answer, "acceptance_check_failed", 0, code, retryable))
  {
    if Verifies(s, answer) {
      VerifiedPasses(s, now, answer);
    } else {
      var code, retryable := UnverifiedFails(s, now, answer);
      assert FailedWith(s, Apply(s, now, Advance(answer)).state, now, code, retryable);
    }
  }

  /** At a step of another kind a call only waits: for the wallet, for the reload (once its evidence is frozen),
      or for the operator. A failed step refuses to go on until it is retried. */
  lemma AdvanceWaits(s: State, now: nat, answer: DriverAnswer)
    requires Inv(s) && s.index < STEP_COUNT && !AtAutomatic(s)
    ensures var (o, kind) := (Apply(s, now, Advance(answer)), KindOf(s.index));
            && o.state.index == s.index && o.state.diagnostics == s.diagnostics
            && (if s.steps[s.index] == Failed then o == Outcome(s, Some("failed_step_requires_retry"))
                else o.state.steps == s.steps[s.index := if kind == Signature then WaitingSignature
                                                         else if kind == Reload then WaitingReload else WaitingOperator])
            && (s.steps[s.index] != Failed && kind != Reload ==> o.thrown.None? && o.state.evidence == s.evidence)
            && (s.steps[s.index] != Failed && kind == Reload ==>
                  (o.thrown.None? <==> FirstPre(s.evidence, s.index).Some? || |s.evidence| < MAX_EVIDENCE))
  {
  }

  // ---------------------------------------------------------------- reload checkpoints

  // What was frozen on entering the checkpoint.
  function FrozenHash(s: State): Option<Digest> {
    var pre := FirstPre(s.evidence, s.index);
    if pre.None? then None else pre.value.content.blockHash
  }

  predicate Hydrates(s: State, answer: DriverAnswer) {
    answer.Verified? && answer.durableFingerprint == FrozenHash(s)
    && Accepted(s, answer.items, |answer.items|) && |s.evidence| + |answer.items| < MAX_EVIDENCE
  }

  ghost predicate BlamesReload(s: State, answer: DriverAnswer, code: string, retryable: bool) {
    if answer.Verified? && answer.durableFingerprint != FrozenHash(s) then code == "reload_projection_mismatch" && retryable
    else Blames(s, answer, "reload_verification_failed", 1, code, retryable)
  }

  lemma HydratedPasses(s: State, now: nat, answer: DriverAnswer)
    requires Inv(s) && CurrentKind(s, Reload) && FrozenHash(s).Some? && Hydrates(s, answer)
    ensures var s' := Apply(s, now, AcknowledgeReload(answer)).state;
            && PassedOn(s, s')
            && Records(s.evidence, s'.evidence, s.index, now, answer.items + [Item(Checkpoint(POST_LABEL, None, FrozenHash(s)))])
  {
    var all := answer.items + [Item(Checkpoint(POST_LABEL, None, FrozenHash(s)))];
    forall i | 0 <= i < |all| ensures all[i].Item? {
    }
    AppendAllIff(s, s.index, now, all);
  }

  // The acknowledgement whose evidence is refused half-way.
  lemma RefusedAcknowledgement(s: State, now: nat, items: seq<Item>, all: seq<Item>, o: Outcome)
    requires Inv(s) && CurrentKind(s, Reload) && FrozenHash(s).Some? && all == items + [Item(Checkpoint(POST_LABEL, None, FrozenHash(s)))]
    requires o == AppendAll(s, s.index, now, all) && o.thrown.Some? && s.index < |o.state.steps|
    ensures Apply(s, now, AcknowledgeReload(Verified(items, FrozenHash(s)))).state
            == FailThrown(o.state, s.index, now, o.thrown.value, "reload_verification_failed")
  {
  }

  lemma ThrownIsFailed(s: State, mid: State, now: nat, thrown: string, fallback: string)
    requires s.index < |s.steps| && mid == s.(evidence := mid.evidence, revision := mid.revision)
    ensures var schema := thrown == "schema";
            FailedWith(s, FailThrown(mid, s.index, now, thrown, fallback), now, if schema then fallback else thrown, schema)
  {
    FailsWith(s, mid, now, if thrown == "schema" then fallback else thrown, thrown == "schema");
  }

  // All of it would have been accepted only if the step had been hydrated.
  lemma UnhydratedIsRefused(s: State, now: nat, items: seq<Item>, all: seq<Item>)
    requires Inv(s) && FrozenHash(s).Some? && !Hydrates(s, Verified(items, FrozenHash(s)))
    requires all == items + [Item(Checkpoint(POST_LABEL, None, FrozenHash(s)))]
    ensures AppendAll(s, s.index, now, all).thrown.Some?
  {
    AppendAllIff(s, s.index, now, all);
    assert forall i :: 0 <= i < |items| ==> all[i] == items[i];
  }

  // The fingerprint was found again, but the evidence cannot be recorded.
  lemma UnrecordedFails(s: State, now: nat, items: seq<Item>) returns (code: string, retryable: bool)
    requires Inv(s) && CurrentKind(s, Reload) && FrozenHash(s).Some? && !Hydrates(s, Verified(items, FrozenHash(s)))
    ensures BlamesReload(s, Verified(items, FrozenHash(s)), code, retryable)
    ensures FailedWith(s, Apply(s, now, AcknowledgeReload(Verified(items, FrozenHash(s)))).state, now, code, retryable)
  {
    var fallback := "reload_verification_failed";
    var last := [Item(Checkpoint(POST_LABEL, None, FrozenHash(s)))];
    UnhydratedIsRefused(s, now, items, items + last);
    AppendAllIff(s, s.index, now, items + last);
    var o := AppendAll(s, s.index, now, items + last);
    RefusalBlames(s, now, items, FrozenHash(s), fallback, last);
    code, retryable := if o.thrown.value == "schema" then fallback else o.thrown.value, o.thrown.value == "schema";
    RefusedAcknowledgement(s, now, items, items + last, o);
    ThrownIsFailed(s, o.state, now, o.thrown.value, fallback);
  }

  lemma UnhydratedFails(s: State, now: nat, answer: DriverAnswer) returns (code: string, retryable: bool)
    requires Inv(s) && CurrentKind(s, Reload) && FrozenHash(s).Some? && !Hydrates(s, answer)
    ensures BlamesReload(s, answer, code, retryable)
    ensures FailedWith(s, Apply(s, now, AcknowledgeReload(answer)).state, now, code, retryable)
  {
    if answer.Verified? && answer.durableFingerprint == FrozenHash(s) {
      code, retryable := UnrecordedFails(s, now, answer.items);
    } else {
      match answer
      case AssertionFailed(c, r) => code, retryable := c, r;
      case OtherError => code, retryable := "reload_verification_failed", true;
      case Verified(_, _) => code, retryable := "reload_projection_mismatch", true;
      FailsWith(s, s, now, code, retryable);
    }
  }

  /** At a reload checkpoint that was entered, an acknowledgement moves on exactly if the driver finds the frozen
      fingerprint again and its evidence, with the checkpoint's own, is well-formed and fits; otherwise the step
      is failed with the reason. Before the checkpoint was entered it is refused. */
  lemma AcknowledgeMovesIff(s: State, now: nat, answer: DriverAnswer)
    requires Inv(s) && CurrentKind(s, Reload)
    ensures var o := Apply(s, now, AcknowledgeReload(answer));
            if FrozenHash(s).None? then o == Outcome(s, Some("pre_reload_fingerprint_missing"))
            else
              && o.thrown.None?
              && (o.state.index == s.index + 1 <==> Hydrates(s, answer))
              && (Hydrates(s, answer) ==> PassedOn(s, o.state))
              && (!Hydrates(s, answer) ==>
                    exists code, retryable :: FailedWith(s, o.state, now, code, retryable) && BlamesReload(s, answer, code, retryable))
  {
    if FrozenHash(s).Some? {
      if Hydrates(s, answer) {
        HydratedPasses(s, now, answer);
      } else {
        var code, retryable := UnhydratedFails(s, now, answer);
        assert FailedWith(s, Apply(s, now, AcknowledgeReload(answer)).state, now, code, retryable);
      }
    }
  }

  // ---------------------------------------------------------------- signatures, the operator, retries

  // Known already, under the same transaction or operation.
  ghost predicate Known(s: State, c: Content) {
    exists i :: 0 <= i < |s.evidence| && s.evidence[i].stepId == s.index && SameOperation(c, s.evidence[i].content)
  }

  function Candidate(c: Content): Content {
    c.(kind := if c.transactionHash.None? then "operation" else "transaction")
  }

  lemma {:induction false} FirstDuplicateIff(evidence: seq<Evidence>, step: nat, c: Content)
    ensures FirstDuplicate(evidence, step, c).Some? <==> exists i :: 0 <= i < |evidence| && evidence[i].stepId == step && SameOperation(c, evidence[i].content)
    ensures FirstDuplicate(evidence, step, c).Some? ==>
              exists i :: 0 <= i < |evidence| && evidence[i].stepId == step && evidence[i].content == FirstDuplicate(evidence, step, c).value
                          && SameOperation(c, evidence[i].content)
  {
    if evidence != [] {
      var front := evidence[..|evidence| - 1];
      FirstDuplicateIff(front, step, c);
      if FirstDuplicate(front, step, c).Some? {
        var i :| 0 <= i < |front| && front[i].stepId == step && front[i].content == FirstDuplicate(front, step, c).value && SameOperation(c, front[i].content);
        assert evidence[i] == front[i];
      } else if FirstDuplicate(evidence, step, c).Some? {
        assert evidence[|evidence| - 1].content == FirstDuplicate(evidence, step, c).value;
      } else {
        assert forall i :: 0 <= i < |front| ==> evidence[i] == front[i];
      }
    }
  }

  /** Signature evidence is added exactly while the wallet is waited for, if it is well-formed, new and fits;
      for an operation known already it is refused if it says anything else, and otherwise changes nothing. */
  lemma RecordAddsIff(s: State, now: nat, input: Item)
    requires Inv(s)
    ensures var o := Apply(s, now, RecordSignature(input));
            var active := CurrentKind(s, Signature) && s.steps[s.index] == WaitingSignature && input.Item?;
            && o.state.index == s.index && o.state.steps == s.steps && o.state.diagnostics == s.diagnostics
            && (o.state.evidence != s.evidence <==> active && !Known(s, Candidate(input.content)) && |s.evidence| < MAX_EVIDENCE)
            && (o.state.evidence != s.evidence ==>
                  o.thrown.None? && o.state.evidence == s.evidence + [Evidence(s.index, now, Candidate(input.content))])
            && (active && o.thrown.None? && o.state.evidence == s.evidence ==>
                  exists i :: 0 <= i < |s.evidence| && s.evidence[i].stepId == s.index && s.evidence[i].content == Candidate(input.content))
            && (active && o.thrown == Some("known_operation_evidence_conflict") ==> Known(s, Candidate(input.content)))
            && (!active ==> o.thrown.Some?)
  {
    if CurrentKind(s, Signature) && s.steps[s.index] == WaitingSignature && input.Item? {
      FirstDuplicateIff(s.evidence, s.index, Candidate(input.content));
    }
  }

  /** A signature checkpoint is left exactly with durable evidence for it. */
  lemma CompleteMovesIff(s: State, now: nat)
    requires Inv(s)
    ensures var o := Apply(s, now, CompleteSignature);
            if CurrentKind(s, Signature) && HasDurable(s.evidence, s.index)
            then o.thrown.None? && PassedOn(s, o.state) && o.state.evidence == s.evidence
            else o.thrown.Some? && o.state == s
  {
  }

  /** The operator checkpoint is left exactly by an acknowledgement that can be recorded. */
  lemma OperatorMovesIff(s: State, now: nat, operationId: Option<string>, wellFormed: bool)
    requires Inv(s)
    ensures var o := Apply(s, now, AcknowledgeOperator(operationId, wellFormed));
            if CurrentKind(s, Operator) && wellFormed && |s.evidence| < MAX_EVIDENCE
            then && o.thrown.None? && PassedOn(s, o.state)
                 && Records(s.evidence, o.state.evidence, s.index, now, [Item(Checkpoint("operator_action_completed", operationId, None))])
            else o.thrown.Some? && o.state == s
  {
  }

  /** Only a failed step can be retried; it is pending again. */
  lemma RetryIff(s: State, now: nat)
    requires Inv(s)
    ensures var o := Apply(s, now, RetryFailed);
            if s.index < STEP_COUNT && s.steps[s.index] == Failed
            then o.thrown.None? && o.state == s.(steps := s.steps[s.index := Pending], revision := o.state.revision)
            else o == Outcome(s, Some("failed_step_not_found"))
  {
  }

  // ---------------------------------------------------------------- the plan

  function StepsOf(kind: StepKind, n: nat): nat {
    if n == 0 then 0 else StepsOf(kind, n - 1) + if KindOf(n - 1) == kind then 1 else 0
  }

  /** The plan of 30 steps: ten signatures, each checked by the automatic step after it; five reloads, each of which
      freezes the automatic step right before it; the operator once, after the check of a signature. */
  lemma PlanShape()
    ensures StepsOf(Signature, STEP_COUNT) == 10 && StepsOf(Reload, STEP_COUNT) == 5 && StepsOf(Operator, STEP_COUNT) == 1
    ensures forall i: nat :: i < STEP_COUNT && KindOf(i) == Signature ==> i + 1 < STEP_COUNT && KindOf(i + 1) == Automatic
    ensures forall i: nat :: i < STEP_COUNT && KindOf(i) == Reload ==> ReloadSource(i) == i - 1
    ensures forall i: nat :: i < STEP_COUNT && KindOf(i) == Operator ==> i >= 2 && KindOf(i - 2) == Signature && KindOf(i - 1) == Automatic && KindOf(i + 1) == Automatic
  {
    Plan(Signature);
    Plan(Reload);
    Plan(Operator);
  }

  lemma Plan(kind: StepKind)
    ensures StepsOf(kind, STEP_COUNT) == match kind case Signature => 10 case Reload => 5 case Operator => 1 case Automatic => 14
  {
    FirstHalf(kind);
    assert StepsOf(kind, 22) == match kind case Signature => 8 case Reload => 4 case Operator => 0 case Automatic => 10;
  }

  lemma FirstHalf(kind: StepKind)
    ensures StepsOf(kind, 15) == match kind case Signature => 5 case Reload => 3 case Operator => 0 case Automatic => 7
  {
    assert StepsOf(kind, 8) == match kind case Signature => 2 case Reload => 2 case Operator => 0 case Automatic => 4;
  }

  // ---------------------------------------------------------------- how a step was passed

  // The call that takes the runner past the step it stands at.
  ghost predicate Earns(s: State, call: Call) {
    match call
    case Advance(answer) => AtAutomatic(s) && Verifies(s, answer)
    case RecordSignature(_) => false
    case CompleteSignature => CurrentKind(s, Signature) && HasDurable(s.evidence, s.index)
    case AcknowledgeReload(answer) => CurrentKind(s, Reload) && FrozenHash(s).Some? && Hydrates(s, answer)
    case AcknowledgeOperator(_, wellFormed) => CurrentKind(s, Operator) && wellFormed && |s.evidence| < MAX_EVIDENCE
    case RetryFailed => false
  }

  lemma AdvanceStays(s: State, now: nat, answer: DriverAnswer)
    requires Inv(s) && !AtAutomatic(s)
    ensures Apply(s, now, Advance(answer)).state.index == s.index
  {
    if s.index < STEP_COUNT { AdvanceWaits(s, now, answer); }
  }

  /** In every good state, a call moves the runner on exactly if it earns it. */
  lemma MovesIff(s: State, now: nat, call: Call)
    requires Inv(s)
    ensures var s' := Apply(s, now, call).state;
            && (s'.index == s.index + 1 <==> Earns(s, call)) && (s'.index == s.index <==> !Earns(s, call))
  {
    match call
    case Advance(answer) => if AtAutomatic(s) { AdvanceMovesIff(s, now, answer); CallKeepsInvariant(s, now, call); } else { AdvanceStays(s, now, answer); }
    case RecordSignature(input) => RecordAddsIff(s, now, input);
    case CompleteSignature => CompleteMovesIff(s, now);
    case AcknowledgeReload(answer) => if CurrentKind(s, Reload) { AcknowledgeMovesIff(s, now, answer); CallKeepsInvariant(s, now, call); }
    case AcknowledgeOperator(operationId, wellFormed) => OperatorMovesIff(s, now, operationId, wellFormed);
    case RetryFailed => RetryIff(s, now);
  }

  // Call `k` of the run took it past step `i`, and earned it.
  ghost predicate PassedBy(runId: nat, calls: seq<(nat, Call)>, i: nat, k: nat)
    requires k < |calls|
  {
    var s := Run(Fresh(runId), calls[..k]);
    s.index == i && Earns(s, calls[k].1)
  }

  /** In every run, every step passed was passed by a call that earned it: an automatic step by a driver that
      verified it, a signature by completing it on durable evidence, a reload by a driver that found the frozen
      fingerprint, the operator's by his acknowledgement. */
  lemma {:induction false} EveryStepWasEarned(runId: nat, calls: seq<(nat, Call)>, i: nat)
    requires i < Run(Fresh(runId), calls).index
    ensures exists k :: 0 <= k < |calls| && PassedBy(runId, calls, i, k)
  {
    if calls != [] {
      var (front, last) := (calls[..|calls| - 1], calls[|calls| - 1]);
      var mid := Run(Fresh(runId), front);
      EveryRunKeepsInvariant(runId, front);
      MovesIff(mid, last.0, last.1);
      CallKeepsInvariant(mid, last.0, last.1);
      if i < mid.index {
        EveryStepWasEarned(runId, front, i);
        var k :| 0 <= k < |front| && PassedBy(runId, front, i, k);
        assert front[..k] == calls[..k];
        assert PassedBy(runId, calls, i, k);
      } else {
        assert calls[..|calls| - 1] == front;
        assert PassedBy(runId, calls, i, |calls| - 1);
      }
    }
  }

  // ---------------------------------------------------------------- what the evidence of a passed step says

  /** Every passed signature step has recorded an intent with the transaction or operation it led to, and a
      deposit where the step makes one; the wallet's ownership proof has its challenge and address. */
  lemma SignedStepsAreReferenced(runId: nat, calls: seq<(nat, Call)>, i: nat)
    requires i < Run(Fresh(runId), calls).index && KindOf(i) == Signature
    ensures exists k :: 0 <= k < |Run(Fresh(runId), calls).evidence| &&
              var e := Run(Fresh(runId), calls).evidence[k];
              && e.stepId == i
              && (if i == 2 then e.content.challengeId.Some? && e.content.address.Some?
                  else e.content.intentId.Some? && (e.content.transactionHash.Some? || e.content.operationId.Some?)
                       && (i == 11 || i == 13 || i == 15 ==> e.content.depositId.Some?))
  {
    EveryRunKeepsInvariant(runId, calls);
    var evidence := Run(Fresh(runId), calls).evidence;
    assert HasDurable(evidence, i);
    var k :| 0 <= k < |evidence| && evidence[k].stepId == i && Durable(i, evidence[k].content);
  }

  // Neither names a transaction or an operation that the other names.
  predicate Unrelated(a: Content, b: Content) {
    (a.transactionHash.None? || a.transactionHash != b.transactionHash) && (a.operationId.None? || a.operationId != b.operationId)
  }

  // Two items of one signature step are about different operations.
  ghost predicate OperationsDiffer(evidence: seq<Evidence>) {
    forall i, j :: 0 <= i < j < |evidence| && evidence[i].stepId == evidence[j].stepId && KindOf(evidence[i].stepId) == Signature ==>
      Unrelated(evidence[j].content, evidence[i].content)
  }

  lemma OtherStepsKeepDiffering(s: State, s': State)
    requires OperationsDiffer(s.evidence) && s.evidence <= s'.evidence
    requires forall i :: |s.evidence| <= i < |s'.evidence| ==> s'.evidence[i].stepId == s.index
    requires KindOf(s.index) != Signature || s'.evidence == s.evidence
    ensures OperationsDiffer(s'.evidence)
  {
  }

  lemma RecordKeepsDiffering(s: State, now: nat, input: Item)
    requires Inv(s) && OperationsDiffer(s.evidence)
    ensures OperationsDiffer(Apply(s, now, RecordSignature(input)).state.evidence)
  {
    RecordAddsIff(s, now, input);
  }

  lemma SignatureEvidenceIsRecorded(s: State, now: nat, call: Call)
    requires Inv(s) && s.index < STEP_COUNT && KindOf(s.index) == Signature && !call.RecordSignature?
    ensures Apply(s, now, call).state.evidence == s.evidence
  {
    if call.Advance? && s.steps[s.index] != Failed { AdvanceWaits(s, now, call.answer); }
  }

  lemma BeyondTheEnd(s: State, now: nat, call: Call)
    requires Inv(s) && s.index >= STEP_COUNT
    ensures Apply(s, now, call).state == s
  {
  }

  /** In every run, no transaction or operation is recorded twice for the same signature step. */
  lemma {:induction false} OperationsAreRecordedOnce(runId: nat, calls: seq<(nat, Call)>)
    ensures OperationsDiffer(Run(Fresh(runId), calls).evidence)
  {
    if calls != [] {
      var last := calls[|calls| - 1];
      var s := Run(Fresh(runId), calls[..|calls| - 1]);
      OperationsAreRecordedOnce(runId, calls[..|calls| - 1]);
      EveryRunKeepsInvariant(runId, calls[..|calls| - 1]);
      CallKeepsInvariant(s, last.0, last.1);
      if s.index >= STEP_COUNT {
        BeyondTheEnd(s, last.0, last.1);
      } else if last.1.RecordSignature? {
        RecordKeepsDiffering(s, last.0, last.1.input);
      } else {
        if KindOf(s.index) == Signature { SignatureEvidenceIsRecorded(s, last.0, last.1); }
        OtherStepsKeepDiffering(s, Apply(s, last.0, last.1).state);
      }
    }
  }
}
