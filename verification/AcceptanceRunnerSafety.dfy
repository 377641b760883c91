/** What every sequence of runner calls keeps, whatever the driver answers. */
module AcceptanceRunnerSafety {
  import opened Options
  import opened AcceptanceRunner

  ghost predicate Shape(s: State) {
    && |s.steps| == STEP_COUNT && s.index <= STEP_COUNT
    && |s.evidence| <= MAX_EVIDENCE && |s.diagnostics| <= MAX_DIAGNOSTICS
    && (forall i :: 0 <= i < s.index ==> s.steps[i] == Passed)
    && (forall i :: s.index < i < STEP_COUNT ==> s.steps[i] == Pending)
    && (s.index < STEP_COUNT ==> s.steps[s.index] != Passed)
  }

  ghost predicate Tagged(evidence: seq<Evidence>, step: nat) {
    exists i :: 0 <= i < |evidence| && evidence[i].stepId == step
  }

  // The first pre-reload item of a checkpoint carries the fingerprint of its source step.
  ghost predicate Frozen(evidence: seq<Evidence>, reload: nat)
    requires KindOf(reload) == Reload
  {
    var pre := FirstPre(evidence, reload);
    pre.Some? && pre.value.content.blockHash == Some(Fingerprint(OfStep(evidence, ReloadSource(reload))))
  }

  ghost predicate Log(evidence: seq<Evidence>, index: nat) {
    && (forall i :: 0 <= i < |evidence| ==> evidence[i].stepId <= index && evidence[i].stepId < STEP_COUNT)
    && (forall i, j :: 0 <= i < j < |evidence| ==> evidence[i].stepId <= evidence[j].stepId)
    && (forall r: nat :: KindOf(r) == Reload && Tagged(evidence, r) ==> Frozen(evidence, r))
  }

  ghost predicate HydratedEqual(evidence: seq<Evidence>, reload: nat) {
    && FirstPre(evidence, reload).Some?
    && exists i :: 0 <= i < |evidence| && evidence[i].stepId == reload && evidence[i].content.labelText == POST_LABEL
         && evidence[i].content.blockHash.Some?
         && evidence[i].content.blockHash == FirstPre(evidence, reload).value.content.blockHash
  }

  ghost predicate Proven(evidence: seq<Evidence>, index: nat) {
    && (forall i :: 0 <= i < index && KindOf(i) == Signature ==> HasDurable(evidence, i))
    && (forall i :: 0 <= i < index && KindOf(i) == Reload ==> HydratedEqual(evidence, i))
  }

  ghost predicate Inv(s: State) {
    Shape(s) && Log(s.evidence, s.index) && Proven(s.evidence, s.index)
  }

  /** One call only appends evidence for the step that was current, moves at most one step on, never
      un-passes a step, and raises the revision whenever it changed anything. */
  ghost predicate Progress(s: State, s': State) {
    && s'.runId == s.runId
    && s.index <= s'.index <= s.index + 1
    && s.evidence <= s'.evidence
    && (forall i :: |s.evidence| <= i < |s'.evidence| ==> s'.evidence[i].stepId == s.index)
    && (s' == s || s'.revision > s.revision)
  }

  // ---------------------------------------------------------------- how the log grows

  lemma FirstPreStable(evidence: seq<Evidence>, more: seq<Evidence>, r: nat)
    requires FirstPre(evidence, r).Some?
    ensures FirstPre(evidence + more, r) == FirstPre(evidence, r)
    decreases |more|
  {
    if more == [] {
      assert evidence + more == evidence;
    } else {
      FirstPreStable(evidence, more[..|more| - 1], r);
      assert (evidence + more)[..|evidence + more| - 1] == evidence + more[..|more| - 1];
    }
  }

  lemma {:induction false} FirstPreIsTagged(evidence: seq<Evidence>, r: nat)
    ensures FirstPre(evidence, r).Some? ==> Tagged(evidence, r)
  {
    if evidence != [] {
      var front := evidence[..|evidence| - 1];
      FirstPreIsTagged(front, r);
      if FirstPre(front, r).Some? {
        var i :| 0 <= i < |front| && front[i].stepId == r;
        assert evidence[i].stepId == r;
      } else if FirstPre(evidence, r).Some? {
        assert evidence[|evidence| - 1].stepId == r;
      }
    }
  }

  lemma AppendOne(evidence: seq<Evidence>, e: Evidence)
    ensures var after := evidence + [e];
            && after[..|after| - 1] == evidence && after[|after| - 1] == e
  {}

  lemma AppendKeepsLog(evidence: seq<Evidence>, index: nat, e: Evidence)
    requires Log(evidence, index) && e.stepId == index < STEP_COUNT
    requires KindOf(index) == Reload ==>
               || FirstPre(evidence, index).Some?
               || (e.content.labelText == PRE_LABEL
                   && e.content.blockHash == Some(Fingerprint(OfStep(evidence, ReloadSource(index)))))
    ensures Log(evidence + [e], index)
  {
    var after := evidence + [e];
    AppendOne(evidence, e);
    forall r: nat | KindOf(r) == Reload && Tagged(after, r) ensures Frozen(after, r) {
      if r != index {
        var i :| 0 <= i < |after| && after[i].stepId == r;
        assert evidence[i].stepId == r;
        assert Tagged(evidence, r);
      } else if FirstPre(evidence, r).Some? {
        FirstPreIsTagged(evidence, r);
      }
      if Tagged(evidence, r) {
        assert Frozen(evidence, r);
        var i :| 0 <= i < |evidence| && evidence[i].stepId == r;
        assert ReloadSource(r) < r <= index;
      }
    }
  }

  lemma GrowthKeepsProven(evidence: seq<Evidence>, more: seq<Evidence>, index: nat)
    requires Proven(evidence, index)
    ensures Proven(evidence + more, index)
  {
    var after := evidence + more;
    forall i | 0 <= i < index && KindOf(i) == Signature ensures HasDurable(after, i) {
      assert HasDurable(evidence, i);
      var k :| 0 <= k < |evidence| && evidence[k].stepId == i && Durable(i, evidence[k].content);
      assert after[k] == evidence[k];
    }
    forall i | 0 <= i < index && KindOf(i) == Reload ensures HydratedEqual(after, i) {
      assert HydratedEqual(evidence, i);
      FirstPreStable(evidence, more, i);
      var k :| 0 <= k < |evidence| && evidence[k].stepId == i && evidence[k].content.labelText == POST_LABEL
               && evidence[k].content.blockHash.Some?
               && evidence[k].content.blockHash == FirstPre(evidence, i).value.content.blockHash;
      assert after[k] == evidence[k];
    }
  }

  // Everything an appending loop may do to the state of the current step.
  ghost predicate Appended(s: State, s': State) {
    && s' == s.(evidence := s'.evidence, revision := s'.revision)
    && s.evidence <= s'.evidence && |s'.evidence| <= MAX_EVIDENCE
    && (forall i :: |s.evidence| <= i < |s'.evidence| ==> s'.evidence[i].stepId == s.index)
    && s'.revision == s.revision + |s'.evidence| - |s.evidence|
    && Log(s'.evidence, s.index) && Proven(s'.evidence, s.index)
  }

  lemma AppendOk(s: State, now: nat, item: Item)
    requires s.index < STEP_COUNT && |s.evidence| <= MAX_EVIDENCE
    requires Log(s.evidence, s.index) && Proven(s.evidence, s.index)
    requires KindOf(s.index) == Reload ==>
               || FirstPre(s.evidence, s.index).Some?
               || (item.Item? && item.content.labelText == PRE_LABEL
                   && item.content.blockHash == Some(Fingerprint(OfStep(s.evidence, ReloadSource(s.index)))))
    ensures Appended(s, Append(s, s.index, now, item).state)
  {
    var o := Append(s, s.index, now, item);
    if o.thrown.None? {
      var e := Evidence(s.index, now, item.content);
      AppendKeepsLog(s.evidence, s.index, e);
      GrowthKeepsProven(s.evidence, [e], s.index);
    }
  }

  lemma AppendedTwice(s: State, s1: State, s2: State)
    requires Appended(s, s1) && Appended(s1, s2)
    ensures Appended(s, s2)
  {}

  lemma AppendedKeepsPre(s: State, s': State, r: nat)
    requires Appended(s, s') && FirstPre(s.evidence, r).Some?
    ensures FirstPre(s'.evidence, r) == FirstPre(s.evidence, r)
  {
    var more := s'.evidence[|s.evidence|..];
    assert s'.evidence == s.evidence + more;
    FirstPreStable(s.evidence, more, r);
  }

  lemma {:induction false} AppendAllOk(s: State, now: nat, items: seq<Item>)
    requires s.index < STEP_COUNT && |s.evidence| <= MAX_EVIDENCE
    requires Log(s.evidence, s.index) && Proven(s.evidence, s.index)
    requires KindOf(s.index) == Reload ==> FirstPre(s.evidence, s.index).Some?
    ensures Appended(s, AppendAll(s, s.index, now, items).state)
    decreases |items|
  {
    if items != [] {
      var front := items[..|items| - 1];
      AppendAllOk(s, now, front);
      var o := AppendAll(s, s.index, now, front);
      if o.thrown.None? {
        if KindOf(s.index) == Reload { AppendedKeepsPre(s, o.state, s.index); }
        AppendOk(o.state, now, items[|items| - 1]);
        AppendedTwice(s, o.state, Append(o.state, s.index, now, items[|items| - 1]).state);
      }
    }
  }

  // ---------------------------------------------------------------- moving between steps

  // A write that leaves the evidence alone and puts a non-passed status on the current step.
  lemma StatusOk(s: State, s': State)
    requires Inv(s) && s.index < STEP_COUNT
    requires s'.index == s.index && s'.evidence == s.evidence && |s'.diagnostics| <= MAX_DIAGNOSTICS
    requires |s'.steps| == STEP_COUNT && s'.steps[s.index] != Passed && s'.steps == s.steps[s.index := s'.steps[s.index]]
    ensures Inv(s')
  {}

  lemma FailOk(s0: State, s: State, now: nat, code: string, retryable: bool)
    requires Inv(s0) && s0.index < STEP_COUNT
    requires s.runId == s0.runId && s.index == s0.index && s.revision >= s0.revision && s.diagnostics == s0.diagnostics
    requires |s.steps| == STEP_COUNT && s.steps == s0.steps[s0.index := s.steps[s0.index]]
    requires s0.evidence <= s.evidence && |s.evidence| <= MAX_EVIDENCE
    requires forall i :: |s0.evidence| <= i < |s.evidence| ==> s.evidence[i].stepId == s0.index
    requires Log(s.evidence, s.index) && Proven(s.evidence, s.index)
    ensures var s' := FailStep(s, s.index, now, code, retryable); Inv(s') && Progress(s0, s')
  {}

  lemma PassOk(s0: State, s: State)
    requires Inv(s0) && s0.index < STEP_COUNT
    requires s.runId == s0.runId && s.index == s0.index && s.revision >= s0.revision && s.diagnostics == s0.diagnostics
    requires |s.steps| == STEP_COUNT && s.steps == s0.steps[s0.index := s.steps[s0.index]]
    requires s0.evidence <= s.evidence && |s.evidence| <= MAX_EVIDENCE
    requires forall i :: |s0.evidence| <= i < |s.evidence| ==> s.evidence[i].stepId == s0.index
    requires Log(s.evidence, s.index) && Proven(s.evidence, s.index)
    requires KindOf(s.index) == Signature ==> HasDurable(s.evidence, s.index)
    requires KindOf(s.index) == Reload ==> HydratedEqual(s.evidence, s.index)
    ensures var s' := PassStep(s, s.index); Inv(s') && Progress(s0, s')
  {
    var s' := PassStep(s, s.index);
    assert Log(s'.evidence, s'.index);
    assert Proven(s'.evidence, s'.index);
    assert Shape(s');
  }

  // ---------------------------------------------------------------- each call

  lemma VerifyOk(s: State, now: nat, answer: DriverAnswer)
    requires Inv(s) && s.index < STEP_COUNT && KindOf(s.index) == Automatic
    ensures var s' := Verify(s, s.index, now, answer); Inv(s') && Progress(s, s')
  {
    var running := SetStep(s, s.index, Running);
    match answer
    case AssertionFailed(code, retryable) => FailOk(s, running, now, code, retryable);
    case OtherError => FailOk(s, running, now, "acceptance_check_failed", true);
    case Verified(items, _) =>
      AppendAllOk(running, now, items);
      var o := AppendAll(running, s.index, now, items);
      match o.thrown
      case None => PassOk(s, o.state);
      case Some(code) =>
        FailOk(s, o.state, now, "acceptance_check_failed", true);
        FailOk(s, o.state, now, code, false);
  }

  lemma FreezeOk(s: State, now: nat)
    requires Inv(s) && s.index < STEP_COUNT && KindOf(s.index) == Reload && FirstPre(s.evidence, s.index).None?
    ensures var frozen := Fingerprint(OfStep(s.evidence, ReloadSource(s.index)));
            var o := Append(s, s.index, now, Item(Checkpoint(PRE_LABEL, None, Some(frozen))));
            && Inv(o.state) && Progress(s, o.state)
            && (o.thrown.None? ==> Frozen(o.state.evidence, s.index))
  {
    var frozen := Fingerprint(OfStep(s.evidence, ReloadSource(s.index)));
    var item := Item(Checkpoint(PRE_LABEL, None, Some(frozen)));
    AppendOk(s, now, item);
    var o := Append(s, s.index, now, item);
    if o.thrown.None? {
      assert o.state.evidence[|s.evidence|].stepId == s.index;
      assert Tagged(o.state.evidence, s.index);
    }
  }

  lemma EnterReloadOk(s: State, now: nat)
    requires Inv(s) && s.index < STEP_COUNT && KindOf(s.index) == Reload
    ensures var o := EnterReload(s, s.index, now);
            && Inv(o.state) && Progress(s, o.state)
            && (o.thrown.None? ==> Frozen(o.state.evidence, s.index))
  {
    var waiting := SetStep(s, s.index, WaitingReload);
    StatusOk(s, waiting);
    if FirstPre(waiting.evidence, s.index).Some? {
      FirstPreIsTagged(waiting.evidence, s.index);
    } else {
      FreezeOk(waiting, now);
    }
  }

  lemma AdvanceOk(s: State, now: nat, answer: DriverAnswer)
    requires Inv(s)
    ensures var o := DoAdvance(s, now, answer); Inv(o.state) && Progress(s, o.state)
  {
    if s.index < STEP_COUNT && s.steps[s.index] != Failed {
      match KindOf(s.index)
      case Automatic => VerifyOk(s, now, answer);
      case Reload => EnterReloadOk(s, now);
      case Signature => StatusOk(s, SetStep(s, s.index, WaitingSignature));
      case Operator => StatusOk(s, SetStep(s, s.index, WaitingOperator));
    }
  }

  lemma AcknowledgeReloadOk(s: State, now: nat, answer: DriverAnswer)
    requires Inv(s)
    ensures var o := DoAcknowledgeReload(s, now, answer); Inv(o.state) && Progress(s, o.state)
  {
    var fallback := "reload_verification_failed";
    if CurrentKind(s, Reload) {
      var pre := FirstPre(s.evidence, s.index);
      if pre.Some? && pre.value.content.blockHash.Some? {
        match answer
        case AssertionFailed(code, retryable) => FailOk(s, s, now, code, retryable);
        case OtherError => FailOk(s, s, now, fallback, true);
        case Verified(items, durable) =>
          if durable != pre.value.content.blockHash {
            FailOk(s, s, now, "reload_projection_mismatch", true);
          } else {
            HydrateOk(s, now, items);
          }
      }
    }
  }

  lemma HydrateOk(s: State, now: nat, items: seq<Item>)
    requires Inv(s) && CurrentKind(s, Reload)
    requires FirstPre(s.evidence, s.index).Some? && FirstPre(s.evidence, s.index).value.content.blockHash.Some?
    ensures var durable := FirstPre(s.evidence, s.index).value.content.blockHash;
            var o := DoAcknowledgeReload(s, now, AcceptanceRunner.Verified(items, durable));
            Inv(o.state) && Progress(s, o.state)
  {
    var durable := FirstPre(s.evidence, s.index).value.content.blockHash;
    var all := items + [Item(Checkpoint(POST_LABEL, None, durable))];
    AppendAllOk(s, now, all);
    var o := AppendAll(s, s.index, now, all);
    match o.thrown
    case None =>
      LastItemHydrates(s, now, items, durable);
      PassOk(s, o.state);
    case Some(code) =>
      FailOk(s, o.state, now, "reload_verification_failed", true);
      FailOk(s, o.state, now, code, false);
  }

  lemma LastItemHydrates(s: State, now: nat, items: seq<Item>, durable: Option<Digest>)
    requires FirstPre(s.evidence, s.index).Some? && FirstPre(s.evidence, s.index).value.content.blockHash == durable
    requires durable.Some?
    requires var o := AppendAll(s, s.index, now, items + [Item(Checkpoint(POST_LABEL, None, durable))]);
             o.thrown.None? && Appended(s, o.state)
    ensures HydratedEqual(AppendAll(s, s.index, now, items + [Item(Checkpoint(POST_LABEL, None, durable))]).state.evidence, s.index)
  {
    var all := items + [Item(Checkpoint(POST_LABEL, None, durable))];
    assert all[..|all| - 1] == items;
    var after := AppendAll(s, s.index, now, all).state;
    AppendedKeepsPre(s, after, s.index);
    assert after.evidence[|after.evidence| - 1] == Evidence(s.index, now, all[|all| - 1].content);
  }

  lemma RecordOk(s: State, now: nat, input: Item)
    requires Inv(s)
    ensures var o := DoRecord(s, now, input); Inv(o.state) && Progress(s, o.state)
  {
    if CurrentKind(s, Signature) && input.Item? {
      var candidate := input.content.(kind := if input.content.transactionHash.None? then "operation" else "transaction");
      AppendOk(s, now, Item(candidate));
    }
  }

  lemma OperatorOk(s: State, now: nat, operationId: Option<string>, wellFormed: bool)
    requires Inv(s)
    ensures var o := DoAcknowledgeOperator(s, now, operationId, wellFormed); Inv(o.state) && Progress(s, o.state)
  {
    if CurrentKind(s, Operator) {
      var item := if wellFormed then Item(Checkpoint("operator_action_completed", operationId, None)) else Malformed;
      AppendOk(s, now, item);
      var o := Append(s, s.index, now, item);
      if o.thrown.None? { PassOk(s, o.state); }
    }
  }

  /** The inductive step: any call, with any driver answer, keeps the invariant and makes progress. */
  lemma CallKeepsInvariant(s: State, now: nat, call: Call)
    requires Inv(s)
    ensures Inv(Apply(s, now, call).state) && Progress(s, Apply(s, now, call).state)
  {
    match call
    case Advance(answer) => AdvanceOk(s, now, answer);
    case RecordSignature(input) => RecordOk(s, now, input);
    case CompleteSignature =>
      if CurrentKind(s, Signature) && HasDurable(s.evidence, s.index) { PassOk(s, s); }
    case AcknowledgeReload(answer) => AcknowledgeReloadOk(s, now, answer);
    case AcknowledgeOperator(operationId, wellFormed) => OperatorOk(s, now, operationId, wellFormed);
    case RetryFailed =>
      if s.index < STEP_COUNT { StatusOk(s, SetStep(s, s.index, Pending)); }
  }

  lemma FreshInvariant(runId: nat)
    ensures Inv(Fresh(runId))
  {}

  lemma {:induction false} EveryRunKeepsInvariant(runId: nat, calls: seq<(nat, Call)>)
    ensures Inv(Run(Fresh(runId), calls))
  {
    if calls == [] {
      FreshInvariant(runId);
    } else {
      EveryRunKeepsInvariant(runId, calls[..|calls| - 1]);
      var last := calls[|calls| - 1];
      CallKeepsInvariant(Run(Fresh(runId), calls[..|calls| - 1]), last.0, last.1);
    }
  }

  /** From any good state on: the evidence is an append-only log, the run id never changes, and an
      unchanged revision means an unchanged state. */
  lemma {:induction false} RunOnlyAppends(s: State, calls: seq<(nat, Call)>)
    requires Inv(s)
    ensures var s' := Run(s, calls);
            && Inv(s') && s'.runId == s.runId && s.index <= s'.index
            && s.evidence <= s'.evidence && (s' == s || s'.revision > s.revision)
  {
    if calls != [] {
      RunOnlyAppends(s, calls[..|calls| - 1]);
      var last := calls[|calls| - 1];
      CallKeepsInvariant(Run(s, calls[..|calls| - 1]), last.0, last.1);
    }
  }

  /** The fingerprint frozen on entering a reload checkpoint stays the fingerprint of the source
      step's evidence, whatever is called afterwards. */
  lemma FrozenForever(s: State, calls: seq<(nat, Call)>, reload: nat)
    requires Inv(s) && KindOf(reload) == Reload && FirstPre(s.evidence, reload).Some?
    ensures var s' := Run(s, calls);
            && FirstPre(s'.evidence, reload) == FirstPre(s.evidence, reload)
            && FirstPre(s.evidence, reload).value.content.blockHash ==
                 Some(Fingerprint(OfStep(s'.evidence, ReloadSource(reload))))
  {
    RunOnlyAppends(s, calls);
    var s' := Run(s, calls);
    assert s'.evidence == s.evidence + s'.evidence[|s.evidence|..];
    FirstPreStable(s.evidence, s'.evidence[|s.evidence|..], reload);
    FirstPreIsTagged(s'.evidence, reload);
    assert Frozen(s'.evidence, reload);
  }

  /** In a reachable state the branch that skips an already passed step is never taken. */
  lemma SkipBranchUnreachable(runId: nat, calls: seq<(nat, Call)>)
    ensures var s := Run(Fresh(runId), calls);
            s.index < STEP_COUNT ==> s.index < |s.steps| && s.steps[s.index] != Passed
  {
    EveryRunKeepsInvariant(runId, calls);
  }

  /** The source of a reload checkpoint is frozen with everything it will ever have: two evidence
      logs with the same digest have the same public contents, item by item. */
  lemma {:induction false} FingerprintDecidesContents(a: seq<Evidence>, b: seq<Evidence>)
    ensures Fingerprint(a) == Fingerprint(b) <==>
            |a| == |b| && forall i :: 0 <= i < |a| ==> a[i].content == b[i].content
  {
    ContentsPointwise(a);
    ContentsPointwise(b);
    if Fingerprint(a) == Fingerprint(b) {
      forall i | 0 <= i < |a| ensures a[i].content == b[i].content {
        assert Contents(a)[i] == Contents(b)[i];
      }
    }
    if |a| == |b| && forall i :: 0 <= i < |a| ==> a[i].content == b[i].content {
      assert Contents(a) == Contents(b);
    }
  }

  lemma {:induction false} ContentsPointwise(evidence: seq<Evidence>)
    ensures |Contents(evidence)| == |evidence|
    ensures forall i :: 0 <= i < |evidence| ==> Contents(evidence)[i] == evidence[i].content
  {
    if evidence != [] { ContentsPointwise(evidence[..|evidence| - 1]); }
  }
}
