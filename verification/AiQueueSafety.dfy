/** What every interleaving of AI review workers keeps. */
module AiQueueSafety {
  import opened Options
  import opened AiQueue

  ghost predicate RunOk(w: World, id: RunId)
    requires id in w.db.runs
  {
    var run := w.db.runs[id];
    && run.attempts <= MAX_ATTEMPTS && (run.status.Queued? ==> run.attempts < MAX_ATTEMPTS)
    && (run.status.Running? ==> run.token.Some? && run.token.value in w.drawn && run.attempts > 0)
    && (run.status.Completed? ==> id in w.db.results)
  }

  ghost predicate TablesOk(w: World) {
    && (forall id :: id in w.db.runs ==> RunOk(w, id))
    && (forall id :: id in w.db.results ==> id in w.db.runs && w.db.results[id].source == w.db.runs[id].source)
  }

  ghost predicate JobOk(w: World, pid: Pid, job: Job) {
    && job.id in w.db.runs && w.db.runs[job.id].source == job.source
    && job.token in w.drawn && w.drawn[job.token] == pid
    && (HoldsRun(w.db, job) ==> w.db.runs[job.id].attempts == job.attempts)
  }

  ghost predicate PhaseOk(w: World, pid: Pid, p: Phase) {
    p.Idle? ||
    (&& JobOk(w, pid, p.job)
     && (p.Finishing? ==>
           && !p.want.Running? && (p.want.Queued? ==> p.job.attempts < MAX_ATTEMPTS)
           && (p.want.Completed? && HoldsRun(w.db, p.job) ==> p.job.id in w.db.results)))
  }

  ghost predicate PhasesOk(w: World) {
    forall pid :: PhaseOk(w, pid, PhaseOf(w, pid))
  }

  ghost predicate Safe(w: World) {
    TablesOk(w) && PhasesOk(w)
  }

  // Runs keep their source, tokens their owner, and nobody acquires a run under an old token.
  ghost predicate Grows(w: World, w': World) {
    && (forall id :: id in w.db.runs ==> id in w'.db.runs && w'.db.runs[id].source == w.db.runs[id].source)
    && (forall token :: token in w.drawn ==> token in w'.drawn && w'.drawn[token] == w.drawn[token])
    && (forall job: Job :: job.token in w.drawn && HoldsRun(w'.db, job) ==>
          && HoldsRun(w.db, job) && w'.db.runs[job.id].attempts == w.db.runs[job.id].attempts
          && (job.id in w.db.results ==> job.id in w'.db.results))
  }

  lemma PhaseStays(w: World, w': World, pid: Pid, p: Phase)
    requires PhaseOk(w, pid, p) && Grows(w, w')
    ensures PhaseOk(w', pid, p)
  {
  }

  lemma OthersStay(w: World, w': World, pid: Pid)
    requires PhasesOk(w) && Grows(w, w')
    requires forall q :: q != pid ==> PhaseOf(w', q) == PhaseOf(w, q)
    requires PhaseOk(w', pid, PhaseOf(w', pid))
    ensures PhasesOk(w')
  {
    forall q ensures PhaseOk(w', q, PhaseOf(w', q)) {
      if q != pid {
        assert PhaseOk(w, q, PhaseOf(w, q));
        PhaseStays(w, w', q, PhaseOf(w, q));
      }
    }
  }

  // ---------------------------------------------------------------- the steps

  lemma MoveKeepsSafe(w: World, pid: Pid, p: Phase)
    requires Safe(w) && PhaseOk(w, pid, p)
    ensures Safe(Enter(w, pid, p))
  {
    PhaseStays(w, Enter(w, pid, p), pid, p);
    OthersStay(w, Enter(w, pid, p), pid);
  }

  lemma InsertKeepsSafe(w: World, pid: Pid, answer: Answer)
    requires Safe(w) && PhaseOf(w, pid).Inserting?
    ensures Safe(ResumeStep(w, pid, answer))
  {
    assert PhaseOk(w, pid, PhaseOf(w, pid));
    OthersStay(w, ResumeStep(w, pid, answer), pid);
  }

  lemma FinishKeepsSafe(w: World, pid: Pid, answer: Answer)
    requires Safe(w) && PhaseOf(w, pid).Finishing?
    ensures Safe(ResumeStep(w, pid, answer))
  {
    assert PhaseOk(w, pid, PhaseOf(w, pid));
    OthersStay(w, ResumeStep(w, pid, answer), pid);
  }

  lemma ResumeKeepsSafe(w: World, pid: Pid, answer: Answer)
    requires Safe(w)
    ensures Safe(ResumeStep(w, pid, answer))
  {
    var p := PhaseOf(w, pid);
    assert PhaseOk(w, pid, p);
    if p.Inserting? {
      InsertKeepsSafe(w, pid, answer);
    } else if p.Finishing? {
      FinishKeepsSafe(w, pid, answer);
    } else if !p.Idle? {
      MoveKeepsSafe(w, pid, PhaseOf(ResumeStep(w, pid, answer), pid));
    }
  }

  lemma RequeueKeepsSafe(w: World)
    requires Safe(w)
    ensures Safe(w.(db := w.db.(runs := Requeue(w.db.runs, w.now))))
  {
    var w' := w.(db := w.db.(runs := Requeue(w.db.runs, w.now)));
    forall pid ensures PhaseOk(w', pid, PhaseOf(w', pid)) {
      assert PhaseOk(w, pid, PhaseOf(w, pid));
      PhaseStays(w, w', pid, PhaseOf(w, pid));
    }
  }

  lemma LockKeepsSafe(w: World, pid: Pid, token: Token, id: RunId)
    requires Safe(w) && token !in w.drawn && Claimable(w.db.runs, id, w.now)
    ensures var run := Locked(w.db.runs[id], token, w.now);
            Safe(w.(db := w.db.(runs := w.db.runs[id := run]), drawn := w.drawn[token := pid],
                 workers := w.workers[pid := Fetching(Job(id, token, run.attempts, run.source))]))
  {
    var run := Locked(w.db.runs[id], token, w.now);
    var w' := w.(db := w.db.(runs := w.db.runs[id := run]), drawn := w.drawn[token := pid],
                 workers := w.workers[pid := Fetching(Job(id, token, run.attempts, run.source))]);
    assert RunOk(w, id);
    forall other | other in w'.db.runs ensures RunOk(w', other) { assert other != id ==> RunOk(w, other); }
    OthersStay(w, w', pid);
  }

  lemma ClaimKeepsSafe(w: World, pid: Pid, token: Token, id: RunId)
    requires Safe(w)
    ensures Safe(ClaimStep(w, pid, token, id))
  {
    RequeueKeepsSafe(w);
    var w1 := w.(db := w.db.(runs := Requeue(w.db.runs, w.now)));
    if token !in w.drawn && PhaseOf(w, pid).Idle? && Claimable(w1.db.runs, id, w.now) {
      LockKeepsSafe(w1, pid, token, id);
    }
  }

  lemma NewRunKeepsTables(w: World, id: RunId, db': Db)
    requires TablesOk(w) && db'.results == w.db.results - {id} && id in db'.runs && db'.runs == w.db.runs[id := db'.runs[id]]
    requires db'.runs[id].status.Queued? && db'.runs[id].attempts == 0
    ensures TablesOk(w.(db := db'))
  {
    forall other | other in db'.runs ensures RunOk(w.(db := db'), other) {
      if other != id { assert RunOk(w, other); }
    }
  }

  lemma SameTables(w: World, w': World)
    requires TablesOk(w) && w'.db.runs == w.db.runs && w'.db.results == w.db.results && w'.drawn == w.drawn
    ensures TablesOk(w')
  {
    forall id | id in w'.db.runs ensures RunOk(w', id) { assert RunOk(w, id); }
  }

  lemma TableStepKeepsTables(w: World, a: Action)
    requires TablesOk(w) && (a.Tick? || a.Backfill? || a.Submit? || a.ManualRetry?)
    ensures TablesOk(Next(w, a))
  {
    var w' := Next(w, a);
    if w'.db.runs == w.db.runs && w'.db.results == w.db.results {
      SameTables(w, w');
    } else {
      if a.id !in w.db.runs { assert a.id !in w.db.results; }
      NewRunKeepsTables(w, a.id, w'.db);
    }
  }

  lemma TableStepGrows(w: World, a: Action)
    requires a.Tick? || a.Backfill? || a.Submit? || a.ManualRetry?
    ensures Grows(w, Next(w, a))
  {
  }

  lemma TableStepKeepsSafe(w: World, a: Action)
    requires Safe(w) && (a.Tick? || a.Backfill? || a.Submit? || a.ManualRetry?)
    ensures Safe(Next(w, a))
  {
    TableStepKeepsTables(w, a);
    TableStepGrows(w, a);
    forall pid ensures PhaseOk(Next(w, a), pid, PhaseOf(Next(w, a), pid)) {
      assert PhaseOf(Next(w, a), pid) == PhaseOf(w, pid) && PhaseOk(w, pid, PhaseOf(w, pid));
      PhaseStays(w, Next(w, a), pid, PhaseOf(w, pid));
    }
  }

  lemma NextKeepsSafe(w: World, a: Action)
    requires Safe(w)
    ensures Safe(Next(w, a))
  {
    match a
    case Claim(pid, token, id) => ClaimKeepsSafe(w, pid, token, id);
    case Resume(pid, answer) => ResumeKeepsSafe(w, pid, answer);
    case Crash(pid) => MoveKeepsSafe(w, pid, Idle);
    case _ => TableStepKeepsSafe(w, a);
  }

  /** Each run has at most one result, carrying the run's own revision and hash; a completed run has one;
      no run is attempted more than five times. */
  lemma {:induction false} EveryRunIsSafe(actions: seq<Action>)
    ensures Safe(RunAll(actions))
  {
    if actions != [] {
      EveryRunIsSafe(actions[..|actions| - 1]);
      NextKeepsSafe(RunAll(actions[..|actions| - 1]), actions[|actions| - 1]);
    }
  }

  // ---------------------------------------------------------------- what a worker cannot do

  ghost predicate KeepsFinished(db: Db, db': Db, id: RunId)
    requires id in db.runs
  {
    && id in db'.runs && (Terminal(db.runs[id].status) ==> db'.runs[id] == db.runs[id])
    && (id in db.results ==> id in db'.results && db'.results[id] == db.results[id])
  }

  lemma ResumeKeepsFinished(w: World, pid: Pid, answer: Answer, id: RunId)
    requires PhaseOk(w, pid, PhaseOf(w, pid)) && id in w.db.runs
    ensures KeepsFinished(w.db, ResumeStep(w, pid, answer).db, id)
  {
  }

  lemma FinishedStays(w: World, a: Action, id: RunId)
    requires Safe(w) && !a.ManualRetry? && id in w.db.runs
    ensures KeepsFinished(w.db, Next(w, a).db, id)
  {
    if a.Resume? {
      assert PhaseOk(w, a.pid, PhaseOf(w, a.pid));
      ResumeKeepsFinished(w, a.pid, a.answer, id);
    }
  }

  /** Only the operator's retry reopens a finished run or removes a result; no worker, crash or expired
      lease does, however long the run goes on. */
  lemma {:induction false} FinishedStaysFinished(actions: seq<Action>, more: seq<Action>, id: RunId)
    requires id in RunAll(actions).db.runs && forall i :: 0 <= i < |more| ==> !more[i].ManualRetry?
    ensures KeepsFinished(RunAll(actions).db, RunAll(actions + more).db, id)
    decreases |more|
  {
    if more == [] {
      assert actions + more == actions;
    } else {
      var front := more[..|more| - 1];
      FinishedStaysFinished(actions, front, id);
      assert (actions + more)[..|actions + more| - 1] == actions + front;
      FinishedStaysOnce(actions + front, more[|more| - 1], id);
    }
  }

  lemma FinishedStaysOnce(actions: seq<Action>, a: Action, id: RunId)
    requires !a.ManualRetry? && id in RunAll(actions).db.runs
    ensures KeepsFinished(RunAll(actions).db, Next(RunAll(actions), a).db, id)
  {
    EveryRunIsSafe(actions);
    FinishedStays(RunAll(actions), a, id);
  }

  /** A worker that lost its lease cannot change any run, in particular not fail one that another worker
      holds. It may still insert its result, if no result is there yet. */
  lemma StaleWorkerChangesNoRun(w: World, pid: Pid, answer: Answer)
    requires !PhaseOf(w, pid).Idle? && !HoldsRun(w.db, PhaseOf(w, pid).job)
    ensures ResumeStep(w, pid, answer).db.runs == w.db.runs
    ensures ResumeStep(w, pid, answer).db.results != w.db.results ==>
              PhaseOf(w, pid).Inserting? && PhaseOf(w, pid).job.id !in w.db.results
  {
  }

  /** Two workers never hold the same run. */
  lemma LeaseIsExclusive(actions: seq<Action>, a: Pid, b: Pid)
    requires var w := RunAll(actions);
             && !PhaseOf(w, a).Idle? && !PhaseOf(w, b).Idle? && PhaseOf(w, a).job.id == PhaseOf(w, b).job.id
             && HoldsRun(w.db, PhaseOf(w, a).job) && HoldsRun(w.db, PhaseOf(w, b).job)
    ensures a == b
  {
    var w := RunAll(actions);
    EveryRunIsSafe(actions);
    assert PhaseOk(w, a, PhaseOf(w, a)) && PhaseOk(w, b, PhaseOf(w, b));
  }

  /** A worker puts its run back in the queue exactly when the failure is retryable and fewer than five
      attempts were made; otherwise the run fails. */
  lemma FailureRequeuesIff(actions: seq<Action>, pid: Pid, retryable: bool)
    requires var w := RunAll(actions); PhaseOf(w, pid).Comparing? && HoldsRun(w.db, PhaseOf(w, pid).job)
    ensures var w := RunAll(actions);
            var id := PhaseOf(w, pid).job.id;
            var w' := RunAll(actions + [Resume(pid, ProviderError(retryable)), Resume(pid, Success)]);
            && id in w.db.runs && id in w'.db.runs
            && w'.db.runs[id].status == (if retryable && w.db.runs[id].attempts < MAX_ATTEMPTS then Queued else Failed)
  {
    var w := RunAll(actions);
    var all := actions + [Resume(pid, ProviderError(retryable)), Resume(pid, Success)];
    EveryRunIsSafe(actions);
    assert PhaseOk(w, pid, PhaseOf(w, pid));
    assert all[..|all| - 1] == actions + [Resume(pid, ProviderError(retryable))];
    assert (actions + [Resume(pid, ProviderError(retryable))])[..|actions|] == actions;
  }

  // ---------------------------------------------------------------- runs and their revisions

  predicate OfRevision(run: Run, revision: Revision) {
    run.program == revision.program && run.sequence == revision.sequence && run.source == revision.source
  }

  /** Every run is the run of its revision, and the revisions of a program are numbered apart. */
  ghost predicate RevisionsOk(db: Db) {
    && (forall id :: id in db.runs ==> id in db.revisions && OfRevision(db.runs[id], db.revisions[id]))
    && (forall a, b :: a in db.revisions && b in db.revisions && a != b && db.revisions[a].program == db.revisions[b].program ==>
          db.revisions[a].sequence != db.revisions[b].sequence)
  }

  // What a run is a run of.
  predicate SameRevision(run: Run, run': Run) {
    run'.program == run.program && run'.sequence == run.sequence && run'.source == run.source
  }

  lemma ClaimKeepsRevision(w: World, pid: Pid, token: Token, claimed: RunId, id: RunId)
    requires id in ClaimStep(w, pid, token, claimed).db.runs
    ensures id in w.db.runs && SameRevision(w.db.runs[id], ClaimStep(w, pid, token, claimed).db.runs[id])
  {
  }

  lemma ResumeKeepsRevision(w: World, pid: Pid, answer: Answer, id: RunId)
    requires id in ResumeStep(w, pid, answer).db.runs
    ensures id in w.db.runs && SameRevision(w.db.runs[id], ResumeStep(w, pid, answer).db.runs[id])
  {
  }

  // A step of the workers moves runs on without touching what they are runs of.
  lemma RunsKeepRevisions(w: World, a: Action, id: RunId)
    requires !a.Submit? && !a.ManualRetry? && id in Next(w, a).db.runs
    ensures id in w.db.runs && SameRevision(w.db.runs[id], Next(w, a).db.runs[id])
  {
    match a
    case Claim(pid, token, claimed) => ClaimKeepsRevision(w, pid, token, claimed, id);
    case Resume(pid, answer) => ResumeKeepsRevision(w, pid, answer, id);
    case _ =>
  }

  lemma SubmitKeepsRevisions(db: Db, id: RunId, revision: Revision, now: nat)
    requires RevisionsOk(db) && id !in db.revisions && NextInProgram(db.revisions, revision)
    ensures RevisionsOk(db.(revisions := db.revisions[id := revision]))
    ensures RevisionsOk(db.(revisions := db.revisions[id := revision], runs := db.runs[id := FreshRun(revision, now)]))
  {
  }

  lemma RetryKeepsRevisions(w: World, id: RunId)
    requires RevisionsOk(w.db)
    ensures RevisionsOk(Next(w, ManualRetry(id)).db)
  {
  }

  lemma WorkKeepsRevisions(w: World, a: Action)
    requires RevisionsOk(w.db) && !a.Backfill? && !a.Submit? && !a.ManualRetry?
    ensures RevisionsOk(Next(w, a).db)
  {
    var db' := Next(w, a).db;
    forall id | id in db'.runs ensures id in db'.revisions && OfRevision(db'.runs[id], db'.revisions[id]) {
      RunsKeepRevisions(w, a, id);
    }
    RevisionsStay(w, a);
  }

  lemma RevisionsStay(w: World, a: Action)
    requires !a.Backfill? && !a.Submit?
    ensures Next(w, a).db.revisions == w.db.revisions
  {
  }

  lemma NextKeepsRevisions(w: World, a: Action)
    requires RevisionsOk(w.db)
    ensures RevisionsOk(Next(w, a).db)
  {
    match a
    case Backfill(id, revision) => if Next(w, a) != w { SubmitKeepsRevisions(w.db, id, revision, w.now); }
    case Submit(id, revision) => if Next(w, a) != w { SubmitKeepsRevisions(w.db, id, revision, w.now); }
    case ManualRetry(id) => RetryKeepsRevisions(w, id);
    case _ => WorkKeepsRevisions(w, a);
  }

  lemma {:induction false} EveryRunHasItsRevision(actions: seq<Action>)
    ensures RevisionsOk(RunAll(actions).db)
  {
    if actions != [] {
      EveryRunHasItsRevision(actions[..|actions| - 1]);
      NextKeepsRevisions(RunAll(actions[..|actions| - 1]), actions[|actions| - 1]);
    }
  }

  // ---------------------------------------------------------------- first in, first out

  // A run was attempted only after everything submitted earlier in its program was finished.
  ghost predicate InOrder(w: World) {
    forall a, b :: a in w.db.runs && b in w.db.runs && w.db.runs[a].program == w.db.runs[b].program
                   && w.db.runs[a].sequence < w.db.runs[b].sequence && w.db.runs[b].attempts > 0 ==>
      Terminal(w.db.runs[a].status)
  }

  // A run whose attempts have begun was begun before this step, or is claimed by it.
  lemma AttemptStep(w: World, a: Action, id: RunId)
    requires Safe(w) && !a.ManualRetry? && id in Next(w, a).db.runs && Next(w, a).db.runs[id].attempts > 0
    ensures id in w.db.runs && Next(w, a).db.runs[id].program == w.db.runs[id].program
            && Next(w, a).db.runs[id].sequence == w.db.runs[id].sequence
    ensures w.db.runs[id].attempts > 0 || Claimable(Requeue(w.db.runs, w.now), id, w.now)
  {
    if a.Resume? { assert PhaseOk(w, a.pid, PhaseOf(w, a.pid)); }
  }

  lemma ClaimableIsNext(w: World, id: RunId, prior: RunId)
    requires Claimable(Requeue(w.db.runs, w.now), id, w.now) && id in w.db.runs && prior in w.db.runs
    requires w.db.runs[prior].program == w.db.runs[id].program && w.db.runs[prior].sequence < w.db.runs[id].sequence
    ensures Terminal(w.db.runs[prior].status)
  {
    assert prior in Requeue(w.db.runs, w.now);
  }

  // A run in the table either was there, at the same place of its program, or is newer than all its others.
  lemma RunStep(w: World, a: Action, id: RunId)
    requires RevisionsOk(w.db) && !a.ManualRetry? && id in Next(w, a).db.runs
    ensures var run' := Next(w, a).db.runs[id];
            if id in w.db.runs then run'.program == w.db.runs[id].program && run'.sequence == w.db.runs[id].sequence
            else forall prior :: prior in w.db.runs && w.db.runs[prior].program == run'.program ==>
                   w.db.runs[prior].sequence < run'.sequence
  {
    if !a.Submit? { RunsKeepRevisions(w, a, id); }
  }

  lemma OrderStep(w: World, act: Action, a: RunId, b: RunId)
    requires Safe(w) && RevisionsOk(w.db) && InOrder(w) && !act.ManualRetry?
    requires var runs := Next(w, act).db.runs;
             a in runs && b in runs && runs[a].program == runs[b].program && runs[a].sequence < runs[b].sequence && runs[b].attempts > 0
    ensures Terminal(Next(w, act).db.runs[a].status)
  {
    AttemptStep(w, act, b);
    RunStep(w, act, a);
    if w.db.runs[b].attempts == 0 { ClaimableIsNext(w, b, a); }
    FinishedStays(w, act, a);
  }

  lemma NextKeepsInOrder(w: World, act: Action)
    requires Safe(w) && RevisionsOk(w.db) && InOrder(w) && !act.ManualRetry?
    ensures InOrder(Next(w, act))
  {
    var runs := Next(w, act).db.runs;
    forall a, b | a in runs && b in runs && runs[a].program == runs[b].program && runs[a].sequence < runs[b].sequence && runs[b].attempts > 0
      ensures Terminal(runs[a].status)
    {
      OrderStep(w, act, a, b);
    }
  }

  // An operator's retry that is not refused: it reopens a finished run, or inserts the run of an old revision.
  predicate Reopens(w: World, id: RunId) {
    id in w.db.revisions
    && (id in w.db.runs ==> Terminal(w.db.runs[id].status) && !(w.db.runs[id].status.Completed? && id in w.db.results))
  }

  // Nothing submitted later in the program has been attempted.
  ghost predicate LaterUntouched(w: World, id: RunId)
    requires id in w.db.revisions
  {
    forall later :: later in w.db.runs && w.db.runs[later].program == w.db.revisions[id].program
                    && w.db.revisions[id].sequence < w.db.runs[later].sequence ==>
      w.db.runs[later].attempts == 0
  }

  ghost predicate RetryInTurn(w: World, a: Action) {
    a.ManualRetry? && Reopens(w, a.id) ==> LaterUntouched(w, a.id)
  }

  // Either way the run is queued afresh at its revision's place, and no other run changes.
  lemma RetryQueues(w: World, id: RunId)
    requires RevisionsOk(w.db) && Reopens(w, id)
    ensures var runs := Next(w, ManualRetry(id)).db.runs;
            && id in runs && runs[id].status.Queued? && runs[id].attempts == 0 && OfRevision(runs[id], w.db.revisions[id])
            && runs == w.db.runs[id := runs[id]]
  {
  }

  /** An operator's retry keeps the order exactly when no later run of the program has been attempted. */
  lemma RetryKeepsOrderIff(w: World, id: RunId)
    requires RevisionsOk(w.db) && InOrder(w) && Reopens(w, id)
    ensures InOrder(Next(w, ManualRetry(id))) <==> LaterUntouched(w, id)
  {
    var w' := Next(w, ManualRetry(id));
    RetryQueues(w, id);
    if LaterUntouched(w, id) {
      forall a, b | a in w'.db.runs && b in w'.db.runs && w'.db.runs[a].program == w'.db.runs[b].program
                    && w'.db.runs[a].sequence < w'.db.runs[b].sequence && w'.db.runs[b].attempts > 0
        ensures Terminal(w'.db.runs[a].status)
      {
        assert b != id && w.db.runs[b] == w'.db.runs[b];
      }
    } else {
      var later :| later in w.db.runs && w.db.runs[later].program == w.db.revisions[id].program
                   && w.db.revisions[id].sequence < w.db.runs[later].sequence && w.db.runs[later].attempts > 0;
      assert w'.db.runs[later] == w.db.runs[later];
    }
  }

  lemma StepKeepsOrderIff(w: World, a: Action)
    requires Safe(w) && RevisionsOk(w.db) && InOrder(w)
    ensures InOrder(Next(w, a)) <==> RetryInTurn(w, a)
  {
    if !a.ManualRetry? {
      NextKeepsInOrder(w, a);
    } else if Reopens(w, a.id) {
      RetryKeepsOrderIff(w, a.id);
    }
  }

  ghost predicate InOrderThroughout(actions: seq<Action>) {
    InOrder(RunAll(actions)) && (actions != [] ==> InOrderThroughout(actions[..|actions| - 1]))
  }

  ghost predicate RetriesInTurn(actions: seq<Action>) {
    actions != [] ==>
      RetriesInTurn(actions[..|actions| - 1]) && RetryInTurn(RunAll(actions[..|actions| - 1]), actions[|actions| - 1])
  }

  /** A program's runs are attempted strictly in submission order, at every moment of a run, if and only if
      every retry the operator made reopened a run that no later one of its program had overtaken. */
  lemma {:induction false} EveryRunIsInOrder(actions: seq<Action>)
    ensures InOrderThroughout(actions) <==> RetriesInTurn(actions)
  {
    if actions != [] {
      var front := actions[..|actions| - 1];
      EveryRunIsInOrder(front);
      EveryRunIsSafe(front);
      EveryRunHasItsRevision(front);
      if InOrderThroughout(front) { StepKeepsOrderIff(RunAll(front), actions[|actions| - 1]); }
    }
  }

  /** And then one at a time. */
  lemma OneRunningPerProgram(actions: seq<Action>, a: RunId, b: RunId)
    requires RetriesInTurn(actions)
    requires var runs := RunAll(actions).db.runs;
             a in runs && b in runs && runs[a].program == runs[b].program && runs[a].status.Running? && runs[b].status.Running?
    ensures a == b
  {
    EveryRunIsInOrder(actions);
    EveryRunIsSafe(actions);
    EveryRunHasItsRevision(actions);
    assert RunOk(RunAll(actions), a) && RunOk(RunAll(actions), b);
  }

  // ---------------------------------------------------------------- a retry out of turn

  lemma PrefixStep(actions: seq<Action>, n: nat)
    requires n < |actions|
    ensures RunAll(actions[..n + 1]) == Next(RunAll(actions[..n]), actions[n])
  {
    assert actions[..n + 1][..n] == actions[..n];
  }

  // The last two actions, given the world before them.
  lemma RunLastTwo(actions: seq<Action>, w: World, a: Action, b: Action)
    requires |actions| >= 2 && actions[|actions| - 2] == a && actions[|actions| - 1] == b && RunAll(actions[..|actions| - 2]) == w
    ensures RunAll(actions) == Next(Next(w, a), b)
  {
    var n := |actions| - 2;
    assert actions[..n + 2] == actions;
    PrefixStep(actions, n);
    PrefixStep(actions, n + 1);
  }

  function ThreeSteps(w: World, a: Action, b: Action, c: Action): World {
    Next(Next(Next(w, a), b), c)
  }

  lemma PrefixThreeSteps(actions: seq<Action>, n: nat)
    requires n + 3 <= |actions|
    ensures RunAll(actions[..n + 3]) == ThreeSteps(RunAll(actions[..n]), actions[n], actions[n + 1], actions[n + 2])
  {
    PrefixStep(actions, n);
    PrefixStep(actions, n + 1);
    PrefixStep(actions, n + 2);
  }

  // Run 1 fails, run 2 of the same program starts, and the operator reopens run 1.
  function OutOfTurn(s: Source): seq<Action> {
    [Submit(1, Revision(0, 1, s)), Submit(2, Revision(0, 2, s)), Claim(0, 0, 1),
     Resume(0, Success), Resume(0, Blocked), Resume(0, Success),
     Claim(1, 1, 2), ManualRetry(1), Claim(2, 2, 1)]
  }

  function TwoRevisions(s: Source): map<RunId, Revision> {
    map[1 := Revision(0, 1, s), 2 := Revision(0, 2, s)]
  }

  function FirstClaimed(s: Source): World {
    World(0, Db(TwoRevisions(s), map[1 := Run(0, 1, s, Running, 1, Some(0), 0, 0), 2 := Run(0, 2, s, Queued, 0, None, 0, 0)], map[]),
          map[0 := 0], map[0 := Fetching(Job(1, 0, 1, s))])
  }

  function FirstFailed(s: Source): World {
    var run := FirstClaimed(s).db.runs[1].(status := Failed);
    FirstClaimed(s).(db := FirstClaimed(s).db.(runs := FirstClaimed(s).db.runs[1 := run]), workers := map[0 := Idle])
  }

  function Submitted(s: Source): World {
    World(0, Db(TwoRevisions(s), map[1 := Run(0, 1, s, Queued, 0, None, 0, 0), 2 := Run(0, 2, s, Queued, 0, None, 0, 0)], map[]), map[], map[])
  }

  lemma BothSubmitted(actions: seq<Action>, s: Source)
    requires |actions| >= 2 && actions[0] == Submit(1, Revision(0, 1, s)) && actions[1] == Submit(2, Revision(0, 2, s))
    ensures RunAll(actions[..2]) == Submitted(s)
  {
    PrefixStep(actions, 0);
    PrefixStep(actions, 1);
    assert RunAll(actions[..2]).db.runs == Submitted(s).db.runs && RunAll(actions[..2]).db.revisions == TwoRevisions(s);
  }

  lemma ClaimFirst(s: Source)
    ensures Next(Submitted(s), Claim(0, 0, 1)) == FirstClaimed(s)
  {
    var w := Submitted(s);
    assert Requeue(w.db.runs, 0) == w.db.runs;
    assert Next(w, Claim(0, 0, 1)).db.runs == FirstClaimed(s).db.runs;
  }

  lemma FirstIsClaimed(s: Source)
    ensures RunAll(OutOfTurn(s)[..3]) == FirstClaimed(s)
  {
    BothSubmitted(OutOfTurn(s), s);
    PrefixStep(OutOfTurn(s), 2);
    ClaimFirst(s);
  }

  lemma FirstFails(s: Source)
    ensures ThreeSteps(FirstClaimed(s), Resume(0, Success), Resume(0, Blocked), Resume(0, Success)) == FirstFailed(s)
  {
    var w := Next(Next(FirstClaimed(s), Resume(0, Success)), Resume(0, Blocked));
    assert w.workers == map[0 := Finishing(Job(1, 0, 1, s), Failed, false)];
  }

  // Run 2 starts while run 1 has failed.
  function SecondStarted(s: Source): World {
    var run := FirstFailed(s).db.runs[2].(status := Running, attempts := 1, token := Some(1));
    FirstFailed(s).(db := FirstFailed(s).db.(runs := FirstFailed(s).db.runs[2 := run]), drawn := map[0 := 0, 1 := 1],
                    workers := map[0 := Idle, 1 := Fetching(Job(2, 1, 1, s))])
  }

  lemma SecondStarts(s: Source)
    ensures Next(FirstFailed(s), Claim(1, 1, 2)) == SecondStarted(s)
  {
    var w := FirstFailed(s);
    assert Requeue(w.db.runs, 0) == w.db.runs;
    assert Next(w, Claim(1, 1, 2)).db.runs == SecondStarted(s).db.runs;
  }

  ghost predicate BothRunning(runs: map<RunId, Run>) {
    1 in runs && 2 in runs && runs[1].status.Running? && runs[2].status.Running? && runs[1].program == runs[2].program
  }

  lemma BothRun(s: Source)
    ensures BothRunning(Next(Next(SecondStarted(s), ManualRetry(1)), Claim(2, 2, 1)).db.runs)
  {
    var w := Next(SecondStarted(s), ManualRetry(1));
    assert Requeue(w.db.runs, 0) == w.db.runs;
  }

  lemma FirstHasFailed(s: Source, actions: seq<Action>)
    requires actions == OutOfTurn(s)
    ensures RunAll(actions[..6]) == FirstFailed(s)
  {
    FirstIsClaimed(s);
    FirstFails(s);
    PrefixThreeSteps(actions, 3);
  }

  lemma SecondHasStarted(s: Source, actions: seq<Action>)
    requires |actions| >= 7 && RunAll(actions[..6]) == FirstFailed(s) && actions[6] == Claim(1, 1, 2)
    ensures RunAll(actions[..7]) == SecondStarted(s)
  {
    SecondStarts(s);
    PrefixStep(actions, 6);
  }

  /** It happens: after a retry that reopens a run out of turn two runs of one program are running at once. */
  lemma TwoRunningHappens(s: Source)
    ensures BothRunning(RunAll(OutOfTurn(s)).db.runs)
  {
    FirstHasFailed(s, OutOfTurn(s));
    SecondHasStarted(s, OutOfTurn(s));
    RunLastTwo(OutOfTurn(s), SecondStarted(s), ManualRetry(1), Claim(2, 2, 1));
    BothRun(s);
  }

  // Revision 1 is an old one without a run; run 2 is running when the operator retries report 1.
  function InsertedOutOfTurn(s: Source): seq<Action> {
    [Backfill(1, Revision(0, 1, s)), Submit(2, Revision(0, 2, s)), Claim(0, 0, 2), ManualRetry(1), Claim(1, 1, 1)]
  }

  function SecondClaimed(s: Source): World {
    World(0, Db(TwoRevisions(s), map[2 := Run(0, 2, s, Running, 1, Some(0), 0, 0)], map[]),
          map[0 := 0], map[0 := Fetching(Job(2, 0, 1, s))])
  }

  lemma SecondIsClaimed(s: Source, actions: seq<Action>)
    requires |actions| >= 3 && actions[0] == Backfill(1, Revision(0, 1, s)) && actions[1] == Submit(2, Revision(0, 2, s))
    requires actions[2] == Claim(0, 0, 2)
    ensures RunAll(actions[..3]) == SecondClaimed(s)
  {
    var w := World(0, Db(TwoRevisions(s), map[2 := Run(0, 2, s, Queued, 0, None, 0, 0)], map[]), map[], map[]);
    PrefixStep(actions, 0);
    PrefixStep(actions, 1);
    assert RunAll(actions[..2]).db.revisions == TwoRevisions(s);
    assert Requeue(w.db.runs, 0) == w.db.runs;
    assert Next(w, Claim(0, 0, 2)).db.runs == SecondClaimed(s).db.runs;
    PrefixStep(actions, 2);
  }

  lemma InsertAndClaim(s: Source)
    ensures BothRunning(Next(Next(SecondClaimed(s), ManualRetry(1)), Claim(1, 1, 1)).db.runs)
  {
    var w := Next(SecondClaimed(s), ManualRetry(1));
    assert Requeue(w.db.runs, 0) == w.db.runs;
  }

  /** And after a retry that inserts a run out of turn. */
  lemma TwoRunningAfterInsert(s: Source)
    ensures BothRunning(RunAll(InsertedOutOfTurn(s)).db.runs)
  {
    SecondIsClaimed(s, InsertedOutOfTurn(s));
    RunLastTwo(InsertedOutOfTurn(s), SecondClaimed(s), ManualRetry(1), Claim(1, 1, 1));
    InsertAndClaim(s);
  }

  // ---------------------------------------------------------------- the run nobody picks up again

  // The worker of the fifth attempt is gone.
  ghost predicate Stuck(w: World, id: RunId) {
    && id in w.db.runs && w.db.runs[id].status.Running? && w.db.runs[id].attempts >= MAX_ATTEMPTS
    && w.db.runs[id].token.Some? && w.db.runs[id].token.value in w.drawn
    && forall pid :: !PhaseOf(w, pid).Idle? ==> PhaseOf(w, pid).job.token != w.db.runs[id].token.value
  }

  ghost predicate WaitsBehind(w: World, later: RunId, id: RunId) {
    && later in w.db.runs && id in w.db.runs && w.db.runs[later].program == w.db.runs[id].program
    && w.db.runs[later].sequence > w.db.runs[id].sequence && w.db.runs[later].status.Queued?
  }

  // A step gives a process the job it had, a job under a fresh token, or none.
  lemma JobStep(w: World, a: Action, pid: Pid)
    requires !PhaseOf(Next(w, a), pid).Idle?
    ensures if PhaseOf(w, pid).Idle? then PhaseOf(Next(w, a), pid).job.token !in w.drawn
            else PhaseOf(Next(w, a), pid).job == PhaseOf(w, pid).job
  {
  }

  lemma NextKeepsStuck(w: World, a: Action, id: RunId)
    requires Stuck(w, id)
    ensures Stuck(Next(w, a), id) && Next(w, a).db.runs[id] == w.db.runs[id]
  {
    var w' := Next(w, a);
    forall pid | !PhaseOf(w', pid).Idle? ensures PhaseOf(w', pid).job.token != w.db.runs[id].token.value {
      JobStep(w, a, pid);
    }
  }

  lemma NextKeepsWaiting(w: World, a: Action, id: RunId, later: RunId)
    requires Stuck(w, id) && WaitsBehind(w, later, id)
    ensures WaitsBehind(Next(w, a), later, id)
  {
    NextKeepsStuck(w, a, id);
    if a.Claim? {
      var runs := Requeue(w.db.runs, w.now);
      assert runs[id] == w.db.runs[id] && runs[later] == w.db.runs[later];
      assert !Claimable(runs, later, w.now);
    }
  }

  function Continue(w: World, actions: seq<Action>): World {
    if actions == [] then w else Next(Continue(w, actions[..|actions| - 1]), actions[|actions| - 1])
  }

  /** A stuck run stays 'running' for ever, operator retries included, and every run queued behind it in its program waits for ever. */
  lemma {:induction false} StuckForever(w: World, actions: seq<Action>, id: RunId, later: RunId)
    requires Stuck(w, id) && WaitsBehind(w, later, id)
    ensures Stuck(Continue(w, actions), id) && WaitsBehind(Continue(w, actions), later, id)
  {
    if actions != [] {
      StuckForever(w, actions[..|actions| - 1], id, later);
      NextKeepsStuck(Continue(w, actions[..|actions| - 1]), actions[|actions| - 1], id);
      NextKeepsWaiting(Continue(w, actions[..|actions| - 1]), actions[|actions| - 1], id, later);
    }
  }

  /** Whatever made the process give up its job while the run still runs under it (a crash, a failing fetch,
      a failing write in the catch block): the run is stuck exactly when that was the fifth attempt. */
  lemma AbandonedRunSticksIff(actions: seq<Action>, pid: Pid, a: Action)
    requires var w := RunAll(actions);
             && !PhaseOf(w, pid).Idle? && PhaseOf(Next(w, a), pid).Idle?
             && HoldsRun(w.db, PhaseOf(w, pid).job) && HoldsRun(Next(w, a).db, PhaseOf(w, pid).job)
    ensures var job := PhaseOf(RunAll(actions), pid).job;
            Stuck(Next(RunAll(actions), a), job.id) <==> job.attempts == MAX_ATTEMPTS
  {
    var w := RunAll(actions);
    var job := PhaseOf(w, pid).job;
    var w' := Next(w, a);
    EveryRunIsSafe(actions);
    assert PhaseOk(w, pid, PhaseOf(w, pid)) && RunOk(w, job.id);
    forall other | !PhaseOf(w', other).Idle? ensures PhaseOf(w', other).job.token != job.token {
      assert PhaseOk(w, other, PhaseOf(w, other));
      JobStep(w, a, other);
    }
    HeldRunStays(w, a, job);
  }

  lemma HeldRunStays(w: World, a: Action, job: Job)
    requires HoldsRun(w.db, job) && HoldsRun(Next(w, a).db, job) && job.token in w.drawn
    requires a.Resume? ==> PhaseOk(w, a.pid, PhaseOf(w, a.pid))
    ensures Next(w, a).db.runs[job.id].attempts == w.db.runs[job.id].attempts
    ensures job.token in Next(w, a).drawn
  {
  }

  // Two runs of one program; the first one's worker crashes in every attempt, `n` times so far.
  function Crashes(s: Source, n: nat): seq<Action> {
    if n == 0 then [Submit(1, Revision(0, 1, s)), Submit(2, Revision(0, 2, s))]
    else Crashes(s, n - 1) + [Claim(0, n, 1), Crash(0), Tick(300_001)]
  }

  ghost predicate CrashedTimes(w: World, n: nat) {
    && w.now == n * 300_001 && w.db.runs.Keys == {1, 2} && w.db.runs[1].attempts == n
    && w.db.runs[1].program == w.db.runs[2].program && w.db.runs[1].sequence < w.db.runs[2].sequence
    && w.db.runs[2].status.Queued?
    && (forall token :: token in w.drawn ==> token <= n) && (forall pid :: PhaseOf(w, pid).Idle?)
    && if n == 0 then w.db.runs[1].status.Queued? && w.db.runs[1].dueAt == 0
       else w.db.runs[1].status.Running? && w.db.runs[1].token == Some(n) && n in w.drawn
            && w.db.runs[1].lockedAt == (n - 1) * 300_001
  }

  lemma OneMoreClaim(w: World, n: nat)
    requires CrashedTimes(w, n) && n < MAX_ATTEMPTS
    ensures var w' := Next(w, Claim(0, n + 1, 1));
            && w'.db.runs.Keys == {1, 2} && w'.db.runs[1].program == w.db.runs[1].program && w'.db.runs[1].sequence == w.db.runs[1].sequence
            && w'.db.runs[1].status.Running? && w'.db.runs[1].attempts == n + 1 && w'.db.runs[1].token == Some(n + 1)
            && w'.db.runs[1].lockedAt == w.now && w'.db.runs[2] == w.db.runs[2]
            && w'.drawn == w.drawn[n + 1 := 0] && w'.now == w.now && forall pid :: pid != 0 ==> PhaseOf(w', pid) == PhaseOf(w, pid)
  {
    var runs := Requeue(w.db.runs, w.now);
    assert runs.Keys == {1, 2} && runs[2] == w.db.runs[2];
    assert n > 0 ==> Stale(w.db.runs[1], w.now);
    assert PhaseOf(w, 0).Idle? && Claimable(runs, 1, w.now);
    assert Next(w, Claim(0, n + 1, 1)).db.runs == runs[1 := Locked(runs[1], n + 1, w.now)];
  }

  lemma OneMoreCrash(w: World, n: nat)
    requires CrashedTimes(w, n) && n < MAX_ATTEMPTS
    ensures CrashedTimes(ThreeSteps(w, Claim(0, n + 1, 1), Crash(0), Tick(300_001)), n + 1)
  {
    OneMoreClaim(w, n);
    var w3 := ThreeSteps(w, Claim(0, n + 1, 1), Crash(0), Tick(300_001));
    forall pid ensures PhaseOf(w3, pid).Idle? {
      assert PhaseOf(w, pid).Idle?;
    }
  }

  lemma NoCrashYet(s: Source, all: seq<Action>)
    requires all == [Submit(1, Revision(0, 1, s)), Submit(2, Revision(0, 2, s))]
    ensures CrashedTimes(RunAll(all), 0)
  {
    assert all[..2] == all;
    BothSubmitted(all, s);
    assert Submitted(s).db.runs.Keys == {1, 2};
  }

  lemma CrashesStep(front: seq<Action>, all: seq<Action>, n: nat)
    requires n < MAX_ATTEMPTS && CrashedTimes(RunAll(front), n) && all == front + [Claim(0, n + 1, 1), Crash(0), Tick(300_001)]
    ensures CrashedTimes(RunAll(all), n + 1)
  {
    assert all[..|all|] == all && all[..|front|] == front;
    PrefixThreeSteps(all, |front|);
    OneMoreCrash(RunAll(front), n);
  }

  lemma {:induction false} CrashesHappen(s: Source, n: nat, all: seq<Action>)
    requires n <= MAX_ATTEMPTS && all == Crashes(s, n)
    ensures CrashedTimes(RunAll(all), n)
  {
    if n == 0 {
      NoCrashYet(s, all);
    } else {
      CrashesHappen(s, n - 1, Crashes(s, n - 1));
      CrashesStep(Crashes(s, n - 1), all, n - 1);
    }
  }

  /** Five crashes do it: from then on, run 1 is stuck and run 2 waits behind it for ever. */
  lemma StuckHappens(s: Source, more: seq<Action>)
    ensures var w := Continue(RunAll(Crashes(s, 5)), more); Stuck(w, 1) && WaitsBehind(w, 2, 1)
  {
    CrashesHappen(s, 5, Crashes(s, 5));
    StuckForever(RunAll(Crashes(s, 5)), more, 1, 2);
  }
}
