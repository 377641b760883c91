/** What becomes of a review: when an undisturbed worker completes it, what a failed or completed run says about
    the answers its worker got, and how long a run is left to its worker or left waiting. */
module AiQueueOutcome {
  import opened Options
  import opened AiQueue
  import opened AiQueueSafety

  // ---------------------------------------------------------------- a worker nobody disturbs

  function Resumes(pid: Pid, answers: seq<Answer>): seq<Action> {
    seq(|answers|, i requires 0 <= i < |answers| => Resume(pid, answers[i]))
  }

  function Work(w: World, pid: Pid, answers: seq<Answer>): World {
    if answers == [] then w else Next(Work(w, pid, answers[..|answers| - 1]), Resume(pid, answers[|answers| - 1]))
  }

  lemma {:induction false} WorkIsARun(actions: seq<Action>, pid: Pid, answers: seq<Answer>)
    ensures RunAll(actions + Resumes(pid, answers)) == Work(RunAll(actions), pid, answers)
    decreases |answers|
  {
    var all := actions + Resumes(pid, answers);
    if answers == [] {
      assert all == actions;
    } else {
      WorkIsARun(actions, pid, answers[..|answers| - 1]);
      assert all[..|all| - 1] == actions + Resumes(pid, answers[..|answers| - 1]);
      assert all[|all| - 1] == Resume(pid, answers[|answers| - 1]);
    }
  }

  lemma {:induction false} WorkFirst(w: World, pid: Pid, answers: seq<Answer>)
    requires answers != []
    ensures Work(w, pid, answers) == Work(Next(w, Resume(pid, answers[0])), pid, answers[1..])
    decreases |answers|
  {
    if |answers| == 1 {
      assert answers[..0] == [] && answers[1..] == [];
    } else {
      var front := answers[..|answers| - 1];
      WorkFirst(w, pid, front);
      assert front[1..] == answers[1..][..|answers[1..]| - 1];
    }
  }

  // The worker still holds its run, which is the one it reviewed.
  ghost predicate Mine(w: World, job: Job) {
    HoldsRun(w.db, job) && w.db.runs[job.id].source == job.source && w.db.runs[job.id].attempts == job.attempts
    && (job.id in w.db.results ==> w.db.results[job.id].source == job.source)
  }

  lemma HolderIsMine(w: World, pid: Pid)
    requires Safe(w) && !PhaseOf(w, pid).Idle? && HoldsRun(w.db, PhaseOf(w, pid).job)
    ensures Mine(w, PhaseOf(w, pid).job)
  {
    assert PhaseOk(w, pid, PhaseOf(w, pid));
  }

  // The answers that take a worker all the way: to the report, both provider calls and the three writes.
  predicate AllThrough(answers: seq<Answer>)
    requires |answers| == 6
  {
    answers[0].Success? && answers[1].Success? && !answers[2].Throws? && answers[3].Success? && !answers[4].Throws? && !answers[5].Throws?
  }

  // Completed, with a result of its own source.
  ghost predicate Reviewed(db: Db, id: RunId) {
    id in db.runs && db.runs[id].status.Completed? && id in db.results && db.results[id].source == db.runs[id].source
  }

  lemma FirstHalf(w: World, pid: Pid, job: Job, answers: seq<Answer>)
    requires Mine(w, job) && PhaseOf(w, pid) == Fetching(job) && |answers| == 6 && AllThrough(answers)
    ensures Work(w, pid, answers) == Work(Enter(w, pid, Comparing(job)), pid, answers[3..])
  {
    WorkFirst(w, pid, answers);
    WorkFirst(Enter(w, pid, Working(job)), pid, answers[1..]);
    WorkFirst(Enter(w, pid, SavingFingerprint(job)), pid, answers[2..]);
    assert answers[1..][1..] == answers[2..] && answers[2..][1..] == answers[3..];
    EnterAgain(w, pid, Working(job), SavingFingerprint(job));
    EnterAgain(w, pid, SavingFingerprint(job), Comparing(job));
  }

  lemma EnterAgain(w: World, pid: Pid, p: Phase, q: Phase)
    ensures Enter(Enter(w, pid, p), pid, q) == Enter(w, pid, q) && PhaseOf(Enter(w, pid, p), pid) == p
  {
    assert w.workers[pid := p][pid := q] == w.workers[pid := q];
  }

  lemma InsertGoesOn(w: World, pid: Pid, job: Job, answer: Answer)
    requires Mine(w, job) && PhaseOf(w, pid) == Inserting(job) && !answer.Throws?
    ensures var w' := Next(w, Resume(pid, answer));
            Mine(w', job) && PhaseOf(w', pid) == Finishing(job, Completed, false) && job.id in w'.db.results
  {
  }

  lemma FinishCompletes(w: World, pid: Pid, job: Job, answer: Answer)
    requires Mine(w, job) && PhaseOf(w, pid) == Finishing(job, Completed, false) && job.id in w.db.results && !answer.Throws?
    ensures Reviewed(Next(w, Resume(pid, answer)).db, job.id)
  {
  }

  /** From the comparison on: a worker that holds its run and meets no failure completes it. */
  lemma ComparisonCompletes(w: World, pid: Pid, job: Job, answers: seq<Answer>)
    requires Mine(w, job) && PhaseOf(w, pid) == Comparing(job)
    requires |answers| == 3 && answers[0].Success? && !answers[1].Throws? && !answers[2].Throws?
    ensures Reviewed(Work(w, pid, answers).db, job.id)
  {
    var w1 := Next(w, Resume(pid, answers[0]));
    var w2 := Next(w1, Resume(pid, answers[1]));
    WorkFirst(w, pid, answers);
    WorkFirst(w1, pid, answers[1..]);
    WorkFirst(w2, pid, answers[1..][1..]);
    assert answers[1..][1..][1..] == [];
    InsertGoesOn(w1, pid, job, answers[1]);
    FinishCompletes(w2, pid, job, answers[2]);
  }

  // A worker that has met a failure: it will not complete the run any more.
  ghost predicate Off(w: World, pid: Pid, id: RunId) {
    id in w.db.runs && !w.db.runs[id].status.Completed?
    && (var p := PhaseOf(w, pid); p.Idle? || ((p.Finishing? || p.Rereading?) && p.job.id == id && !p.want.Completed?))
  }

  lemma OffStays(w: World, pid: Pid, id: RunId, answer: Answer)
    requires Off(w, pid, id)
    ensures Off(Next(w, Resume(pid, answer)), pid, id)
  {
  }

  lemma {:induction false} OffForGood(w: World, pid: Pid, id: RunId, answers: seq<Answer>)
    requires Off(w, pid, id)
    ensures Off(Work(w, pid, answers), pid, id)
  {
    if answers != [] {
      OffForGood(w, pid, id, answers[..|answers| - 1]);
      OffStays(Work(w, pid, answers[..|answers| - 1]), pid, id, answers[|answers| - 1]);
    }
  }

  // Where a worker stands after `n` good answers.
  ghost predicate Along(w: World, pid: Pid, job: Job, n: nat) {
    && Mine(w, job)
    && PhaseOf(w, pid) == (match n
         case 0 => Fetching(job)
         case 1 => Working(job)
         case 2 => SavingFingerprint(job)
         case 3 => Comparing(job)
         case 4 => Inserting(job)
         case _ => Finishing(job, Completed, false))
  }

  predicate Good(answer: Answer, n: nat) {
    if n == 0 || n == 1 || n == 3 then answer.Success? else !answer.Throws?
  }

  lemma BadAnswerEnds(w: World, pid: Pid, job: Job, n: nat, answer: Answer)
    requires n < 6 && Along(w, pid, job, n) && !Good(answer, n)
    ensures Off(Next(w, Resume(pid, answer)), pid, job.id)
  {
  }

  lemma GoodAnswerGoesOn(w: World, pid: Pid, job: Job, n: nat, answer: Answer)
    requires n < 5 && Along(w, pid, job, n) && Good(answer, n)
    ensures Along(Next(w, Resume(pid, answer)), pid, job, n + 1)
  {
  }

  lemma {:induction false} BadAnswersEnd(w: World, pid: Pid, job: Job, n: nat, answers: seq<Answer>)
    requires n < 6 && |answers| == 6 - n && Along(w, pid, job, n) && exists i :: 0 <= i < |answers| && !Good(answers[i], n + i)
    ensures Off(Work(w, pid, answers), pid, job.id)
    decreases 6 - n
  {
    WorkFirst(w, pid, answers);
    var w' := Next(w, Resume(pid, answers[0]));
    if !Good(answers[0], n) {
      BadAnswerEnds(w, pid, job, n, answers[0]);
      OffForGood(w', pid, job.id, answers[1..]);
    } else {
      var i :| 0 <= i < |answers| && !Good(answers[i], n + i);
      assert answers[1..][i - 1] == answers[i];
      GoodAnswerGoesOn(w, pid, job, n, answers[0]);
      BadAnswersEnd(w', pid, job, n + 1, answers[1..]);
    }
  }

  lemma FirstBad(answers: seq<Answer>)
    requires |answers| == 6 && !AllThrough(answers)
    ensures exists i :: 0 <= i < |answers| && !Good(answers[i], 0 + i)
  {
    var i := if !answers[0].Success? then 0 else if !answers[1].Success? then 1 else if answers[2].Throws? then 2
             else if !answers[3].Success? then 3 else if answers[4].Throws? then 4 else 5;
    assert !Good(answers[i], 0 + i);
  }

  lemma FetchedCompletesIff(w: World, pid: Pid, job: Job, answers: seq<Answer>)
    requires Along(w, pid, job, 0) && |answers| == 6
    ensures var db := Work(w, pid, answers).db;
            && job.id in db.runs && (db.runs[job.id].status.Completed? <==> AllThrough(answers))
            && (AllThrough(answers) ==> Reviewed(db, job.id))
  {
    if AllThrough(answers) {
      FirstHalf(w, pid, job, answers);
      ComparisonCompletes(Enter(w, pid, Comparing(job)), pid, job, answers[3..]);
    } else {
      FirstBad(answers);
      BadAnswersEnd(w, pid, job, 0, answers);
    }
  }

  // The run a claim would take.
  predicate CanClaim(w: World, pid: Pid, token: Token, id: RunId) {
    token !in w.drawn && PhaseOf(w, pid).Idle? && Claimable(Requeue(w.db.runs, w.now), id, w.now)
  }

  // Every earlier run of its program is finished.
  ghost predicate Heads(db: Db, id: RunId)
    requires id in db.runs
  {
    forall prior :: prior in db.runs && db.runs[prior].program == db.runs[id].program && db.runs[prior].sequence < db.runs[id].sequence ==>
      db.runs[prior].status.Completed? || db.runs[prior].status.Failed?
  }

  /** A run can be claimed exactly at the head of its program's queue, when it is queued and due, or running with
      attempts left and its lease of five minutes over, and then at once. */
  lemma CanClaimIff(w: World, pid: Pid, token: Token, id: RunId)
    ensures CanClaim(w, pid, token, id) <==>
              && token !in w.drawn && PhaseOf(w, pid).Idle? && id in w.db.runs && Heads(w.db, id)
              && (|| (w.db.runs[id].status.Queued? && w.db.runs[id].dueAt <= w.now)
                  || (w.db.runs[id].status.Running? && w.db.runs[id].attempts < 5 && w.now > w.db.runs[id].lockedAt + 300_000))
  {
    var runs := Requeue(w.db.runs, w.now);
    if id in w.db.runs {
      forall prior | prior in w.db.runs
        ensures runs[prior].program == w.db.runs[prior].program && runs[prior].sequence == w.db.runs[prior].sequence
                && (Terminal(runs[prior].status) <==> Terminal(w.db.runs[prior].status))
      {
      }
    }
  }

  /** A claim gives an idle worker the run, one attempt up, exactly if the run heads its program's queue and is
      due, counting runs whose lease has run out as queued again. */
  lemma ClaimTakesIff(w: World, pid: Pid, token: Token, id: RunId)
    requires Safe(w)
    ensures var w' := Next(w, Claim(pid, token, id));
            if CanClaim(w, pid, token, id)
            then && id in w.db.runs && id in w'.db.runs && w'.db.runs[id].attempts == w.db.runs[id].attempts + 1 && w'.db.runs[id].lockedAt == w.now
                 && Along(w', pid, Job(id, token, w.db.runs[id].attempts + 1, w.db.runs[id].source), 0)
            else PhaseOf(w', pid) == PhaseOf(w, pid) && w'.drawn == w.drawn
  {
  }

  /** In every reachable world: a worker that claims a run and is not disturbed completes it, with a result of the
      run's own source, exactly if the report is read, both provider calls succeed and no write fails. */
  lemma ReviewCompletesIff(actions: seq<Action>, pid: Pid, token: Token, id: RunId, answers: seq<Answer>)
    requires CanClaim(RunAll(actions), pid, token, id) && |answers| == 6
    ensures var db := RunAll(actions + [Claim(pid, token, id)] + Resumes(pid, answers)).db;
            && id in db.runs && (db.runs[id].status.Completed? <==> AllThrough(answers))
            && (AllThrough(answers) ==> Reviewed(db, id))
  {
    var w := RunAll(actions);
    var claimed := actions + [Claim(pid, token, id)];
    EveryRunIsSafe(actions);
    ClaimTakesIff(w, pid, token, id);
    assert claimed[..|claimed| - 1] == actions;
    WorkIsARun(claimed, pid, answers);
    FetchedCompletesIff(RunAll(claimed), pid, Job(id, token, w.db.runs[id].attempts + 1, w.db.runs[id].source), answers);
  }

  /** And whatever happened before: a worker at the comparison that still holds its run completes it with three
      good answers. */
  lemma HeldComparisonCompletes(actions: seq<Action>, pid: Pid, answers: seq<Answer>)
    requires var w := RunAll(actions); PhaseOf(w, pid).Comparing? && HoldsRun(w.db, PhaseOf(w, pid).job)
    requires |answers| == 3 && answers[0].Success? && !answers[1].Throws? && !answers[2].Throws?
    ensures Reviewed(RunAll(actions + Resumes(pid, answers)).db, PhaseOf(RunAll(actions), pid).job.id)
  {
    var w := RunAll(actions);
    EveryRunIsSafe(actions);
    HolderIsMine(w, pid);
    WorkIsARun(actions, pid, answers);
    ComparisonCompletes(w, pid, PhaseOf(w, pid).job, answers);
  }

  /** A provider call that does not succeed ends the attempt: back in the queue, due one second later, exactly if
      the failure is retryable and attempts are left; failed otherwise. No result appears. */
  lemma ProviderFailureEnds(actions: seq<Action>, pid: Pid, answer: Answer)
    requires var (w, p) := (RunAll(actions), PhaseOf(RunAll(actions), pid)); (p.Working? || p.Comparing?) && HoldsRun(w.db, p.job)
    requires !answer.Success?
    ensures var (w, id) := (RunAll(actions), PhaseOf(RunAll(actions), pid).job.id);
            var db := RunAll(actions + Resumes(pid, [answer, Success])).db;
            var again := answer == ProviderError(true) && w.db.runs[id].attempts < MAX_ATTEMPTS;
            && id in db.runs && db.runs[id].status == (if again then Queued else Failed)
            && (again ==> db.runs[id].dueAt == w.now + RETRY_MS) && db.results == w.db.results
  {
    var w := RunAll(actions);
    EveryRunIsSafe(actions);
    HolderIsMine(w, pid);
    WorkIsARun(actions, pid, [answer, Success]);
    WorkFirst(w, pid, [answer, Success]);
    WorkFirst(Next(w, Resume(pid, answer)), pid, [answer, Success][1..]);
    assert [answer, Success][1..] == [Success] && [Success][1..] == [];
  }

  predicate Writes(p: Phase) {
    p.SavingFingerprint? || p.Inserting? || (p.Finishing? && !p.inCatch)
  }

  /** So does a write that fails, the last one included: the attempt is recorded failed. */
  lemma FailedWriteEnds(actions: seq<Action>, pid: Pid)
    requires var (w, p) := (RunAll(actions), PhaseOf(RunAll(actions), pid)); Writes(p) && HoldsRun(w.db, p.job)
    ensures var (w, id) := (RunAll(actions), PhaseOf(RunAll(actions), pid).job.id);
            var db := RunAll(actions + Resumes(pid, [Throws, Success])).db;
            id in db.runs && db.runs[id].status.Failed? && db.results == w.db.results
  {
    var w := RunAll(actions);
    WorkIsARun(actions, pid, [Throws, Success]);
    WorkFirst(w, pid, [Throws, Success]);
    WorkFirst(Next(w, Resume(pid, Throws)), pid, [Throws, Success][1..]);
    assert [Throws, Success][1..] == [Success] && [Success][1..] == [];
  }

  /** A worker that has lost its run by the time it saves the fingerprint goes no further: it changes nothing any
      more, whatever answers it gets, and no comparison is made. */
  lemma LostWorkerStops(w: World, pid: Pid, answers: seq<Answer>)
    requires PhaseOf(w, pid).SavingFingerprint? && !HoldsRun(w.db, PhaseOf(w, pid).job) && |answers| == 3
    ensures Work(w, pid, answers).db == w.db && PhaseOf(Work(w, pid, answers), pid).Idle?
  {
    var w1 := Next(w, Resume(pid, answers[0]));
    var w2 := Next(w1, Resume(pid, answers[1]));
    WorkFirst(w, pid, answers);
    WorkFirst(w1, pid, answers[1..]);
    WorkFirst(w2, pid, answers[1..][1..]);
    assert answers[1..][1..][1..] == [];
    assert PhaseOf(w2, pid).Idle? || (PhaseOf(w2, pid).Rereading? && PhaseOf(w2, pid).inCatch);
  }

  /** The result of a review is stored exactly if the write does not fail, the run is there with the source that was
      reviewed, and it has no result yet. */
  lemma StoresIff(w: World, pid: Pid, answer: Answer)
    requires PhaseOf(w, pid).Inserting?
    ensures var (job, w') := (PhaseOf(w, pid).job, Next(w, Resume(pid, answer)));
            && (w'.db.results != w.db.results <==>
                  !answer.Throws? && job.id in w.db.runs && w.db.runs[job.id].source == job.source && job.id !in w.db.results)
            && (w'.db.results != w.db.results ==> w'.db.results == w.db.results[job.id := Result(job.source, job.token)])
            && (PhaseOf(w', pid).want.Completed? <==> !answer.Throws? && job.id in w.db.runs && w.db.runs[job.id].source == job.source)
  {
    var job := PhaseOf(w, pid).job;
    if job.id !in w.db.results { assert w.db.results[job.id := Result(job.source, job.token)].Keys != w.db.results.Keys; }
  }

  /** A last write that found the run in other hands ends quietly exactly if the run has come to the wanted status, or it
      was itself the record of a failure; otherwise the failure is to be recorded. */
  lemma RereadingEndsIff(w: World, pid: Pid, answer: Answer)
    requires PhaseOf(w, pid).Rereading?
    ensures var (p, q) := (PhaseOf(w, pid), PhaseOf(Next(w, Resume(pid, answer)), pid));
            && (q.Idle? <==> p.inCatch || (!answer.Throws? && p.job.id in w.db.runs && w.db.runs[p.job.id].status == p.want))
            && (!q.Idle? ==> q == Finishing(p.job, Failed, true)) && Next(w, Resume(pid, answer)).db == w.db
  {
  }

  // ---------------------------------------------------------------- what an outcome says about the answers

  // Step `k` of the run gave this worker, at work on this job, an answer of the kind.
  ghost predicate HeardAt(actions: seq<Action>, k: nat, pid: Pid, job: Job, failing: bool)
    requires k < |actions|
  {
    var p := PhaseOf(RunAll(actions[..k]), pid);
    && actions[k].Resume? && actions[k].pid == pid && !p.Idle? && p.job == job
    && (if failing then !actions[k].answer.Success? else p.Comparing? && actions[k].answer.Success?)
  }

  ghost predicate Heard(actions: seq<Action>, pid: Pid, job: Job, failing: bool) {
    exists k :: 0 <= k < |actions| && HeardAt(actions, k, pid, job, failing)
  }

  lemma HeardBefore(actions: seq<Action>, pid: Pid, job: Job, failing: bool)
    requires actions != [] && Heard(actions[..|actions| - 1], pid, job, failing)
    ensures Heard(actions, pid, job, failing)
  {
    var front := actions[..|actions| - 1];
    var k :| 0 <= k < |front| && HeardAt(front, k, pid, job, failing);
    assert front[..k] == actions[..k];
    assert HeardAt(actions, k, pid, job, failing);
  }

  lemma HeardNow(actions: seq<Action>, pid: Pid, job: Job, failing: bool)
    requires actions != [] && HeardAt(actions, |actions| - 1, pid, job, failing)
    ensures Heard(actions, pid, job, failing)
  {
  }

  // What a phase owes to earlier answers: to fail a run it holds, a failing one; to complete, a comparison.
  ghost predicate Owes(actions: seq<Action>, pid: Pid) {
    var (w, p) := (RunAll(actions), PhaseOf(RunAll(actions), pid));
    && (p.Finishing? && !p.want.Completed? && HoldsRun(w.db, p.job) ==> Heard(actions, pid, p.job, true))
    && ((p.Inserting? || ((p.Finishing? || p.Rereading?) && p.want.Completed?)) ==> Heard(actions, pid, p.job, false))
    && (p.Rereading? ==> !HoldsRun(w.db, p.job))
  }

  // Nobody comes to hold a run under a token that was drawn before.
  lemma HoldIsOld(w: World, a: Action, pid: Pid, job: Job)
    requires Safe(w) && PhaseOk(w, pid, PhaseOf(w, pid)) && !PhaseOf(w, pid).Idle? && PhaseOf(w, pid).job == job
    requires HoldsRun(Next(w, a).db, job)
    ensures HoldsRun(w.db, job)
  {
  }

  lemma OthersKeepPhase(w: World, a: Action, pid: Pid)
    requires !(a.Resume? && a.pid == pid)
    ensures var p := PhaseOf(Next(w, a), pid); p == PhaseOf(w, pid) || p.Idle? || p.Fetching?
  {
  }

  lemma OwesUndisturbed(actions: seq<Action>, pid: Pid)
    requires actions != [] && Owes(actions[..|actions| - 1], pid)
    requires var a := actions[|actions| - 1]; !(a.Resume? && a.pid == pid)
    ensures Owes(actions, pid)
  {
    var (front, a) := (actions[..|actions| - 1], actions[|actions| - 1]);
    var (w, p) := (RunAll(front), PhaseOf(RunAll(front), pid));
    EveryRunIsSafe(front);
    assert PhaseOk(w, pid, p);
    OthersKeepPhase(w, a, pid);
    if PhaseOf(Next(w, a), pid) == p && !p.Idle? {
      if HoldsRun(Next(w, a).db, p.job) { HoldIsOld(w, a, pid, p.job); }
      if Heard(front, pid, p.job, true) { HeardBefore(actions, pid, p.job, true); }
      if Heard(front, pid, p.job, false) { HeardBefore(actions, pid, p.job, false); }
    }
  }

  // Where a step of the worker itself leads, and from what answer.
  lemma OwnStep(w: World, pid: Pid, answer: Answer)
    requires PhaseOk(w, pid, PhaseOf(w, pid))
    ensures var (p, w') := (PhaseOf(w, pid), Next(w, Resume(pid, answer)));
            var p' := PhaseOf(w', pid);
            && (p.Idle? ==> p'.Idle?) && (!p.Idle? && !p'.Idle? ==> p'.job == p.job)
            && (!p.Idle? && HoldsRun(w'.db, p.job) ==> HoldsRun(w.db, p.job))
            && (p'.Finishing? && !p'.want.Completed? && HoldsRun(w'.db, p.job) ==> !answer.Success? || p.Rereading?)
            && ((p'.Inserting? || ((p'.Finishing? || p'.Rereading?) && p'.want.Completed?)) ==>
                  (p.Comparing? && answer.Success?) || p.Inserting? || ((p.Finishing? || p.Rereading?) && p.want.Completed?))
            && (p'.Rereading? ==> !HoldsRun(w'.db, p.job))
  {
  }

  lemma OwesAfterOwnStep(actions: seq<Action>, pid: Pid)
    requires actions != [] && Owes(actions[..|actions| - 1], pid)
    requires var a := actions[|actions| - 1]; a.Resume? && a.pid == pid
    ensures Owes(actions, pid)
  {
    var (front, a) := (actions[..|actions| - 1], actions[|actions| - 1]);
    var (w, p) := (RunAll(front), PhaseOf(RunAll(front), pid));
    EveryRunIsSafe(front);
    assert PhaseOk(w, pid, p);
    OwnStep(w, pid, a.answer);
    if !p.Idle? {
      if Heard(front, pid, p.job, true) { HeardBefore(actions, pid, p.job, true); }
      if Heard(front, pid, p.job, false) { HeardBefore(actions, pid, p.job, false); }
      if !a.answer.Success? { HeardNow(actions, pid, p.job, true); }
      if p.Comparing? && a.answer.Success? { HeardNow(actions, pid, p.job, false); }
    }
  }

  lemma {:induction false} EveryRunOwes(actions: seq<Action>, pid: Pid)
    ensures Owes(actions, pid)
  {
    if actions != [] {
      EveryRunOwes(actions[..|actions| - 1], pid);
      var a := actions[|actions| - 1];
      if a.Resume? && a.pid == pid { OwesAfterOwnStep(actions, pid); } else { OwesUndisturbed(actions, pid); }
    }
  }

  /** In every run, a worker gives up a run it holds, leaving it running, exactly when the report cannot be read or
      recording a failure fails in its turn. */
  lemma GivesUpIff(actions: seq<Action>, pid: Pid, answer: Answer)
    requires var (w, p) := (RunAll(actions), PhaseOf(RunAll(actions), pid)); !p.Idle? && HoldsRun(w.db, p.job)
    ensures var (p, w') := (PhaseOf(RunAll(actions), pid), Next(RunAll(actions), Resume(pid, answer)));
            PhaseOf(w', pid).Idle? && HoldsRun(w'.db, p.job) <==>
              (p.Fetching? && !answer.Success?) || (p.Finishing? && p.inCatch && answer.Throws?)
  {
    EveryRunIsSafe(actions);
    EveryRunOwes(actions, pid);
    assert PhaseOk(RunAll(actions), pid, PhaseOf(RunAll(actions), pid));
  }

  lemma StatusMoves(w: World, a: Action, id: RunId)
    requires Safe(w) && id in w.db.runs && id in Next(w, a).db.runs && Next(w, a).db.runs[id].status != w.db.runs[id].status
    requires Terminal(Next(w, a).db.runs[id].status)
    ensures a.Resume? && PhaseOf(w, a.pid).Finishing? && PhaseOf(w, a.pid).job.id == id
    ensures HoldsRun(w.db, PhaseOf(w, a.pid).job) && PhaseOf(w, a.pid).want == Next(w, a).db.runs[id].status
  {
  }

  /** A run becomes failed only by a worker that, at work on that very attempt, got an answer that was not a
      success; and completed only by one whose comparison succeeded. */
  lemma OutcomeWasHeard(actions: seq<Action>, id: RunId)
    requires actions != []
    requires var (db, db') := (RunAll(actions[..|actions| - 1]).db, RunAll(actions).db);
             id in db.runs && id in db'.runs && db'.runs[id].status != db.runs[id].status && Terminal(db'.runs[id].status)
    ensures var (w, a) := (RunAll(actions[..|actions| - 1]), actions[|actions| - 1]);
            && a.Resume? && !PhaseOf(w, a.pid).Idle? && PhaseOf(w, a.pid).job.id == id
            && Heard(actions, a.pid, PhaseOf(w, a.pid).job, RunAll(actions).db.runs[id].status.Failed?)
  {
    var (front, a) := (actions[..|actions| - 1], actions[|actions| - 1]);
    EveryRunIsSafe(front);
    StatusMoves(RunAll(front), a, id);
    EveryRunOwes(front, a.pid);
    HeardBefore(actions, a.pid, PhaseOf(RunAll(front), a.pid).job, RunAll(actions).db.runs[id].status.Failed?);
  }

  // ---------------------------------------------------------------- the lease and the retry delay

  /** A run somebody is at work on is taken from its worker exactly by a claim after its lease of five minutes,
      and only while attempts are left. */
  lemma TakenOverIff(w: World, a: Action, id: RunId)
    requires Safe(w) && id in w.db.runs && w.db.runs[id].status.Running? && !a.Resume?
    ensures id in Next(w, a).db.runs
    ensures Next(w, a).db.runs[id] != w.db.runs[id] <==>
              && a.Claim? && a.token !in w.drawn && PhaseOf(w, a.pid).Idle?
              && w.now > w.db.runs[id].lockedAt + 300_000 && w.db.runs[id].attempts < 5
    ensures Next(w, a).db.runs[id] != w.db.runs[id] ==>
              !(Next(w, a).db.runs[id].status.Running? && Next(w, a).db.runs[id].token == w.db.runs[id].token)
  {
    assert w.db.runs[id].token.Some? && w.db.runs[id].token.value in w.drawn by { assert RunOk(w, id); }
  }

  // Queued, and not due yet.
  predicate Delayed(w: World, id: RunId, due: nat) {
    id in w.db.runs && w.db.runs[id].status.Queued? && w.db.runs[id].dueAt == due
  }

  lemma DelayStays(w: World, a: Action, id: RunId, due: nat)
    requires Safe(w) && Delayed(w, id, due) && w.now < due
    ensures Delayed(Next(w, a), id, due)
  {
    if a.Resume? && !PhaseOf(w, a.pid).Idle? { assert PhaseOk(w, a.pid, PhaseOf(w, a.pid)); }
  }

  lemma NowGrows(w: World, a: Action)
    ensures w.now <= Next(w, a).now
  {
  }

  lemma DelayStaysOnce(actions: seq<Action>, a: Action, id: RunId, due: nat)
    requires Delayed(RunAll(actions), id, due) && RunAll(actions).now < due
    ensures Delayed(Next(RunAll(actions), a), id, due)
  {
    EveryRunIsSafe(actions);
    DelayStays(RunAll(actions), a, id, due);
  }

  /** A run that was put back for a second is claimed by nobody before that second is over. */
  lemma {:induction false} NobodyHurries(actions: seq<Action>, more: seq<Action>, id: RunId, due: nat)
    requires Delayed(RunAll(actions), id, due) && RunAll(actions + more).now < due
    ensures Delayed(RunAll(actions + more), id, due)
    decreases |more|
  {
    if more == [] {
      assert actions + more == actions;
    } else {
      var (front, a) := (more[..|more| - 1], more[|more| - 1]);
      var (all, w) := (actions + more, RunAll(actions + front));
      assert all[..|all| - 1] == actions + front && RunAll(all) == Next(w, a);
      NowGrows(w, a);
      NobodyHurries(actions, front, id, due);
      DelayStaysOnce(actions + front, a, id, due);
    }
  }

  // ---------------------------------------------------------------- submissions and retries

  /** A submission is queued at once, with all its attempts, under the next number of its program. */
  lemma SubmitQueuesIff(w: World, id: RunId, revision: Revision)
    requires RevisionsOk(w.db)
    ensures var w' := Next(w, Submit(id, revision));
            if id !in w.db.revisions && (forall r :: r in w.db.revisions && w.db.revisions[r].program == revision.program ==> w.db.revisions[r].sequence < revision.sequence)
            then && w'.db.revisions == w.db.revisions[id := revision] && id in w'.db.runs && w'.db.runs == w.db.runs[id := w'.db.runs[id]]
                 && OfRevision(w'.db.runs[id], revision) && Delayed(w', id, w.now) && w'.db.runs[id].attempts == 0
            else w' == w
  {
  }

  /** An operator's retry queues the run at once, with all its attempts and no result, exactly if it failed, or
      completed without a result, or the revision has no run; otherwise it changes nothing. */
  lemma RetryQueuesIff(actions: seq<Action>, id: RunId)
    ensures var (w, w') := (RunAll(actions), RunAll(actions + [ManualRetry(id)]));
            if id in w.db.revisions && (id in w.db.runs ==> w.db.runs[id].status.Failed?)
            then && id in w'.db.runs && w'.db.runs == w.db.runs[id := w'.db.runs[id]] && OfRevision(w'.db.runs[id], w.db.revisions[id])
                 && Delayed(w', id, w.now) && w'.db.runs[id].attempts == 0 && w'.db.results == w.db.results - {id}
            else w' == w
  {
    EveryRunIsSafe(actions);
    EveryRunHasItsRevision(actions);
    assert (actions + [ManualRetry(id)])[..|actions|] == actions;
    if id in RunAll(actions).db.runs { assert RunOk(RunAll(actions), id); }
  }
}
