/** The AI review queue: any number of workers, each crashed at any await, over the run and result tables. */
module AiQueue {
  import opened Options

  type Pid = nat
  type RunId = nat
  type Token = nat
  type ProgramId = nat

  const MAX_ATTEMPTS: nat := 5
  const LEASE_MS: nat := 300_000
  const RETRY_MS: nat := 1_000

  datatype Status = Queued | Running | Completed | Failed

  datatype Source = Source(report: nat, revision: nat, contentHash: nat)

  datatype Run = Run(program: ProgramId, sequence: nat, source: Source, status: Status, attempts: nat,
                     token: Option<Token>, lockedAt: nat, dueAt: nat)

  // `producer` is the token of the attempt that inserted the result.
  datatype Result = Result(source: Source, producer: Token)

  // An immutable submission; a run shares the id of its revision. Old revisions may have no run.
  datatype Revision = Revision(program: ProgramId, sequence: nat, source: Source)

  datatype Db = Db(revisions: map<RunId, Revision>, runs: map<RunId, Run>, results: map<RunId, Result>)

  datatype Job = Job(id: RunId, token: Token, attempts: nat, source: Source)

  // Where runOnce stands; `inCatch` says a failing write escapes instead of being recorded.
  datatype Phase =
    | Idle
    | Fetching(job: Job)
    | Working(job: Job)
    | SavingFingerprint(job: Job)
    | Comparing(job: Job)
    | Inserting(job: Job)
    | Finishing(job: Job, want: Status, inCatch: bool)
    | Rereading(job: Job, want: Status, inCatch: bool)

  datatype Answer =
    | Success
    | Blocked
    | ProviderError(retryable: bool)
    | Throws

  // `drawn` remembers which worker drew each lock token.
  datatype World = World(now: nat, db: Db, drawn: map<Token, Pid>, workers: map<Pid, Phase>)

  datatype Action =
    | Tick(ms: nat)
    | Backfill(id: RunId, revision: Revision)
    | Submit(id: RunId, revision: Revision)
    | Claim(pid: Pid, token: Token, id: RunId)
    | Resume(pid: Pid, answer: Answer)
    | Crash(pid: Pid)
    | ManualRetry(id: RunId)

  predicate Terminal(status: Status) { status.Completed? || status.Failed? }

  // ---------------------------------------------------------------- the database side

  predicate Stale(run: Run, now: nat) {
    run.status.Running? && run.lockedAt + LEASE_MS < now && run.attempts < MAX_ATTEMPTS
  }

  function Requeue(runs: map<RunId, Run>, now: nat): map<RunId, Run> {
    map id | id in runs :: if Stale(runs[id], now) then runs[id].(status := Queued, token := None, dueAt := now) else runs[id]
  }

  // The head of its program's queue, and due. Row locks may hide an earlier head of another program.
  predicate Claimable(runs: map<RunId, Run>, id: RunId, now: nat) {
    && id in runs && runs[id].status.Queued? && runs[id].dueAt <= now
    && forall prior :: prior in runs && runs[prior].program == runs[id].program && runs[prior].sequence < runs[id].sequence ==>
         Terminal(runs[prior].status)
  }

  function Locked(run: Run, token: Token, now: nat): Run {
    run.(status := Running, attempts := run.attempts + 1, token := Some(token), lockedAt := now)
  }

  // A conditional update of the run this job still holds.
  predicate HoldsRun(db: Db, job: Job) {
    job.id in db.runs && db.runs[job.id].status.Running? && db.runs[job.id].token == Some(job.token)
  }

  function Finished(db: Db, job: Job, want: Status, now: nat): Db
    requires job.id in db.runs
  {
    var run := db.runs[job.id];
    db.(runs := db.runs[job.id := run.(status := want, dueAt := if want.Queued? then now + RETRY_MS else run.dueAt)])
  }

  // The submission gets the next number of its program.
  predicate NextInProgram(revisions: map<RunId, Revision>, revision: Revision) {
    forall id :: id in revisions && revisions[id].program == revision.program ==> revisions[id].sequence < revision.sequence
  }

  function FreshRun(r: Revision, now: nat): Run {
    Run(r.program, r.sequence, r.source, Queued, 0, None, 0, now)
  }

  function ManuallyRetried(db: Db, id: RunId, now: nat): Db
    requires id in db.runs
  {
    db.(runs := db.runs[id := db.runs[id].(status := Queued, attempts := 0, token := None, dueAt := now)], results := db.results - {id})
  }

  // ---------------------------------------------------------------- the worker

  function PhaseOf(w: World, pid: Pid): Phase {
    if pid in w.workers then w.workers[pid] else Idle
  }

  function Enter(w: World, pid: Pid, phase: Phase): World {
    w.(workers := w.workers[pid := phase])
  }

  // The catch block: persistUnavailable with a retryable or a final code.
  function Unavailable(job: Job, retryable: bool, inCatch: bool): Phase {
    Finishing(job, if retryable && job.attempts < MAX_ATTEMPTS then Queued else Failed, inCatch)
  }

  function ProviderStep(job: Job, answer: Answer, onSuccess: Phase): Phase {
    match answer
    case Success => onSuccess
    case Blocked => Unavailable(job, false, false)
    case ProviderError(retryable) => Unavailable(job, retryable, true)
    case Throws => Unavailable(job, false, true)
  }

  function InsertStep(w: World, pid: Pid, job: Job, answer: Answer): World {
    if answer.Throws? || job.id !in w.db.runs || w.db.runs[job.id].source != job.source
    then Enter(w, pid, Unavailable(job, false, true))
    else if job.id in w.db.results then Enter(w, pid, Finishing(job, Completed, false))
    else
      Enter(w, pid, Finishing(job, Completed, false)).(
        db := w.db.(results := w.db.results[job.id := Result(job.source, job.token)]))
  }

  function FinishStep(w: World, pid: Pid, job: Job, want: Status, inCatch: bool, answer: Answer): World {
    if answer.Throws? then Enter(w, pid, if inCatch then Idle else Unavailable(job, false, true))
    else if HoldsRun(w.db, job) then Enter(w, pid, Idle).(db := Finished(w.db, job, want, w.now))
    else Enter(w, pid, Rereading(job, want, inCatch))
  }

  function RereadStep(w: World, job: Job, want: Status, inCatch: bool, answer: Answer): Phase {
    if !answer.Throws? && job.id in w.db.runs && w.db.runs[job.id].status == want then Idle
    else if inCatch then Idle
    else Unavailable(job, false, true)
  }

  function ResumeStep(w: World, pid: Pid, answer: Answer): World {
    match PhaseOf(w, pid)
    case Idle => w
    case Fetching(job) => Enter(w, pid, if answer.Success? then Working(job) else Idle)
    case Working(job) => Enter(w, pid, ProviderStep(job, answer, SavingFingerprint(job)))
    case SavingFingerprint(job) =>
      Enter(w, pid, if !answer.Throws? && HoldsRun(w.db, job) then Comparing(job) else Unavailable(job, false, true))
    case Comparing(job) => Enter(w, pid, ProviderStep(job, answer, Inserting(job)))
    case Inserting(job) => InsertStep(w, pid, job, answer)
    case Finishing(job, want, inCatch) => FinishStep(w, pid, job, want, inCatch, answer)
    case Rereading(job, want, inCatch) => Enter(w, pid, RereadStep(w, job, want, inCatch, answer))
  }

  function ClaimStep(w: World, pid: Pid, token: Token, id: RunId): World {
    var runs := Requeue(w.db.runs, w.now);
    if token in w.drawn || !PhaseOf(w, pid).Idle? then w
    else if !Claimable(runs, id, w.now) then w.(db := w.db.(runs := runs))
    else
      var run := Locked(runs[id], token, w.now);
      w.(db := w.db.(runs := runs[id := run]), drawn := w.drawn[token := pid],
         workers := w.workers[pid := Fetching(Job(id, token, run.attempts, run.source))])
  }

  function Next(w: World, a: Action): World {
    match a
    case Tick(ms) => w.(now := w.now + ms)
    case Backfill(id, revision) =>
      if id in w.db.revisions || !NextInProgram(w.db.revisions, revision) then w
      else w.(db := w.db.(revisions := w.db.revisions[id := revision]))
    case Submit(id, revision) =>
      if id in w.db.revisions || id in w.db.runs || !NextInProgram(w.db.revisions, revision) then w
      else w.(db := w.db.(revisions := w.db.revisions[id := revision], runs := w.db.runs[id := FreshRun(revision, w.now)]))
    case Claim(pid, token, id) => ClaimStep(w, pid, token, id)
    case Resume(pid, answer) => ResumeStep(w, pid, answer)
    case Crash(pid) => Enter(w, pid, Idle)
    case ManualRetry(id) =>
      if id !in w.db.revisions then w
      else if id !in w.db.runs then w.(db := w.db.(runs := w.db.runs[id := FreshRun(w.db.revisions[id], w.now)]))
      else if !Terminal(w.db.runs[id].status) || (w.db.runs[id].status.Completed? && id in w.db.results) then w
      else w.(db := ManuallyRetried(w.db, id, w.now))
  }

  function RunAll(actions: seq<Action>): World {
    if actions == [] then World(0, Db(map[], map[], map[]), map[], map[])
    else Next(RunAll(actions[..|actions| - 1]), actions[|actions| - 1])
  }
}
