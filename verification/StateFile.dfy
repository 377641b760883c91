/** Any number of runner processes sharing one state file. Each file operation is one atomic action;
    a process may crash between any two of them. */
module StateFile {
  import opened Options
  import opened Numbers
  import opened AcceptanceRunner
  import opened AcceptanceRunnerSafety

  type Pid = nat

  // What a process wants to write, and what it demands of the current contents.
  datatype Save = Save(next: State, expectedRevision: Option<nat>, createOnly: bool)

  datatype Phase =
    | Ready
    | Loaded(base: State)
    | Saving(save: Save)        // about to create the lock file
    | Locked(save: Save)        // lock file created by this process
    | Checked(save: Save)       // current contents read and accepted
    | TempWritten(save: Save)
    | Releasing                 // in `finally`, lock still there
    | Finished
    | Crashed

  // `lock` remembers which process created the lock file; `history` lists everything the path ever held.
  datatype World = World(file: Option<State>, lock: Option<Pid>, phases: map<Pid, Phase>, history: seq<State>)

  datatype Action =
    | Create(pid: Pid, runId: nat)
    | Load(pid: Pid)
    | Mutate(pid: Pid, calls: seq<(nat, Call)>)
    | AcquireLock(pid: Pid)
    | CheckCurrent(pid: Pid)
    | WriteTemporary(pid: Pid)
    | Rename(pid: Pid)
    | Release(pid: Pid)
    | Fail(pid: Pid)          // reading, writing or renaming throws: on to `finally`
    | FailToUnlink(pid: Pid)  // the error of removing the lock file is swallowed
    | Crash(pid: Pid)

  function PhaseOf(w: World, pid: Pid): Phase {
    if pid in w.phases then w.phases[pid] else Ready
  }

  function At(w: World, pid: Pid, phase: Phase): World {
    w.(phases := w.phases[pid := phase])
  }

  // The comparisons made under the lock, in the order the code makes them.
  predicate Accepts(current: Option<State>, save: Save) {
    && !(save.createOnly && current.Some?)
    && (save.expectedRevision.Some? ==> current.Some? && current.value.revision == save.expectedRevision.value)
    && (current.Some? ==> current.value.runId == save.next.runId)
  }

  // An action that is not enabled changes nothing.
  function Next(w: World, a: Action): World {
    var phase := PhaseOf(w, a.pid);
    match a
    case Create(pid, runId) =>
      if phase.Ready? then At(w, pid, Saving(Save(Fresh(runId), None, true))) else w
    case Load(pid) =>
      if phase.Ready? then At(w, pid, if w.file.Some? then Loaded(w.file.value) else Finished) else w
    case Mutate(pid, calls) =>
      if phase.Loaded? then At(w, pid, Saving(Save(Run(phase.base, calls), Some(phase.base.revision), false))) else w
    case AcquireLock(pid) =>
      if !phase.Saving? then w
      else if w.lock.Some? then At(w, pid, Finished)
      else At(w, pid, Locked(phase.save)).(lock := Some(pid))
    case CheckCurrent(pid) =>
      if !phase.Locked? then w
      else At(w, pid, if Accepts(w.file, phase.save) then Checked(phase.save) else Releasing)
    case WriteTemporary(pid) =>
      if phase.Checked? then At(w, pid, TempWritten(phase.save)) else w
    case Rename(pid) =>
      if phase.TempWritten?
      then At(w, pid, Releasing).(file := Some(phase.save.next), history := w.history + [phase.save.next])
      else w
    case Release(pid) =>
      if phase.Releasing? then At(w, pid, Finished).(lock := None) else w
    case Fail(pid) =>
      if phase.Locked? || phase.Checked? || phase.TempWritten? then At(w, pid, Releasing) else w
    case FailToUnlink(pid) =>
      if phase.Releasing? then At(w, pid, Finished) else w
    case Crash(pid) => At(w, pid, Crashed)
  }

  function RunAll(w: World, actions: seq<Action>): World {
    if actions == [] then w else Next(RunAll(w, actions[..|actions| - 1]), actions[|actions| - 1])
  }

  function Empty(): World {
    World(None, None, map[], [])
  }

  ghost predicate Derives(s: State, s': State) {
    exists calls :: s' == Run(s, calls)
  }

  predicate Holding(phase: Phase) {
    phase.Locked? || phase.Checked? || phase.TempWritten? || phase.Releasing?
  }

  /** The durable contents form one chain: it starts with a fresh run, every later entry is what some
      process computed from exactly the entry before it, and a revision names at most one state. */
  ghost predicate Chain(history: seq<State>) {
    && (forall i :: 0 <= i < |history| ==> Inv(history[i]))
    && (history != [] ==> history[0] == Fresh(history[0].runId))
    && (forall i :: 0 < i < |history| ==> Derives(history[i - 1], history[i]))
    && (forall i, j :: 0 <= i <= j < |history| ==>
          history[i].runId == history[j].runId && history[i].revision <= history[j].revision
          && (history[i].revision == history[j].revision ==> history[i] == history[j]))
  }

  // The save was computed from a state the path has held, or creates the file.
  ghost predicate Honest(w: World, save: Save) {
    if save.createOnly then save.next == Fresh(save.next.runId) && save.expectedRevision.None?
    else
      exists base :: base in w.history && Derives(base, save.next) && save.expectedRevision == Some(base.revision)
  }

  // What is known about one process in each phase.
  ghost predicate PhaseOk(w: World, pid: Pid) {
    var phase := PhaseOf(w, pid);
    && (Holding(phase) ==> w.lock == Some(pid))
    && (phase.Loaded? ==> phase.base in w.history)
    && (phase.Saving? || phase.Locked? || phase.Checked? || phase.TempWritten? ==> Honest(w, phase.save))
    && (phase.Checked? || phase.TempWritten? ==> Accepts(w.file, phase.save))
  }

  ghost predicate Consistent(w: World) {
    && Chain(w.history)
    && w.file == (if w.history == [] then None else Some(w.history[|w.history| - 1]))
    && (forall pid :: PhaseOk(w, pid))
  }

  lemma HonestGrows(w: World, w': World, save: Save)
    requires Honest(w, save) && w.history <= w'.history
    ensures Honest(w', save)
  {
    if !save.createOnly {
      var base :| base in w.history && Derives(base, save.next) && save.expectedRevision == Some(base.revision);
      assert base in w'.history;
    }
  }

  lemma OthersKeepPhase(w: World, w': World, pid: Pid)
    requires forall p :: PhaseOk(w, p)
    requires w.history <= w'.history && w'.phases == w.phases[pid := PhaseOf(w', pid)] && pid in w'.phases
    requires w'.lock == w.lock || w.lock == None || w.lock == Some(pid)
    requires w'.file == w.file || w.lock == Some(pid)
    requires PhaseOk(w', pid)
    ensures forall p :: PhaseOk(w', p)
  {
    forall p ensures PhaseOk(w', p) {
      if p != pid {
        assert PhaseOf(w', p) == PhaseOf(w, p) && PhaseOk(w, p);
        var phase := PhaseOf(w, p);
        if phase.Saving? || phase.Locked? || phase.Checked? || phase.TempWritten? {
          HonestGrows(w, w', phase.save);
        }
      }
    }
  }

  lemma DerivedFacts(s: State, s': State)
    requires Inv(s) && Derives(s, s')
    ensures Inv(s') && s'.runId == s.runId && (s' == s || s'.revision > s.revision)
  {
    var calls :| s' == Run(s, calls);
    RunOnlyAppends(s, calls);
  }

  lemma ExtendChain(history: seq<State>, next: State)
    requires Chain(history) && history != [] && Derives(history[|history| - 1], next)
    ensures Chain(history + [next])
  {
    var after := history + [next];
    var last := history[|history| - 1];
    DerivedFacts(last, next);
    forall i | 0 < i < |after| ensures Derives(after[i - 1], after[i]) {
      if i < |history| { assert Derives(history[i - 1], history[i]); }
    }
  }

  /** The heart of compare-and-swap: under the lock, an accepted save was computed from what the
      path holds now, because a revision names one state. */
  lemma AcceptedSaveIsCurrent(w: World, save: Save)
    requires Consistent(w) && Honest(w, save) && Accepts(w.file, save) && w.history != []
    ensures Derives(w.history[|w.history| - 1], save.next)
  {
    var last := w.history[|w.history| - 1];
    var base :| base in w.history && Derives(base, save.next) && save.expectedRevision == Some(base.revision);
    var i :| 0 <= i < |w.history| && w.history[i] == base;
    assert base == last;
  }

  lemma AcceptedSaveExtendsChain(w: World, save: Save)
    requires Consistent(w) && Honest(w, save) && Accepts(w.file, save)
    ensures Chain(w.history + [save.next])
  {
    if w.history == [] {
      FreshInvariant(save.next.runId);
    } else {
      AcceptedSaveIsCurrent(w, save);
      ExtendChain(w.history, save.next);
    }
  }

  lemma RenameKeepsPhases(w: World, pid: Pid)
    requires (forall p :: PhaseOk(w, p)) && PhaseOf(w, pid).TempWritten?
    ensures forall p :: PhaseOk(Next(w, Rename(pid)), p)
  {
    assert PhaseOk(w, pid);
    OthersKeepPhase(w, Next(w, Rename(pid)), pid);
  }

  lemma RenameExtendsChain(w: World, pid: Pid)
    requires Consistent(w) && PhaseOf(w, pid).TempWritten?
    ensures var w' := Next(w, Rename(pid)); Chain(w'.history) && w'.history != [] && w'.file == Some(w'.history[|w'.history| - 1])
  {
    assert PhaseOk(w, pid);
    AcceptedSaveExtendsChain(w, PhaseOf(w, pid).save);
  }

  lemma RenameKeepsConsistent(w: World, pid: Pid)
    requires Consistent(w) && PhaseOf(w, pid).TempWritten?
    ensures Consistent(Next(w, Rename(pid)))
  {
    RenameExtendsChain(w, pid);
    RenameKeepsPhases(w, pid);
  }

  lemma MutateIsHonest(w: World, pid: Pid, calls: seq<(nat, Call)>)
    requires Consistent(w) && PhaseOf(w, pid).Loaded?
    ensures PhaseOk(Next(w, Mutate(pid, calls)), pid)
  {
    assert PhaseOk(w, pid);
    var base := PhaseOf(w, pid).base;
    var w' := Next(w, Mutate(pid, calls));
    assert base in w'.history && Derives(base, Run(base, calls));
  }

  lemma OwnPhaseOk(w: World, a: Action)
    requires PhaseOk(w, a.pid) && !(a.Rename? && PhaseOf(w, a.pid).TempWritten?) && !a.Mutate?
    requires w.file == (if w.history == [] then None else Some(w.history[|w.history| - 1]))
    ensures PhaseOk(Next(w, a), a.pid)
  {
    var phase := PhaseOf(w, a.pid);
    if phase.Saving? || phase.Locked? || phase.Checked? || phase.TempWritten? { HonestGrows(w, Next(w, a), phase.save); }
  }

  lemma OtherActionFrame(w: World, a: Action)
    requires PhaseOk(w, a.pid) && !(a.Rename? && PhaseOf(w, a.pid).TempWritten?)
    ensures var w' := Next(w, a);
            && w'.history == w.history && w'.file == w.file
            && (w' == w || (a.pid in w'.phases && w'.phases == w.phases[a.pid := PhaseOf(w', a.pid)]))
            && (w'.lock == w.lock || w.lock == None || w.lock == Some(a.pid))
  {}

  lemma NextKeepsConsistent(w: World, a: Action)
    requires Consistent(w)
    ensures Consistent(Next(w, a))
  {
    var w' := Next(w, a);
    assert PhaseOk(w, a.pid);
    if a.Rename? && PhaseOf(w, a.pid).TempWritten? {
      RenameKeepsConsistent(w, a.pid);
    } else {
      OtherActionFrame(w, a);
      if w' != w {
        if a.Mutate? { MutateIsHonest(w, a.pid, a.calls); } else { OwnPhaseOk(w, a); }
        OthersKeepPhase(w, w', a.pid);
      }
    }
  }

  /** No lost update, for any number of processes, any interleaving and any crashes. */
  lemma {:induction false} NoLostUpdate(actions: seq<Action>)
    ensures Consistent(RunAll(Empty(), actions))
  {
    if actions != [] {
      NoLostUpdate(actions[..|actions| - 1]);
      NextKeepsConsistent(RunAll(Empty(), actions[..|actions| - 1]), actions[|actions| - 1]);
    }
  }

  // ---------------------------------------------------------------- when saves go on

  // The lock file is there, and the process that created it will not remove it any more.
  ghost predicate Orphaned(w: World) {
    w.lock.Some? && !Holding(PhaseOf(w, w.lock.value))
  }

  lemma OnlyHoldersTouch(w: World, a: Action)
    requires PhaseOk(w, a.pid) && !Holding(PhaseOf(w, a.pid)) && w.lock.Some?
    ensures var w' := Next(w, a);
            w'.file == w.file && w'.history == w.history && w'.lock == w.lock && !Holding(PhaseOf(w', a.pid))
  {
  }

  lemma OrphanedLockStays(w: World, a: Action)
    requires PhaseOk(w, a.pid) && Orphaned(w)
    ensures var w' := Next(w, a); w'.file == w.file && w'.history == w.history && Orphaned(w')
  {
    OnlyHoldersTouch(w, a);
  }

  /** An orphaned lock blocks every later save: nothing in the protocol removes a lock created by somebody else. */
  lemma {:induction false} OrphanedLockFreezesTheFile(w: World, actions: seq<Action>)
    requires Consistent(w) && Orphaned(w)
    ensures var w' := RunAll(w, actions);
            Consistent(w') && Orphaned(w') && w'.file == w.file && w'.history == w.history
  {
    if actions != [] {
      var w1 := RunAll(w, actions[..|actions| - 1]);
      OrphanedLockFreezesTheFile(w, actions[..|actions| - 1]);
      NextKeepsConsistent(w1, actions[|actions| - 1]);
      OrphanedLockStays(w1, actions[|actions| - 1]);
    }
  }

  lemma RunStep(w: World, actions: seq<Action>, n: nat)
    requires n < |actions|
    ensures RunAll(w, actions[..n + 1]) == Next(RunAll(w, actions[..n]), actions[n])
  {
    assert actions[..n + 1][..n] == actions[..n];
  }

  lemma {:induction false} RunThen(w: World, first: seq<Action>, second: seq<Action>)
    ensures RunAll(w, first + second) == RunAll(RunAll(w, first), second)
    decreases |second|
  {
    if second == [] {
      assert first + second == first;
    } else {
      RunThen(w, first, second[..|second| - 1]);
      assert (first + second)[..|first + second| - 1] == first + second[..|second| - 1];
    }
  }

  // What the holder of the lock still has to do, from wherever it is.
  function Drain(pid: Pid): seq<Action> {
    [CheckCurrent(pid), WriteTemporary(pid), Rename(pid), Release(pid)]
  }

  function FourSteps(w: World, a: Action, b: Action, c: Action, d: Action): World {
    Next(Next(Next(Next(w, a), b), c), d)
  }

  lemma RunFourSteps(w: World, actions: seq<Action>)
    requires |actions| >= 4
    ensures var n := |actions| - 4;
            RunAll(w, actions) == FourSteps(RunAll(w, actions[..n]), actions[n], actions[n + 1], actions[n + 2], actions[n + 3])
  {
    var n := |actions| - 4;
    assert actions[..n + 4] == actions;
    RunStep(w, actions, n);
    RunStep(w, actions, n + 1);
    RunStep(w, actions, n + 2);
    RunStep(w, actions, n + 3);
  }

  lemma DrainReleases(w: World, pid: Pid)
    requires Holding(PhaseOf(w, pid))
    ensures var w' := RunAll(w, Drain(pid));
            w'.lock == None && w.history <= w'.history && w'.phases.Keys == w.phases.Keys
  {
    var w1 := Next(w, CheckCurrent(pid));
    var w2 := Next(w1, WriteTemporary(pid));
    assert PhaseOf(w2, pid).TempWritten? || PhaseOf(w2, pid).Releasing?;
    RunFourSteps(w, Drain(pid));
  }

  // A process that starts now: it creates the file, or loads it and saves what it loaded.
  function SaveBy(pid: Pid, saved: bool): seq<Action> {
    (if saved then [Load(pid), Mutate(pid, [])] else [Create(pid, 0)])
    + [AcquireLock(pid), CheckCurrent(pid), WriteTemporary(pid), Rename(pid)]
  }

  lemma SaveReady(w: World, pid: Pid)
    requires PhaseOf(w, pid).Ready?
    ensures var w' := if w.file.Some? then Next(Next(w, Load(pid)), Mutate(pid, [])) else Next(w, Create(pid, 0));
            && w'.lock == w.lock && w'.file == w.file && w'.history == w.history
            && PhaseOf(w', pid).Saving? && Accepts(w.file, PhaseOf(w', pid).save)
  {
  }

  lemma SaveWrites(w: World, pid: Pid)
    requires w.lock == None && PhaseOf(w, pid).Saving? && Accepts(w.file, PhaseOf(w, pid).save)
    ensures |FourSteps(w, AcquireLock(pid), CheckCurrent(pid), WriteTemporary(pid), Rename(pid)).history| == |w.history| + 1
  {
    var w1 := Next(w, AcquireLock(pid));
    assert PhaseOf(w1, pid) == Locked(PhaseOf(w, pid).save);
    var w2 := Next(w1, CheckCurrent(pid));
    assert PhaseOf(w2, pid) == Checked(PhaseOf(w, pid).save);
  }

  lemma SaveStarts(w: World, pid: Pid)
    ensures var s := SaveBy(pid, w.file.Some?);
            RunAll(w, s[..|s| - 4]) == if w.file.Some? then Next(Next(w, Load(pid)), Mutate(pid, [])) else Next(w, Create(pid, 0))
  {
    var s := SaveBy(pid, w.file.Some?);
    RunStep(w, s, 0);
    RunStep(w, s, 1);
  }

  lemma SaveGoesThrough(w: World, pid: Pid)
    requires w.lock == None && PhaseOf(w, pid).Ready?
    ensures |RunAll(w, SaveBy(pid, w.file.Some?)).history| == |w.history| + 1
  {
    var s := SaveBy(pid, w.file.Some?);
    SaveStarts(w, pid);
    SaveReady(w, pid);
    SaveWrites(RunAll(w, s[..|s| - 4]), pid);
    RunFourSteps(w, s);
  }

  lemma UnlockedGoesOn(w: World) returns (more: seq<Action>)
    requires Consistent(w) && !Orphaned(w)
    ensures |RunAll(w, more).history| > |w.history|
  {
    var pid := Unused(w.phases.Keys);
    if w.lock.None? {
      SaveGoesThrough(w, pid);
      more := SaveBy(pid, w.file.Some?);
    } else {
      var holder := w.lock.value;
      var w1 := RunAll(w, Drain(holder));
      DrainReleases(w, holder);
      SaveGoesThrough(w1, pid);
      RunThen(w, Drain(holder), SaveBy(pid, w1.file.Some?));
      more := Drain(holder) + SaveBy(pid, w1.file.Some?);
    }
  }

  /** In every reachable world, whatever crashed or failed so far: some continuation saves again if and only if
      the lock is not orphaned. */
  lemma SavesGoOnIff(actions: seq<Action>)
    ensures var w := RunAll(Empty(), actions);
            (exists more :: |RunAll(w, more).history| > |w.history|) <==> !Orphaned(w)
  {
    var w := RunAll(Empty(), actions);
    NoLostUpdate(actions);
    if Orphaned(w) {
      forall more ensures RunAll(w, more).history == w.history { OrphanedLockFreezesTheFile(w, more); }
    } else {
      var more := UnlockedGoesOn(w);
    }
  }

  // What the save was computed from is still there: nothing for a new file, or the same revision.
  predicate IsCurrent(file: Option<State>, save: Save) {
    if save.createOnly then file.None? else file.Some? && save.expectedRevision == Some(file.value.revision)
  }

  lemma SameRunId(w: World, pid: Pid)
    requires Consistent(w) && PhaseOf(w, pid).Saving?
    ensures Accepts(w.file, PhaseOf(w, pid).save) <==> IsCurrent(w.file, PhaseOf(w, pid).save)
  {
    assert PhaseOk(w, pid);
    var save := PhaseOf(w, pid).save;
    if !save.createOnly {
      var base :| base in w.history && Derives(base, save.next) && save.expectedRevision == Some(base.revision);
      var i :| 0 <= i < |w.history| && w.history[i] == base;
      DerivedFacts(base, save.next);
      assert w.history[|w.history| - 1].runId == base.runId;
    }
  }

  lemma SaveSteps(w: World, pid: Pid)
    requires w.lock == None && PhaseOf(w, pid).Saving?
    ensures var w' := Next(FourSteps(w, AcquireLock(pid), CheckCurrent(pid), WriteTemporary(pid), Rename(pid)), Release(pid));
            var save := PhaseOf(w, pid).save;
            && w'.lock.None? && PhaseOf(w', pid).Finished?
            && (if Accepts(w.file, save) then w'.file == Some(save.next) && w'.history == w.history + [save.next]
                else w'.file == w.file && w'.history == w.history)
  {
    var save := PhaseOf(w, pid).save;
    var w1 := Next(w, AcquireLock(pid));
    assert PhaseOf(w1, pid) == Locked(save);
    var w2 := Next(w1, CheckCurrent(pid));
    assert PhaseOf(w2, pid) == if Accepts(w.file, save) then Checked(save) else Releasing;
  }

  /** In every reachable world, a save nobody disturbs puts its state into the file exactly if the file is still at the
      revision it was computed from, or is not there yet for a new one; otherwise the file stays. Either way the lock
      is gone afterwards. */
  lemma SaveWritesIff(actions: seq<Action>, pid: Pid)
    requires var w := RunAll(Empty(), actions); w.lock == None && PhaseOf(w, pid).Saving?
    ensures var w := RunAll(Empty(), actions);
            var w' := Next(FourSteps(w, AcquireLock(pid), CheckCurrent(pid), WriteTemporary(pid), Rename(pid)), Release(pid));
            var save := PhaseOf(w, pid).save;
            && w'.lock.None?
            && (if IsCurrent(w.file, save) then w'.file == Some(save.next) && w'.history == w.history + [save.next]
                else w'.file == w.file && w'.history == w.history)
  {
    NoLostUpdate(actions);
    SameRunId(RunAll(Empty(), actions), pid);
    SaveSteps(RunAll(Empty(), actions), pid);
  }

  /** In every run, the lock is orphaned by exactly two steps of the process that holds it: a crash, and a failure to
      remove the file. */
  lemma OrphansIff(actions: seq<Action>, a: Action)
    requires !Orphaned(RunAll(Empty(), actions))
    ensures Orphaned(Next(RunAll(Empty(), actions), a)) <==>
              && Holding(PhaseOf(RunAll(Empty(), actions), a.pid))
              && (a.Crash? || (a.FailToUnlink? && PhaseOf(RunAll(Empty(), actions), a.pid).Releasing?))
  {
    NoLostUpdate(actions);
    OrphanStep(RunAll(Empty(), actions), a);
  }

  lemma OrphanStep(w: World, a: Action)
    requires PhaseOk(w, a.pid) && !Orphaned(w)
    ensures Orphaned(Next(w, a)) <==> Holding(PhaseOf(w, a.pid)) && (a.Crash? || (a.FailToUnlink? && PhaseOf(w, a.pid).Releasing?))
  {
  }

  /** Both ways of orphaning the lock happen: a crash under the lock, and a swallowed error of removing it. */
  lemma OrphanedLockHappens()
    ensures Orphaned(RunAll(Empty(), [Create(0, 7), AcquireLock(0), Crash(0)]))
    ensures Orphaned(RunAll(Empty(), [Create(0, 7), AcquireLock(0), Fail(0), FailToUnlink(0)]))
  {
    var a := [Create(0, 7), AcquireLock(0), Crash(0)];
    var b := [Create(0, 7), AcquireLock(0), Fail(0), FailToUnlink(0)];
    assert a[..3] == a && b[..4] == b;
    RunStep(Empty(), a, 0);
    RunStep(Empty(), a, 1);
    RunStep(Empty(), a, 2);
    RunStep(Empty(), b, 0);
    RunStep(Empty(), b, 1);
    RunStep(Empty(), b, 2);
    RunStep(Empty(), b, 3);
  }
}
