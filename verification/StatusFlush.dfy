/** The status file of one run: the flush task that rewrites it, the run owner
    that stops the task and then removes the file, the blocking pool that carries
    out saves, and other processes sharing the state directory.

    A save handed to the blocking pool runs to its end whatever happens to the task
    awaiting it: aborting the task does not recall the save. */
module StatusFlush {
  import opened Common

  /** A rendered observation; only equality matters. */
  type Observation = nat

  datatype File =
    | Absent
    | Mine(obs: Observation)            // carries this process's pid
    | Theirs(obs: Observation)

  datatype Job =
    | NoJob
    | Running(obs: Observation)
    | Done(obs: Observation, ok: bool)  // result not yet collected

  datatype Task = Unborn | Selecting | Rendering | Saving | Exited | Panicked | Aborted

  datatype Owner =
    | Seeding                           // before and during the initial write
    | Serving
    | Joining                           // stop sent, waiting up to the bound
    | Aborting                          // bound passed, abort sent
    | Reported(quiesced: bool)
    | Checked(own: bool)                // pid of the file read
    | Finished

  /** `published` lists this run's saves that reached the file, in order. `foreign`
      says another process was the last to write or remove the file. */
  datatype State = State(
    task: Task,
    job: Job,
    last: Option<Observation>,
    owner: Owner,
    file: File,
    published: seq<Observation>,
    rendered: Option<Observation>,
    failed: bool,                       // the latest save was reported as failed
    foreign: bool,
    clean: bool,                        // the join ended well, or no task ever ran
    removed: bool)

  function Initial(file: File): State {
    State(Unborn, NoJob, None, Seeding, file, [], None, false, true, false, false)
  }

  datatype Action =
    | NoFlush                           // no sink, or the body failed before the first save
    | Seed(obs: Observation)
    | JobEnds(ok: bool)
    | SeedCollected
    | Tick
    | Render(obs: Observation)
    | Collect
    | SeeStop
    | Panic
    | SendStop
    | JoinOk
    | JoinTimesOut
    | AbortLands
    | AbortJoined
    | CheckPid
    | Remove(works: bool)
    | OtherSaves(obs: Observation)
    | OtherRemoves

  predicate Ended(t: Task) {
    t == Exited || t == Panicked || t == Aborted
  }

  predicate Awaiting(t: Task) {
    t == Selecting || t == Rendering || t == Saving
  }

  predicate Enabled(s: State, a: Action) {
    match a
    case NoFlush => s.owner == Seeding && s.job == NoJob
    case Seed(_) => s.owner == Seeding && s.job == NoJob
    case JobEnds(_) => s.job.Running?
    case SeedCollected => s.owner == Seeding && s.job.Done?
    case Tick => s.task == Selecting && s.owner == Serving     // biased: a sent stop wins
    case Render(_) => s.task == Rendering
    case Collect => s.task == Saving && s.job.Done?
    case SeeStop => s.task == Selecting && s.owner != Serving
    case Panic => Awaiting(s.task)
    case SendStop => s.owner == Serving
    case JoinOk => s.owner == Joining && Ended(s.task)
    case JoinTimesOut => s.owner == Joining && !Ended(s.task)
    case AbortLands => s.owner == Aborting && Awaiting(s.task)
    case AbortJoined => s.owner == Aborting && Ended(s.task)
    case CheckPid => s.owner.Reported?
    case Remove(_) => s.owner.Checked?
    case OtherSaves(_) => true
    case OtherRemoves => true
  }

  function Apply(s: State, a: Action): State
    requires Enabled(s, a)
  {
    match a
    case NoFlush => s.(owner := Reported(true), clean := true)
    case Seed(obs) => s.(job := Running(obs), rendered := Some(obs))
    case JobEnds(ok) =>
      var t := s.(job := Done(s.job.obs, ok));
      if ok then t.(file := Mine(s.job.obs), published := s.published + [s.job.obs], foreign := false) else t
    case SeedCollected => Collected(s).(owner := Serving)
    case Tick => s.(task := Rendering)
    case Render(obs) =>
      if s.last == Some(obs) then s.(task := Selecting, rendered := Some(obs), failed := false)
      else s.(task := Saving, job := Running(obs), rendered := Some(obs))
    case Collect => Collected(s)
    case SeeStop => s.(task := Exited)
    case Panic => s.(task := Panicked)
    case SendStop => s.(owner := Joining)
    case JoinOk => s.(owner := Reported(s.task == Exited), clean := s.task == Exited)
    case JoinTimesOut => s.(owner := Aborting)
    case AbortLands => s.(task := Aborted)
    case AbortJoined => s.(owner := Reported(false))
    case CheckPid => if s.owner.quiesced then s.(owner := Checked(s.file.Mine?)) else s.(owner := Finished)
    case Remove(works) =>
      var t := s.(owner := Finished);
      if s.owner.own && works then t.(file := Absent, removed := true) else t
    case OtherSaves(obs) => s.(file := Theirs(obs), foreign := true)
    case OtherRemoves => s.(file := Absent, foreign := true)
  }

  /** Whoever awaited the save reads its result: only a success is remembered. */
  function Collected(s: State): State
    requires s.job.Done?
  {
    s.(task := Selecting, job := NoJob, failed := !s.job.ok,
       last := if s.job.ok then Some(s.job.obs) else s.last)
  }

  function After(initial: File, actions: seq<Action>): Option<State> {
    if actions == [] then Some(Initial(initial))
    else
      match After(initial, actions[..|actions| - 1])
      case None => None
      case Some(s) =>
        var a := actions[|actions| - 1];
        if Enabled(s, a) then Some(Apply(s, a)) else None
  }

  // -------------------------------------------------------------- invariant

  function LastOf(obs: seq<Observation>): Option<Observation> {
    if obs == [] then None else Some(obs[|obs| - 1])
  }

  ghost predicate Differ(obs: seq<Observation>) {
    forall i, j :: 0 <= i < j < |obs| && j == i + 1 ==> obs[i] != obs[j]
  }

  /** A running save is awaited by the owner, by the task, or by nobody; in the
      last case the task panicked or was aborted. */
  predicate JobOk(s: State) {
    && (s.owner == Seeding ==> s.task == Unborn)
    && (s.task == Unborn ==> s.owner == Seeding || s.clean)
    && (s.task == Unborn && s.job == NoJob ==> s.published == [])
    && (s.task == Unborn && s.owner != Seeding ==> s.job == NoJob)
    && (s.task == Selecting || s.task == Rendering || s.task == Exited ==> s.job == NoJob)
    && (s.task == Saving ==> s.job != NoJob)
  }

  predicate OwnerOk(s: State) {
    && (s.owner == Joining || s.owner == Aborting || s.owner == Serving ==> s.task != Unborn && !s.clean)
    && (s.owner == Seeding ==> !s.clean)
    && (s.owner.Reported? ==> s.clean == s.owner.quiesced)
    && (s.owner.Checked? ==> s.clean)
    && (s.clean ==> s.task == Exited || s.task == Unborn)
    && (s.owner.Reported? || s.owner.Checked? || s.owner == Finished ==> Ended(s.task) || s.clean)
    && (s.removed ==> s.owner == Finished && s.clean)
  }

  ghost predicate PublishedOk(s: State) {
    && Differ(s.published)
    && (s.job == NoJob ==> s.last == LastOf(s.published))
    && (s.job.Running? ==> s.last == LastOf(s.published) && s.last != Some(s.job.obs) && s.rendered == Some(s.job.obs))
    && (s.job.Done? ==> s.rendered == Some(s.job.obs))
    && (s.job.Done? && s.job.ok ==> LastOf(s.published) == Some(s.job.obs))
    && (s.job.Done? && !s.job.ok ==> s.last == LastOf(s.published))
    && (s.task == Selecting && !s.failed ==> s.last == s.rendered && s.rendered.Some?)
  }

  predicate FileOk(s: State) {
    && (s.published == [] ==> s.foreign)
    && (!s.foreign && !s.removed ==> s.file == Mine(s.published[|s.published| - 1]))
    && (s.removed ==> !s.file.Mine?)
  }

  ghost predicate Inv(s: State) {
    JobOk(s) && OwnerOk(s) && PublishedOk(s) && FileOk(s)
  }

  /** Handing over a save that succeeded keeps consecutive ones different. */
  lemma JobEndsKeeps(s: State, ok: bool)
    requires Inv(s) && Enabled(s, JobEnds(ok))
    ensures Inv(Apply(s, JobEnds(ok)))
  {
    var t := Apply(s, JobEnds(ok));
    assert !s.clean;
    assert Differ(t.published) by {
      forall i, j | 0 <= i < j < |t.published| && j == i + 1 ensures t.published[i] != t.published[j] {
        if j == |s.published| {
          assert s.last == Some(s.published[i]);
        }
      }
    }
  }

  predicate OfTask(a: Action) {
    a.Tick? || a.Render? || a.Collect? || a.SeeStop? || a.Panic? || a.AbortLands?
  }

  lemma TaskStepKeeps(s: State, a: Action)
    requires Inv(s) && Enabled(s, a) && OfTask(a)
    ensures Inv(Apply(s, a)) && Apply(s, a).removed == s.removed
  {
    match a {
      case Tick =>
      case Render(_) =>
      case Collect =>
      case SeeStop =>
      case Panic =>
      case AbortLands =>
    }
  }

  lemma OwnerStepKeeps(s: State, a: Action)
    requires Inv(s) && Enabled(s, a) && !OfTask(a) && !a.JobEnds?
    ensures Inv(Apply(s, a))
    ensures s.removed ==> Apply(s, a).removed
  {
    match a {
      case NoFlush =>
      case Seed(_) =>
      case SeedCollected =>
      case SendStop =>
      case JoinOk =>
      case JoinTimesOut =>
      case AbortJoined =>
      case CheckPid =>
      case Remove(_) =>
      case OtherSaves(_) =>
      case OtherRemoves =>
    }
  }

  lemma StepKeeps(s: State, a: Action)
    requires Inv(s) && Enabled(s, a)
    ensures Inv(Apply(s, a))
    ensures s.removed ==> Apply(s, a).removed
  {
    if a.JobEnds? {
      JobEndsKeeps(s, a.ok);
    } else if OfTask(a) {
      TaskStepKeeps(s, a);
    } else {
      OwnerStepKeeps(s, a);
    }
  }

  lemma {:induction false} RunKeeps(initial: File, actions: seq<Action>)
    requires After(initial, actions).Some?
    ensures Inv(After(initial, actions).value)
  {
    if actions != [] {
      var before := actions[..|actions| - 1];
      RunKeeps(initial, before);
      StepKeeps(After(initial, before).value, actions[|actions| - 1]);
    }
  }

  /** A later state of a run that removed its file has removed it too. */
  lemma {:induction false} RemovalIsRemembered(initial: File, actions: seq<Action>, more: seq<Action>)
    requires After(initial, actions).Some? && After(initial, actions).value.removed
    requires After(initial, actions + more).Some?
    ensures After(initial, actions + more).value.removed
  {
    if more == [] {
      assert actions + more == actions;
    } else {
      var all := actions + more;
      var before := all[..|all| - 1];
      assert before == actions + more[..|more| - 1];
      RemovalIsRemembered(initial, actions, more[..|more| - 1]);
      RunKeeps(initial, before);
      StepKeeps(After(initial, before).value, all[|all| - 1]);
    }
  }

  // --------------------------------------------------------------- theorems

  /** Once the owner has removed the status file, no save of this run is in flight,
      none is ever started again, and the file never comes back as this run's. */
  lemma {:induction false} RemovedStaysRemoved(initial: File, actions: seq<Action>, more: seq<Action>)
    requires After(initial, actions).Some? && After(initial, actions).value.removed
    requires After(initial, actions + more).Some?
    ensures
      var t := After(initial, actions + more).value;
      t.job == NoJob && !t.file.Mine? && (t.task == Exited || t.task == Unborn)
  {
    RemovalIsRemembered(initial, actions, more);
    RunKeeps(initial, actions + more);
  }

  /** The owner removes the file only after the task left its loop by itself
      within the bound; in particular a timed-out or panicked task keeps it. */
  lemma {:induction false} RemovedOnlyWhenQuiesced(initial: File, actions: seq<Action>)
    requires After(initial, actions).Some?
    ensures
      var s := After(initial, actions).value;
      && (s.removed ==> s.clean)
      && (s.owner.Checked? ==> s.clean && s.job == NoJob)
      && (s.task == Aborted || s.task == Panicked ==> !s.removed && !s.owner.Checked?)
  {
    RunKeeps(initial, actions);
  }

  /** Two successive saves of a run never write the same observation. */
  lemma {:induction false} SuccessiveSavesDiffer(initial: File, actions: seq<Action>, i: nat)
    requires After(initial, actions).Some?
    requires i + 1 < |After(initial, actions).value.published|
    ensures After(initial, actions).value.published[i] != After(initial, actions).value.published[i + 1]
  {
    RunKeeps(initial, actions);
  }

  /** Back at its select without a failed save, the task has published what it
      last rendered, and that is what the file holds unless another process
      touched it. */
  lemma {:induction false} PublishedIsRendered(initial: File, actions: seq<Action>)
    requires After(initial, actions).Some?
    requires After(initial, actions).value.task == Selecting && !After(initial, actions).value.failed
    ensures
      var s := After(initial, actions).value;
      && s.rendered.Some?
      && LastOf(s.published) == s.last == s.rendered
      && (!s.foreign ==> s.file == Mine(s.rendered.value))
  {
    RunKeeps(initial, actions);
    SelectingHasPublished(After(initial, actions).value);
  }

  lemma SelectingHasPublished(s: State)
    requires JobOk(s) && OwnerOk(s) && PublishedOk(s) && FileOk(s) && s.task == Selecting && !s.failed
    ensures s.rendered.Some? && LastOf(s.published) == s.last == s.rendered
    ensures !s.foreign ==> s.file == Mine(s.rendered.value)
  {
    assert !s.removed;
  }

  /** Step `i` is another process's save, and neither a pid check of ours nor a
      removal of theirs comes after it. */
  ghost predicate SavedLast(actions: seq<Action>, i: nat) {
    && i < |actions| && actions[i].OtherSaves?
    && forall j :: i < j < |actions| ==> !actions[j].CheckPid? && !actions[j].OtherRemoves?
  }

  ghost predicate SavedSinceCheck(actions: seq<Action>) {
    exists i :: SavedLast(actions, i)
  }

  /** How one more step bears on it. */
  lemma SavedSinceCheckStep(actions: seq<Action>)
    requires actions != []
    ensures
      var before, a := actions[..|actions| - 1], actions[|actions| - 1];
      SavedSinceCheck(actions) <==> a.OtherSaves? || (!a.CheckPid? && !a.OtherRemoves? && SavedSinceCheck(before))
  {
    var before, n := actions[..|actions| - 1], |actions| - 1;
    if actions[n].OtherSaves? {
      assert SavedLast(actions, n);
    }
    if i: nat :| SavedLast(before, i) {
      if !actions[n].CheckPid? && !actions[n].OtherRemoves? {
        forall j | i < j < |actions| ensures !actions[j].CheckPid? && !actions[j].OtherRemoves? {
          assert j < n ==> before[j] == actions[j];
        }
        assert SavedLast(actions, i);
      }
    }
    if i: nat :| SavedLast(actions, i) {
      if i < n {
        forall j | i < j < n ensures !before[j].CheckPid? && !before[j].OtherRemoves? {
          assert before[j] == actions[j];
        }
        assert SavedLast(before, i);
      }
    }
  }

  /** Between the check and the removal only others change the file. */
  lemma CheckedStep(s: State, a: Action)
    requires JobOk(s) && OwnerOk(s) && Enabled(s, a) && Apply(s, a).owner == Checked(true)
    ensures if a.CheckPid? then Apply(s, a).file.Mine?
            else s.owner == Checked(true) &&
                 (if a.OtherSaves? then Apply(s, a).file.Theirs?
                  else if a.OtherRemoves? then Apply(s, a).file == Absent
                  else Apply(s, a).file == s.file)
  {
  }

  /** After the pid check has found the file to be this process's own, what is there to
      remove belongs to another process exactly when that process saved after the
      check and did not remove its file again. */
  lemma {:induction false} RemovalIsOwnUnlessRaced(initial: File, actions: seq<Action>)
    requires After(initial, actions).Some?
    requires After(initial, actions).value.owner == Checked(true)
    ensures After(initial, actions).value.file.Theirs? <==> SavedSinceCheck(actions)
  {
    var before, a := actions[..|actions| - 1], actions[|actions| - 1];
    SavedSinceCheckStep(actions);
    RunKeeps(initial, before);
    CheckedStep(After(initial, before).value, a);
    if !a.CheckPid? {
      RemovalIsOwnUnlessRaced(initial, before);
    }
  }

  // ---------------------------------------------------------- concrete runs

  lemma Extend(initial: File, actions: seq<Action>, s: State, a: Action) returns (longer: seq<Action>, t: State)
    requires After(initial, actions) == Some(s) && Enabled(s, a)
    ensures t == Apply(s, a) && After(initial, longer) == Some(t)
  {
    longer := actions + [a];
    t := Apply(s, a);
    assert longer[..|longer| - 1] == actions;
  }

  /** Up to a first save, whose result has been collected. */
  lemma ServingRun(ok: bool) returns (run: seq<Action>, s: State)
    ensures After(Absent, run) == Some(s)
    ensures s == State(Selecting, NoJob, if ok then Some(0) else None, Serving, if ok then Mine(0) else Absent,
                       if ok then [0] else [], Some(0), !ok, !ok, false, false)
  {
    run, s := Extend(Absent, [], Initial(Absent), Seed(0));
    run, s := Extend(Absent, run, s, JobEnds(ok));
    run, s := Extend(Absent, run, s, SeedCollected);
  }

  /** Why an aborted task keeps the file: the owner is done, the file is absent, and
      a save still running brings it back. */
  lemma SaveLandsAfterTimeout() returns (run: seq<Action>, s: State)
    ensures After(Absent, run) == Some(s)
    ensures s.owner == Finished && s.file == Absent && Enabled(s, JobEnds(true)) && Apply(s, JobEnds(true)).file == Mine(1)
  {
    run, s := ServingRun(false);
    run, s := Extend(Absent, run, s, Tick);
    run, s := Extend(Absent, run, s, Render(1));
    run, s := Extend(Absent, run, s, SendStop);
    run, s := Extend(Absent, run, s, JoinTimesOut);
    run, s := Extend(Absent, run, s, AbortLands);
    run, s := Extend(Absent, run, s, AbortJoined);
    run, s := Extend(Absent, run, s, CheckPid);
  }

  /** Reading the pid and removing the file are two steps, so a co-resident
      process that saves between them loses its file. */
  lemma RacedRemovalDropsForeignFile() returns (run: seq<Action>, s: State)
    ensures After(Absent, run) == Some(s)
    ensures s.file == Theirs(7) && Enabled(s, Remove(true)) && Apply(s, Remove(true)).file == Absent
  {
    run, s := ServingRun(true);
    run, s := Extend(Absent, run, s, SendStop);
    run, s := Extend(Absent, run, s, SeeStop);
    run, s := Extend(Absent, run, s, JoinOk);
    run, s := Extend(Absent, run, s, CheckPid);
    run, s := Extend(Absent, run, s, OtherSaves(7));
  }
}
