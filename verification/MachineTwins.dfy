/** Twins of different users: two processes in different roles with one public identity
    and no user directory in common. What each can see of the other on the machine
    tier, for every run: when they can run side by side, and exactly when not. */
module MachineTwins {
  import opened Common
  import opened Ownership

  // ------------------------------------------------- what stays once written

  /** Once a process has made its machine tier access, that access is settled, it gains
      no hold any more, and it only moves on. */
  predicate Later(x: Proc, y: Proc) {
    && SameStart(x, y) && y.can == x.can
    && y.log.putMachine == x.log.putMachine
    && Rank(x.at) <= Rank(y.at)
    && (y.machine == Some(Exclusive) ==> x.machine == Some(Exclusive))
  }

  lemma PublishGoesOn(s: State, p: nat, ok: bool)
    requires p < |s.procs| && 6 <= Rank(s.procs[p].at) < 13
    ensures |NextPublish(s, p, ok).procs| == |s.procs| && Later(s.procs[p], NextPublish(s, p, ok).procs[p])
  {
    match s.procs[p].at {
      case ProbeUser =>
      case HoldingUserProbe =>
      case ReadUser =>
      case ProbeMachine =>
      case HoldingMachineProbe =>
      case ReadMachine =>
      case Decide =>
    }
  }

  lemma DropRanks(s: State, p: nat, ok: bool)
    requires p < |s.procs| && 13 < Rank(s.procs[p].at) < 20
    ensures |NextDrop(s, p, ok).procs| == |s.procs|
    ensures Rank(s.procs[p].at) <= Rank(NextDrop(s, p, ok).procs[p].at)
  {
    match s.procs[p].at {
      case DropUser =>
      case RemoveUser =>
      case DropMachine =>
      case RemoveMachine =>
      case ReleaseUser =>
      case ReleaseMachine =>
    }
  }

  lemma DropKeepsFields(s: State, p: nat, ok: bool)
    requires p < |s.procs| && 13 < Rank(s.procs[p].at) < 20
    ensures var t := NextDrop(s, p, ok);
            && |t.procs| == |s.procs|
            && var x, y := s.procs[p], t.procs[p];
               && SameStart(x, y) && y.can == x.can && y.log == x.log && y.seenMachine == x.seenMachine
               && (y.machine == Some(Exclusive) ==> x.machine == Some(Exclusive))
  {
    match s.procs[p].at {
      case DropUser =>
      case RemoveUser =>
      case DropMachine =>
      case RemoveMachine =>
      case ReleaseUser =>
      case ReleaseMachine =>
    }
  }

  lemma ClaimKeepsFields(s: State, p: nat, ok: bool)
    requires p < |s.procs| && Rank(s.procs[p].at) < 4
    ensures var t := NextClaim(s, p, ok);
            && |t.procs| == |s.procs|
            && var x, y := s.procs[p], t.procs[p];
               SameStart(x, y) && y.can == x.can && y.log == x.log && y.seenMachine == x.seenMachine
  {
    match s.procs[p].at {
      case ClaimingUser(_) =>
      case ClaimingMachine(_) =>
      case RecordUser =>
      case RecordMachine =>
    }
  }

  /** A step of one process is a step of that process only. */
  lemma NextMovesOne(s: State, p: nat, ok: bool)
    requires p < |s.procs|
    ensures |Next(s, p, ok).procs| == |s.procs| && Next(s, p, ok).procs == s.procs[p := Next(s, p, ok).procs[p]]
  {
    match s.procs[p].at {
      case ClaimingUser(_) =>
      case ClaimingMachine(_) =>
      case _ =>
    }
  }

  /** The process a step moves, if it moves one. */
  predicate MovesProc(a: Action, p: nat) {
    match a
    case Start(_, _, _, _, _) => false
    case StartOutsider(_) => false
    case _ => a.p == p
  }

  lemma OthersStay(s: State, a: Action, q: nat)
    requires Enabled(s, a) && q < |s.procs| && !MovesProc(a, q)
    ensures q < |Apply(s, a).procs| && Apply(s, a).procs[q] == s.procs[q]
  {
    if a.Step? {
      NextMovesOne(s, a.p, a.ok);
    }
  }

  lemma StepGoesOn(s: State, a: Action, p: nat)
    requires Enabled(s, a) && p < |s.procs| && 6 <= Rank(s.procs[p].at)
    ensures p < |Apply(s, a).procs| && Later(s.procs[p], Apply(s, a).procs[p])
  {
    if !MovesProc(a, p) {
      OthersStay(s, a, p);
    } else if a.Step? {
      if Rank(s.procs[p].at) < 13 {
        PublishGoesOn(s, p, a.ok);
      } else {
        DropRanks(s, p, a.ok);
        DropKeepsFields(s, p, a.ok);
      }
    }
  }

  // ----------------------------------------------------- looking after the fact

  /** It has looked on the machine tier, and nothing there spoke against it. */
  predicate FoundNobody(x: Proc) {
    Looked(x.log.gotMachine) && !Conflicts(x.seenMachine, x.node)
  }

  /** The holder's record, as long as it is there, keeps the twin from passing. */
  predicate HiddenFrom(holder: Proc, twin: Proc) {
    OnMachineRecord(holder) && MachineRivals(twin, holder) && twin.can != NoMachineTier ==> !FoundNobody(twin)
  }

  ghost predicate Blocked(s: State, p: nat, q: nat) {
    && p < |s.procs| && s.procs[p].log.putMachine == Done && 6 <= Rank(s.procs[p].at)
    && (q < |s.procs| ==> HiddenFrom(s.procs[p], s.procs[q]))
  }

  /** It comes to have found nobody only by a step that looks on the machine tier. */
  lemma FindsByLooking(s: State, q: nat, ok: bool)
    requires q < |s.procs| && ProcOk(s.procs[q]) && 4 <= Rank(s.procs[q].at) < 13
    ensures var x, y := s.procs[q], NextPublish(s, q, ok).procs[q];
            && SameStart(x, y) && y.can == x.can
            && (FoundNobody(y) && !FoundNobody(x) ==>
                  || (x.at == ProbeMachine && y.at != ReadMachine)
                  || (x.at == ReadMachine && ok && !Conflicts(y.seenMachine, x.node)))
  {
    match s.procs[q].at {
      case Claimed =>
      case PublishMachine =>
      case ProbeUser =>
      case HoldingUserProbe =>
      case ReadUser =>
      case ProbeMachine =>
      case HoldingMachineProbe =>
      case ReadMachine =>
      case Decide =>
    }
  }

  lemma TwinStepBlocked(s: State, a: Action, p: nat, q: nat)
    requires Inv(s) && Enabled(s, a) && Blocked(s, p, q) && p != q && q < |s.procs| && MovesProc(a, q)
    ensures Blocked(Apply(s, a), p, q)
  {
    OthersStay(s, a, p);
    assert ProcOk(s.procs[q]);
    var x, y := s.procs[q], s.procs[p];
    if a.Step? {
      NextMovesOne(s, q, a.ok);
      if Rank(x.at) < 4 {
        ClaimKeepsFields(s, q, a.ok);
      } else if Rank(x.at) < 13 {
        FindsByLooking(s, q, a.ok);
        if OnMachineRecord(y) && MachineRivals(x, y) && x.can != NoMachineTier {
          MachineTierFindsRival(s, q, p, a.ok);
        }
      } else {
        DropKeepsFields(s, q, a.ok);
      }
    }
  }

  lemma HolderStepBlocked(s: State, a: Action, p: nat, q: nat)
    requires Inv(s) && Enabled(s, a) && Blocked(s, p, q) && p != q && !MovesProc(a, q)
    ensures Blocked(Apply(s, a), p, q)
  {
    StepGoesOn(s, a, p);
    if q < |s.procs| {
      OthersStay(s, a, q);
    } else if q < |Apply(s, a).procs| {
      NewProcUndone(s, a, q);
    }
  }

  lemma NewProcUndone(s: State, a: Action, q: nat)
    requires Enabled(s, a) && |s.procs| <= q < |Apply(s, a).procs|
    ensures Apply(s, a).procs[q].log == NO_ACCESS
  {
    if a.Step? {
      NextMovesOne(s, a.p, a.ok);
    }
  }

  lemma BlockedStep(s: State, a: Action, p: nat, q: nat)
    requires Inv(s) && Enabled(s, a) && Blocked(s, p, q) && p != q
    ensures Blocked(Apply(s, a), p, q)
  {
    if q < |s.procs| && MovesProc(a, q) {
      TwinStepBlocked(s, a, p, q);
    } else {
      HolderStepBlocked(s, a, p, q);
    }
  }

  lemma {:induction false} RunBlocked(before: seq<Action>, run: seq<Action>, p: nat, q: nat)
    requires before <= run && After(before).Some? && After(run).Some? && p != q
    requires Blocked(After(before).value, p, q)
    ensures Blocked(After(run).value, p, q)
  {
    if before == run {
    } else {
      var shorter := run[..|run| - 1];
      RunBlocked(before, shorter, p, q);
      RunKeeps(shorter);
      BlockedStep(After(shorter).value, run[|run| - 1], p, q);
    }
  }

  predicate Wrote(s: State, p: nat) {
    p < |s.procs| && s.procs[p].log.putMachine != Undone
  }

  predicate HasLooked(s: State, q: nat) {
    q < |s.procs| && s.procs[q].log.gotMachine != Undone
  }

  predicate OnRecord(s: State, p: nat) {
    p < |s.procs| && OnMachineRecord(s.procs[p])
  }

  /** It has the other role and the holder's identity, access to the machine tier,
      shared or exclusive, and did not fail to read a record there. */
  predicate AbleTwin(s: State, p: nat, q: nat) {
    && p < |s.procs| && q < |s.procs| && MachineRivals(s.procs[q], s.procs[p])
    && s.procs[q].can != NoMachineTier && s.procs[q].log.gotMachine != Broken
  }

  /** The holder's identity is on record, and process `q` has not looked on the machine
      tier yet, or has not even started. */
  ghost predicate NotLookedYet(before: seq<Action>, p: nat, q: nat) {
    After(before).Some? && OnRecord(After(before).value, p) && !HasLooked(After(before).value, q)
  }

  /** An able twin is past its check while the holder's identity is on record. */
  ghost predicate PassesBesideRecord(run: seq<Action>, p: nat, q: nat) {
    && After(run).Some? && OnRecord(After(run).value, p) && AbleTwin(After(run).value, p, q)
    && PastMachineCheck(After(run).value.procs[q])
  }

  /** A twin that looks, shared or exclusive, only after an exclusive holder of the other
      role has put its identity on record is refused: it is never past the check, and so
      never runs, while the record is there. */
  lemma {:induction false} LateTwinIsRefused(before: seq<Action>, run: seq<Action>, p: nat, q: nat)
    requires before <= run && p != q && NotLookedYet(before, p, q)
    ensures !PassesBesideRecord(run, p, q)
  {
    if PassesBesideRecord(run, p, q) {
      RunBlocked(before, run, p, q);
    }
  }

  // ------------------------------------------------------------- who was first

  /** In this run process `q` had looked on the machine tier when `p` had not written
      its record there yet. */
  ghost predicate LookedFirst(actions: seq<Action>, p: nat, q: nat) {
    exists n :: 0 <= n <= |actions| && LookedAt(actions[..n], p, q)
  }

  ghost predicate LookedAt(actions: seq<Action>, p: nat, q: nat) {
    After(actions).Some? && HasLooked(After(actions).value, q) && !Wrote(After(actions).value, p)
  }

  /** The other way round. */
  ghost predicate WroteAt(actions: seq<Action>, p: nat, q: nat) {
    After(actions).Some? && Wrote(After(actions).value, p) && !HasLooked(After(actions).value, q)
  }

  lemma PublishSettles(s: State, p: nat, ok: bool)
    requires p < |s.procs| && 4 <= Rank(s.procs[p].at) < 13
    ensures var t := NextPublish(s, p, ok); (Wrote(s, p) ==> Wrote(t, p)) && (HasLooked(s, p) ==> HasLooked(t, p))
  {
    match s.procs[p].at {
      case Claimed =>
      case PublishMachine =>
      case ProbeUser =>
      case HoldingUserProbe =>
      case ReadUser =>
      case ProbeMachine =>
      case HoldingMachineProbe =>
      case ReadMachine =>
      case Decide =>
    }
  }

  /** What has been written or looked at stays so. */
  lemma StepSettles(s: State, a: Action, p: nat)
    requires Enabled(s, a)
    ensures (Wrote(s, p) ==> Wrote(Apply(s, a), p)) && (HasLooked(s, p) ==> HasLooked(Apply(s, a), p))
  {
    if p < |s.procs| {
      if !MovesProc(a, p) {
        OthersStay(s, a, p);
      } else if a.Step? {
        if Rank(s.procs[p].at) < 4 {
          ClaimKeepsFields(s, p, a.ok);
        } else if Rank(s.procs[p].at) < 13 {
          PublishSettles(s, p, a.ok);
        } else {
          DropKeepsFields(s, p, a.ok);
        }
      }
    }
  }

  lemma {:induction false} RunSettles(before: seq<Action>, run: seq<Action>, p: nat)
    requires before <= run && After(before).Some? && After(run).Some?
    ensures Wrote(After(before).value, p) ==> Wrote(After(run).value, p)
    ensures HasLooked(After(before).value, p) ==> HasLooked(After(run).value, p)
  {
    if before == run {
    } else {
      var shorter := run[..|run| - 1];
      RunSettles(before, shorter, p);
      StepSettles(After(shorter).value, run[|run| - 1], p);
    }
  }

  /** Never both. */
  lemma OneOrder(actions: seq<Action>, n: nat, m: nat, p: nat, q: nat)
    requires n <= |actions| && m <= |actions|
    ensures !(LookedAt(actions[..n], p, q) && WroteAt(actions[..m], p, q))
  {
    if LookedAt(actions[..n], p, q) && WroteAt(actions[..m], p, q) {
      if n <= m {
        RunSettles(actions[..n], actions[..m], q);
      } else {
        RunSettles(actions[..m], actions[..n], p);
      }
    }
  }

  /** A step settles at most one of two processes. */
  lemma OneSettles(s: State, a: Action, p: nat, q: nat)
    requires Enabled(s, a) && p != q
    requires Wrote(Apply(s, a), p) && HasLooked(Apply(s, a), q)
    ensures Wrote(s, p) || HasLooked(s, q)
  {
    if |s.procs| <= p {
      NewProcUndone(s, a, p);
    } else if |s.procs| <= q {
      NewProcUndone(s, a, q);
    } else if MovesProc(a, p) {
      OthersStay(s, a, q);
    } else {
      OthersStay(s, a, p);
    }
  }

  /** Always one of them, when both have happened. */
  lemma {:induction false} SomeOrder(actions: seq<Action>, p: nat, q: nat) returns (n: nat)
    requires After(actions).Some? && p != q && Wrote(After(actions).value, p) && HasLooked(After(actions).value, q)
    ensures n <= |actions| && (LookedAt(actions[..n], p, q) || WroteAt(actions[..n], p, q))
  {
    var shorter, a := actions[..|actions| - 1], actions[|actions| - 1];
    var s := After(shorter).value;
    OneSettles(s, a, p, q);
    if Wrote(s, p) && HasLooked(s, q) {
      n := SomeOrder(shorter, p, q);
      assert shorter[..n] == actions[..n];
    } else {
      n := |shorter|;
    }
  }

  // -------------------------------------------------------- the runs that exist

  /** The record an unopposed claim and publication leave behind. */
  function LeftRecord(pid: nat, wrote: bool): Record {
    Record(pid, if wrote then Some(7) else None)
  }

  /** An exclusive holder that found nobody. */
  function HolderRunning(role: Role, wrote: bool): Proc {
    Fresh(0, role, Writable, 1)
      .(at := Running, hasUser := true, machine := Some(Exclusive), log := Accesses(Went(wrote), NotNeeded, Went(wrote), NotNeeded))
  }

  lemma HolderClaims(role: Role) returns (run: seq<Action>, s: State)
    ensures After(run) == Some(s) && s.files == {UserLock(0, role), MachineLock(role)}
    ensures s.procs == [Fresh(0, role, Writable, 1).(at := Claimed, hasUser := true, machine := Some(Exclusive))]
    ensures Lookup(s, MachineLock(role), true) == Some(LeftRecord(1, false))
  {
    run, s := StartRun([], INITIAL, Fresh(0, role, Writable, 1));
    run, s := ClaimRun(run, s, 0, Some(Exclusive));
  }

  lemma HolderRuns(role: Role, wrote: bool) returns (run: seq<Action>, s: State)
    ensures After(run) == Some(s) && s.files == {UserLock(0, role), MachineLock(role)}
    ensures s.procs == [HolderRunning(role, wrote)]
    ensures Lookup(s, MachineLock(role), true) == Some(LeftRecord(1, wrote))
  {
    run, s := HolderClaims(role);
    run, s := WriteRun(run, s, 0, wrote);
    run, s := LookRun(run, s, 0);
  }

  /** The hold a claim gives where no machine lock file of the role is there yet. */
  function FirstHold(can: Capability): Option<Mode> {
    if can == Writable then Some(Exclusive) else None
  }

  /** The twin of another user, up to the point where it looks on the machine tier. */
  function TwinLooking(role: Role, can: Capability, pid: nat, wrote: bool): Proc {
    Fresh(1, role, can, pid)
      .(at := ProbeMachine, hasUser := true, machine := FirstHold(can),
        log := if can == Writable then Accesses(Went(wrote), NotNeeded, Went(wrote), Undone)
               else Accesses(Went(wrote), NotNeeded, Undone, Undone))
  }

  /** The holder holds nothing that the twin claims. */
  lemma TwinMayClaim(s: State, role: Role, can: Capability, holder: Proc)
    requires s.procs == [holder, Fresh(1, role, can, 2)]
    requires holder.user == 0 && holder.role == OtherRole(role) && holder.probe.None?
    requires MachineLock(role) !in s.files
    ensures Free(s.procs, 1, UserLock(1, role), Exclusive) && Free(s.procs, 1, MachineLock(role), Exclusive)
    ensures MachineHold(s, s.procs[1], FirstHold(can))
  {
  }

  lemma TwinClaims(actions: seq<Action>, s: State, role: Role, can: Capability, holder: Proc)
    returns (run: seq<Action>, t: State)
    requires After(actions) == Some(s) && s.procs == [holder] && holder == HolderRunning(OtherRole(role), holder.log.putMachine == Done)
    requires s.files == {UserLock(0, OtherRole(role)), MachineLock(OtherRole(role))}
    ensures After(run) == Some(t) && actions <= run
    ensures t.procs == [holder, Fresh(1, role, can, 2).(at := Claimed, hasUser := true, machine := FirstHold(can))]
    ensures MachineLock(OtherRole(role)) in t.files && UserLock(1, OtherRole(role)) !in t.files
    ensures Lookup(t, MachineLock(OtherRole(role)), true) == Lookup(s, MachineLock(OtherRole(role)), true)
  {
    run, t := StartRun(actions, s, Fresh(1, role, can, 2));
    TwinMayClaim(t, role, can, holder);
    run, t := ClaimRun(run, t, 1, FirstHold(can));
  }

  lemma TwinLooks(actions: seq<Action>, s: State, role: Role, can: Capability, holder: Proc, wrote: bool)
    returns (run: seq<Action>, t: State)
    requires After(actions) == Some(s) && s.procs == [holder] && holder == HolderRunning(OtherRole(role), holder.log.putMachine == Done)
    requires s.files == {UserLock(0, OtherRole(role)), MachineLock(OtherRole(role))}
    ensures After(run) == Some(t) && actions <= run && t.procs == [holder, TwinLooking(role, can, 2, wrote)]
    ensures MachineLock(OtherRole(role)) in t.files
    ensures Lookup(t, MachineLock(OtherRole(role)), true) == Lookup(s, MachineLock(OtherRole(role)), true)
  {
    run, t := TwinClaims(actions, s, role, can, holder);
    run, t := WriteRun(run, t, 1, wrote);
    run, t := PassAbsentUserTier(run, t, 1);
  }

  /** What the holder's lock lets a looking twin find out. */
  lemma HolderIsSeen(s: State, holder: Proc, twin: Proc)
    requires s.procs == [holder, twin] && holder.machine == Some(Exclusive) && twin.role != holder.role
    requires MachineLock(holder.role) in s.files
    ensures FindsMachineHeld(s, twin, 1)
  {
    assert HoldsExclusive(s.procs[0], MachineLock(holder.role)) && HoldsAny(s.procs[0], MachineLock(holder.role));
  }

  /** The twin runs beside the holder, after accesses that went as given. */
  predicate TwinRan(s: State, role: Role, can: Capability, put: bool, wrote: bool, got: bool) {
    && |s.procs| == 2 && s.procs[0] == HolderRunning(OtherRole(role), put)
    && var x, y := s.procs[1], TwinLooking(role, can, 2, wrote);
       && x.at == Running && SameStart(x, y) && x.can == can && x.machine == y.machine
       && x.log == y.log.(gotMachine := if can == NoMachineTier then NotNeeded else Went(got))
  }

  lemma TwinReads(actions: seq<Action>, s: State, role: Role, can: Capability, put: bool, wrote: bool, got: bool)
    returns (run: seq<Action>, t: State)
    requires After(actions) == Some(s) && s.procs == [HolderRunning(OtherRole(role), put), TwinLooking(role, can, 2, wrote)]
    requires MachineLock(OtherRole(role)) in s.files && can != NoMachineTier && (!put || !got)
    requires Lookup(s, MachineLock(OtherRole(role)), true) == Some(LeftRecord(1, put))
    ensures After(run) == Some(t) && actions <= run && TwinRan(t, role, can, put, wrote, got)
  {
    HolderIsSeen(s, s.procs[0], s.procs[1]);
    run, t := PassHeldMachineTier(actions, s, 1, got);
  }

  /** A twin that looks after the holder runs unless it has the machine tier, the
      holder's write and its own read all succeeded. */
  lemma LateTwinRuns(role: Role, can: Capability, put: bool, wrote: bool, got: bool)
    returns (before: seq<Action>, run: seq<Action>, s: State)
    requires can == NoMachineTier || !put || !got
    ensures After(before).Some? && After(before).value.procs == [HolderRunning(OtherRole(role), put)]
    ensures After(run) == Some(s) && before <= run && TwinRan(s, role, can, put, wrote, got)
  {
    before, s := HolderRuns(OtherRole(role), put);
    run, s := TwinLooks(before, s, role, can, HolderRunning(OtherRole(role), put), wrote);
    if can == NoMachineTier {
      run, s := DecideRun(run, s, 1);
    } else {
      run, s := TwinReads(run, s, role, can, put, wrote, got);
    }
  }

  /** An exclusive holder that starts beside a running twin without such a hold runs too. */
  lemma EarlyTwinIsPassed(role: Role, can: Capability, put: bool) returns (before: seq<Action>, run: seq<Action>, s: State)
    requires can != Writable
    ensures After(before).Some? && After(before).value.procs == [UserRunning(role, can)]
    ensures After(run) == Some(s) && before <= run
    ensures s.procs == [UserRunning(role, can), HolderRunning(OtherRole(role), put).(pid := 2)]
  {
    before, s := UserRuns(role, can);
    run, s := SystemClaims(before, s, role, can, OtherRole(role));
    run, s := WriteRun(run, s, 1, put);
    run, s := LookRun(run, s, 1);
  }

  // ------------------------------------------------------- exact conditions

  /** The accesses it needed on the machine tier went like this. */
  predicate WentOnMachine(x: Proc, put: bool, got: bool) {
    x.log.putMachine == Went(put) && GotOnMachine(x, got)
  }

  predicate GotOnMachine(x: Proc, got: bool) {
    x.log.gotMachine == NotNeeded || x.log.gotMachine == Went(got)
  }

  /** Two processes of different users run side by side in different roles with one
      identity, the first of them an exclusive machine holder. */
  ghost predicate TwinsOfTwoUsers(actions: seq<Action>, p: nat, q: nat) {
    && After(actions).Some?
    && var s := After(actions).value;
       && p < |s.procs| && q < |s.procs|
       && s.procs[p].at == Running && s.procs[q].at == Running
       && MachineRivals(s.procs[q], s.procs[p]) && s.procs[p].user != s.procs[q].user
       && s.procs[p].machine == Some(Exclusive)
  }

  /** Both hold the machine tier, and their accesses to its records went as given. */
  ghost predicate HoldersRun(actions: seq<Action>, p: nat, q: nat, putP: bool, gotP: bool, putQ: bool, gotQ: bool) {
    && TwinsOfTwoUsers(actions, p, q)
    && var x, y := After(actions).value.procs[p], After(actions).value.procs[q];
       x.role == ServeRole && y.machine == Some(Exclusive) && WentOnMachine(x, putP, gotP) && WentOnMachine(y, putQ, gotQ)
  }

  /** Exactly when two exclusive holders of different users can run with one identity:
      some access to the machine tier's records fails. */
  lemma {:induction false} HoldersCanRunIff(putP: bool, gotP: bool, putQ: bool, gotQ: bool)
    ensures (exists actions, p, q :: HoldersRun(actions, p, q, putP, gotP, putQ, gotQ)) <==> !(putP && gotP && putQ && gotQ)
  {
    if actions, p, q :| HoldersRun(actions, p, q, putP, gotP, putQ, gotQ) {
      RunningIsPastChecks(actions, p);
      RunningIsPastChecks(actions, q);
      NoTwinsOnTheMachine(actions, p, q);
    }
    if !putP || !gotQ {
      var _, run, _ := LateTwinRuns(AccessRole, Writable, putP, putQ, gotQ);
      assert HoldersRun(run, 0, 1, putP, gotP, putQ, gotQ);
    } else if !putQ || !gotP {
      var _, run, _ := LateTwinRuns(ServeRole, Writable, putQ, putP, gotP);
      assert HoldersRun(run, 1, 0, putP, gotP, putQ, gotQ);
    }
  }

  /** The second has no exclusive hold; the first one's write and its own read went as
      given. */
  ghost predicate RunsBesideHolder(actions: seq<Action>, p: nat, q: nat, can: Capability, put: bool, got: bool) {
    && TwinsOfTwoUsers(actions, p, q)
    && var x, y := After(actions).value.procs[p], After(actions).value.procs[q];
       y.can == can && x.log.putMachine == Went(put) && GotOnMachine(y, got)
  }

  /** Such twins have a first and a second: the twin looked, or the holder wrote. */
  lemma {:induction false} LookedFirstOrLate(actions: seq<Action>, p: nat, q: nat)
    requires TwinsOfTwoUsers(actions, p, q)
    ensures LookedFirst(actions, p, q) <==> !exists n :: 0 <= n <= |actions| && WroteAt(actions[..n], p, q)
  {
    RunKeeps(actions);
    var s := After(actions).value;
    assert ProcOk(s.procs[p]) && ProcOk(s.procs[q]);
    var n := SomeOrder(actions, p, q);
    forall k, m | 0 <= k <= |actions| && 0 <= m <= |actions| ensures !(LookedAt(actions[..k], p, q) && WroteAt(actions[..m], p, q)) {
      OneOrder(actions, k, m, p, q);
    }
  }

  /** Whoever runs beside a holder it looked at too late has no machine tier, or the
      holder's write or its own read failed. */
  lemma {:induction false} LateNeedsExcuse(actions: seq<Action>, p: nat, q: nat, can: Capability, put: bool, got: bool)
    requires RunsBesideHolder(actions, p, q, can, put, got) && !LookedFirst(actions, p, q)
    ensures can == NoMachineTier || !put || !got
  {
    LookedFirstOrLate(actions, p, q);
    var n :| 0 <= n <= |actions| && WroteAt(actions[..n], p, q);
    LateByThen(actions[..n], actions, p, q);
  }

  lemma {:induction false} LateByThen(before: seq<Action>, run: seq<Action>, p: nat, q: nat)
    requires before <= run && WroteAt(before, p, q) && TwinsOfTwoUsers(run, p, q)
    ensures var x, y := After(run).value.procs[p], After(run).value.procs[q];
            y.can == NoMachineTier || x.log.putMachine != Done || y.log.gotMachine == Broken
  {
    var t := After(run).value;
    if t.procs[p].log.putMachine == Done {
      WroteIsOnRecord(before, run, p);
      RunningIsOnRecord(run, p);
      if t.procs[q].can != NoMachineTier && t.procs[q].log.gotMachine != Broken {
        RunningIsPastChecks(run, q);
        LateTwinIsRefused(before, run, p, q);
      }
    }
  }

  lemma RunningIsOnRecord(actions: seq<Action>, p: nat)
    requires After(actions).Some? && p < |After(actions).value.procs|
    requires var x := After(actions).value.procs[p]; x.at == Running && x.machine == Some(Exclusive) && x.log.putMachine == Done
    ensures OnMachineRecord(After(actions).value.procs[p])
  {
  }

  /** The record of a running holder has been there since it wrote it. */
  lemma {:induction false} WroteIsOnRecord(before: seq<Action>, run: seq<Action>, p: nat)
    requires before <= run && After(before).Some? && Wrote(After(before).value, p)
    requires After(run).Some? && p < |After(run).value.procs|
    requires var x := After(run).value.procs[p];
             x.at == Running && x.machine == Some(Exclusive) && x.log.putMachine == Done
    ensures OnMachineRecord(After(before).value.procs[p])
  {
    RunKeeps(before);
    assert ProcOk(After(before).value.procs[p]);
    RunGoesOn(before, run, p);
  }

  lemma {:induction false} RunGoesOn(before: seq<Action>, run: seq<Action>, p: nat)
    requires before <= run && After(before).Some? && After(run).Some?
    requires p < |After(before).value.procs| && 6 <= Rank(After(before).value.procs[p].at)
    ensures p < |After(run).value.procs| && Later(After(before).value.procs[p], After(run).value.procs[p])
  {
    if before == run {
    } else {
      var shorter := run[..|run| - 1];
      RunGoesOn(before, shorter, p);
      StepGoesOn(After(shorter).value, run[|run| - 1], p);
    }
  }

  lemma TwinLooksFirst(can: Capability, put: bool, got: bool) returns (run: seq<Action>)
    requires can != Writable
    ensures RunsBesideHolder(run, 1, 0, can, put, got) && LookedFirst(run, 1, 0)
  {
    var before, longer, s := EarlyTwinIsPassed(ServeRole, can, put);
    run := longer;
    assert run[..|before|] == before && LookedAt(before, 1, 0);
  }

  lemma TwinLooksLate(can: Capability, put: bool, got: bool) returns (run: seq<Action>)
    requires can != Writable && (can == NoMachineTier || !put || !got)
    ensures RunsBesideHolder(run, 0, 1, can, put, got) && !LookedFirst(run, 0, 1)
  {
    var before, longer, s := LateTwinRuns(ServeRole, can, put, true, got);
    run := longer;
    assert run[..|before|] == before && WroteAt(before, 0, 1);
    LookedFirstOrLate(run, 0, 1);
  }

  /** Exactly when a process without an exclusive hold can run beside an exclusive
      holder of another user with its identity: it looked before the holder wrote its
      record, or it has no machine tier, or the write or the read failed. */
  lemma {:induction false} TwinBesideHolderIff(first: bool, can: Capability, put: bool, got: bool)
    requires can != Writable
    ensures (exists actions, p, q :: RunsBesideHolder(actions, p, q, can, put, got) && LookedFirst(actions, p, q) == first)
            <==> first || can == NoMachineTier || !put || !got
  {
    if actions, p, q :| RunsBesideHolder(actions, p, q, can, put, got) && LookedFirst(actions, p, q) == first {
      if !first {
        LateNeedsExcuse(actions, p, q, can, put, got);
      }
    }
    if first {
      var run := TwinLooksFirst(can, put, got);
    } else if can == NoMachineTier || !put || !got {
      var run := TwinLooksLate(can, put, got);
    }
  }
}
