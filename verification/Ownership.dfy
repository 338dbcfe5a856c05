/** Role ownership: a process claims its role on two tiers of kernel locks,
    publishes its identity, and only then looks for the same identity in the other
    role. Any number of processes interleave, one file or lock operation at a time;
    any of them may crash at any point, and outsiders may probe any lock.

    A record lies next to each lock, so both are named by the same `LockId`. */
module Ownership {
  import opened Common

  datatype Role = ServeRole | AccessRole

  function OtherRole(r: Role): Role {
    if r == ServeRole then AccessRole else ServeRole
  }

  datatype LockId = UserLock(user: nat, role: Role) | MachineLock(role: Role)

  datatype Mode = Exclusive | Shared

  /** What the process may do on the machine tier, if its platform has one. */
  datatype Capability = Writable | ReadOnly | NoMachineTier

  datatype Record = Record(pid: nat, node: Option<nat>)

  datatype Hold = Hold(lock: LockId, mode: Mode)

  datatype Point =
    | ClaimingUser(attempt: nat)
    | ClaimingMachine(attempt: nat)
    | RecordUser | RecordMachine                 // replace a predecessor's records
    | Claimed                                    // next: publish the identity, user tier
    | PublishMachine
    | ProbeUser | HoldingUserProbe | ReadUser    // is the other role's user lock held, and by whom
    | ProbeMachine | HoldingMachineProbe | ReadMachine
    | Decide
    | Running
    | DropUser | RemoveUser | DropMachine | RemoveMachine | ReleaseUser | ReleaseMachine
    | Outside                                    // a prober that never claims
    | Dead

  /** How one access to an owner record went. */
  datatype Access = Undone | NotNeeded | Done | Broken

  /** The accesses of one publication: writing the own identity on each tier, and
      reading the other role's record there if its lock is held. */
  datatype Accesses = Accesses(putUser: Access, gotUser: Access, putMachine: Access, gotMachine: Access)

  const NO_ACCESS := Accesses(Undone, Undone, Undone, Undone)

  function Went(ok: bool): Access {
    if ok then Done else Broken
  }

  /** One process. `seen` are the other role's records it found behind held locks;
      `log` is how the record accesses of its publication went. */
  datatype Proc = Proc(
    user: nat, role: Role, can: Capability, pid: nat, node: nat,
    at: Point,
    hasUser: bool, machine: Option<Mode>, probe: Option<Hold>,
    seenUser: Option<Record>, seenMachine: Option<Record>,
    log: Accesses)

  datatype State = State(procs: seq<Proc>, files: set<LockId>, records: map<LockId, Record>)

  const INITIAL := State([], {}, map[])

  const ATTEMPTS: nat := 4

  function OwnUser(x: Proc): LockId {
    UserLock(x.user, x.role)
  }

  function OwnMachine(x: Proc): LockId {
    MachineLock(x.role)
  }

  predicate HoldsExclusive(x: Proc, lock: LockId) {
    || (x.hasUser && lock == OwnUser(x))
    || (x.machine == Some(Exclusive) && lock == OwnMachine(x))
    || x.probe == Some(Hold(lock, Exclusive))
  }

  predicate HoldsAny(x: Proc, lock: LockId) {
    || (x.hasUser && lock == OwnUser(x))
    || (x.machine.Some? && lock == OwnMachine(x))
    || (x.probe.Some? && x.probe.value.lock == lock)
  }

  /** The kernel grants `lock` to process `p`: an exclusive hold needs that nobody
      else holds it, a shared one that nobody else holds it exclusively. */
  ghost predicate Free(procs: seq<Proc>, p: nat, lock: LockId, mode: Mode) {
    forall q :: 0 <= q < |procs| && q != p ==>
                  if mode == Exclusive then !HoldsAny(procs[q], lock) else !HoldsExclusive(procs[q], lock)
  }

  datatype Action =
    | Start(user: nat, role: Role, can: Capability, pid: nat, node: nat)
    | StartOutsider(pid: nat)
    | Step(p: nat, ok: bool)          // the next operation of `p`; `ok` false if a record access fails
    | Fail(p: nat)                    // an I/O error ends the start
    | Stop(p: nat)
    | Crash(p: nat)
    | OutsideTake(p: nat, hold: Hold)
    | OutsideRelease(p: nat)

  /** How far a process has come. */
  function Rank(at: Point): nat {
    match at
    case ClaimingUser(_) => 0
    case ClaimingMachine(_) => 1
    case RecordUser => 2
    case RecordMachine => 3
    case Claimed => 4
    case PublishMachine => 5
    case ProbeUser => 6
    case HoldingUserProbe => 7
    case ReadUser => 8
    case ProbeMachine => 9
    case HoldingMachineProbe => 10
    case ReadMachine => 11
    case Decide => 12
    case Running => 13
    case DropUser => 14
    case RemoveUser => 15
    case DropMachine => 16
    case RemoveMachine => 17
    case ReleaseUser => 18
    case ReleaseMachine => 19
    case Outside => 20
    case Dead => 21
  }

  /** Its role claim is complete and not yet being given back. */
  predicate Established(at: Point) {
    4 <= Rank(at) <= 13
  }

  ghost predicate Enabled(s: State, a: Action) {
    match a
    case Start(_, _, _, pid, _) => forall q :: 0 <= q < |s.procs| && s.procs[q].at != Dead ==> s.procs[q].pid != pid
    case StartOutsider(pid) => forall q :: 0 <= q < |s.procs| && s.procs[q].at != Dead ==> s.procs[q].pid != pid
    case Step(p, _) => p < |s.procs| && Rank(s.procs[p].at) < 20 && s.procs[p].at != Running
    case Fail(p) => p < |s.procs| && Rank(s.procs[p].at) < 13
    case Stop(p) => p < |s.procs| && s.procs[p].at == Running
    case Crash(p) => p < |s.procs| && s.procs[p].at != Dead
    case OutsideTake(p, h) =>
      && p < |s.procs| && s.procs[p].at == Outside && s.procs[p].probe.None?
      && h.lock in s.files && Free(s.procs, p, h.lock, h.mode)
    case OutsideRelease(p) => p < |s.procs| && s.procs[p].at == Outside && s.procs[p].probe.Some?
  }

  function Ended(x: Proc): Proc {
    x.(at := Dead, hasUser := false, machine := None, probe := None)
  }

  function With(s: State, p: nat, x: Proc): State
    requires p < |s.procs|
  {
    s.(procs := s.procs[p := x])
  }

  function Write(s: State, lock: LockId, record: Record, ok: bool): State {
    if ok then s.(records := s.records[lock := record]) else s
  }

  function Lookup(s: State, lock: LockId, ok: bool): Option<Record> {
    if ok && lock in s.records then Some(s.records[lock]) else None
  }

  /** Whether a record found behind a held lock carries this identity. */
  predicate Conflicts(seen: Option<Record>, node: nat) {
    seen.Some? && seen.value.node == Some(node)
  }

  /** The next operation of a start that does not own its role yet. */
  ghost function NextClaim(s: State, p: nat, ok: bool): State
    requires p < |s.procs|
  {
    var x := s.procs[p];
    match x.at
    case ClaimingUser(k) =>
      var t := s.(files := s.files + {OwnUser(x)});
      if Free(s.procs, p, OwnUser(x), Exclusive) then With(t, p, x.(at := ClaimingMachine(1), hasUser := true))
      else if k < ATTEMPTS then With(t, p, x.(at := ClaimingUser(k + 1)))
      else With(t, p, Ended(x))
    case ClaimingMachine(k) =>
      (match x.can
       case NoMachineTier => With(s, p, x.(at := RecordUser))
       case Writable =>
         var t := s.(files := s.files + {OwnMachine(x)});
         if Free(s.procs, p, OwnMachine(x), Exclusive) then With(t, p, x.(at := RecordUser, machine := Some(Exclusive)))
         else if k < ATTEMPTS then With(t, p, x.(at := ClaimingMachine(k + 1)))
         else With(t, p, Ended(x))
       case ReadOnly =>
         if OwnMachine(x) !in s.files then With(s, p, x.(at := RecordUser))
         else if Free(s.procs, p, OwnMachine(x), Shared) then With(s, p, x.(at := RecordUser, machine := Some(Shared)))
         else With(s, p, Ended(x)))
    case RecordUser => With(Write(s, OwnUser(x), Record(x.pid, None), ok), p, x.(at := RecordMachine))
    case RecordMachine =>
      if x.machine == Some(Exclusive) then With(Write(s, OwnMachine(x), Record(x.pid, None), ok), p, x.(at := Claimed))
      else With(s, p, x.(at := Claimed))
    case _ => s
  }

  /** Publish the identity, then look for it in the other role. */
  ghost function NextPublish(s: State, p: nat, ok: bool): State
    requires p < |s.procs|
  {
    var x := s.procs[p];
    match x.at
    case Claimed =>
      With(Write(s, OwnUser(x), Record(x.pid, Some(x.node)), ok), p, x.(at := PublishMachine, log := x.log.(putUser := Went(ok))))
    case PublishMachine =>
      if x.machine == Some(Exclusive)
      then With(Write(s, OwnMachine(x), Record(x.pid, Some(x.node)), ok), p, x.(at := ProbeUser, log := x.log.(putMachine := Went(ok))))
      else With(s, p, x.(at := ProbeUser))
    case ProbeUser =>
      var lock := UserLock(x.user, OtherRole(x.role));
      if lock !in s.files then With(s, p, x.(at := ProbeMachine, log := x.log.(gotUser := NotNeeded)))
      else if Free(s.procs, p, lock, Shared)
      then With(s, p, x.(at := HoldingUserProbe, probe := Some(Hold(lock, Shared)), log := x.log.(gotUser := NotNeeded)))
      else With(s, p, x.(at := ReadUser))
    case HoldingUserProbe => With(s, p, x.(at := ProbeMachine, probe := None))
    case ReadUser =>
      With(s, p, x.(at := ProbeMachine, seenUser := Lookup(s, UserLock(x.user, OtherRole(x.role)), ok),
                    log := x.log.(gotUser := Went(ok))))
    case ProbeMachine =>
      var lock := MachineLock(OtherRole(x.role));
      var mode := if x.can == Writable then Exclusive else Shared;
      if x.can == NoMachineTier || lock !in s.files then With(s, p, x.(at := Decide, log := x.log.(gotMachine := NotNeeded)))
      else if Free(s.procs, p, lock, mode)
      then With(s, p, x.(at := HoldingMachineProbe, probe := Some(Hold(lock, mode)), log := x.log.(gotMachine := NotNeeded)))
      else With(s, p, x.(at := ReadMachine))
    case HoldingMachineProbe => With(s, p, x.(at := Decide, probe := None))
    case ReadMachine =>
      With(s, p, x.(at := Decide, seenMachine := Lookup(s, MachineLock(OtherRole(x.role)), ok),
                    log := x.log.(gotMachine := Went(ok))))
    case Decide =>
      With(s, p, x.(at := if Conflicts(x.seenUser, x.node) || Conflicts(x.seenMachine, x.node) then DropUser else Running))
    case _ => s
  }

  /** Give back records that still name this process, then the locks. */
  ghost function NextDrop(s: State, p: nat, ok: bool): State
    requires p < |s.procs|
  {
    var x := s.procs[p];
    match x.at
    case DropUser =>
      var r := Lookup(s, OwnUser(x), ok);
      With(s, p, x.(at := if r.Some? && r.value.pid == x.pid then RemoveUser else DropMachine))
    case RemoveUser => With(if ok then s.(records := s.records - {OwnUser(x)}) else s, p, x.(at := DropMachine))
    case DropMachine =>
      var r := Lookup(s, OwnMachine(x), ok);
      With(s, p, x.(at := if x.machine == Some(Exclusive) && r.Some? && r.value.pid == x.pid then RemoveMachine else ReleaseUser))
    case RemoveMachine => With(if ok then s.(records := s.records - {OwnMachine(x)}) else s, p, x.(at := ReleaseUser))
    case ReleaseUser => With(s, p, x.(at := ReleaseMachine, hasUser := false))
    case ReleaseMachine => With(s, p, Ended(x))
    case _ => s
  }

  ghost function Next(s: State, p: nat, ok: bool): State
    requires p < |s.procs|
  {
    var rank := Rank(s.procs[p].at);
    if rank < 4 then NextClaim(s, p, ok)
    else if rank < 13 then NextPublish(s, p, ok)
    else NextDrop(s, p, ok)
  }

  ghost function Apply(s: State, a: Action): State
    requires Enabled(s, a)
  {
    match a
    case Start(user, role, can, pid, node) =>
      s.(procs := s.procs + [Proc(user, role, can, pid, node, ClaimingUser(1), false, None, None, None, None, NO_ACCESS)])
    case StartOutsider(pid) =>
      s.(procs := s.procs + [Proc(0, ServeRole, ReadOnly, pid, 0, Outside, false, None, None, None, None, NO_ACCESS)])
    case Step(p, ok) => Next(s, p, ok)
    case Fail(p) =>
      if Rank(s.procs[p].at) < 4 then With(s, p, Ended(s.procs[p]))
      else With(s, p, s.procs[p].(at := DropUser, probe := None))
    case Stop(p) => With(s, p, s.procs[p].(at := DropUser))
    case Crash(p) => With(s, p, Ended(s.procs[p]))
    case OutsideTake(p, hold) => With(s, p, s.procs[p].(probe := Some(hold)))
    case OutsideRelease(p) => With(s, p, s.procs[p].(probe := None))
  }

  ghost function After(actions: seq<Action>): Option<State> {
    if actions == [] then Some(INITIAL)
    else
      match After(actions[..|actions| - 1])
      case None => None
      case Some(s) =>
        var a := actions[|actions| - 1];
        if Enabled(s, a) then Some(Apply(s, a)) else None
  }

  // -------------------------------------------------------------- invariant

  /** An exclusive hold excludes every other hold of that lock. */
  ghost predicate Compatible(procs: seq<Proc>) {
    forall p, q, lock :: 0 <= p < |procs| && 0 <= q < |procs| && p != q && HoldsExclusive(procs[p], lock) ==>
                           !HoldsAny(procs[q], lock)
  }

  /** What a process holds, as far as its point says. */
  predicate HoldsOk(x: Proc) {
    && (x.hasUser <==> 1 <= Rank(x.at) <= 18)
    && (Rank(x.at) < 2 || 19 < Rank(x.at) ==> x.machine.None?)
    && (x.probe.Some? ==> x.at == HoldingUserProbe || x.at == HoldingMachineProbe || x.at == Outside)
    && (x.at == HoldingUserProbe ==> x.probe == Some(Hold(UserLock(x.user, OtherRole(x.role)), Shared)))
    && (x.at == HoldingMachineProbe ==> x.probe.Some? && x.probe.value.lock == MachineLock(OtherRole(x.role)))
    && (x.machine == Some(Exclusive) ==> x.can == Writable)
    && (x.at == RemoveMachine ==> x.machine == Some(Exclusive))
    && (x.at == Running ==> !Conflicts(x.seenUser, x.node) && !Conflicts(x.seenMachine, x.node))
  }

  predicate ProcOk(x: Proc) {
    HoldsOk(x) && LogOk(x)
  }

  /** What the log says at each point. */
  predicate LogOk(x: Proc) {
    && (Rank(x.at) <= 4 ==> x.log.putUser == Undone)
    && (Rank(x.at) <= 5 ==> x.log.putMachine == Undone)
    && (Rank(x.at) <= 6 ==> x.log.gotUser == Undone)
    && (Rank(x.at) <= 9 ==> x.log.gotMachine == Undone)
    && (5 <= Rank(x.at) <= 13 ==> x.log.putUser != Undone)
    && (6 <= Rank(x.at) <= 13 && x.machine == Some(Exclusive) ==> x.log.putMachine != Undone)
    && (Rank(x.at) == 7 || 9 <= Rank(x.at) <= 13 ==> x.log.gotUser != Undone)
    && (Rank(x.at) == 10 || 12 <= Rank(x.at) <= 13 ==> x.log.gotMachine != Undone)
  }

  /** Its identity is on record at the user tier, and stays until it removes it. */
  predicate OnUserRecord(x: Proc) {
    x.log.putUser == Done && 5 <= Rank(x.at) <= 15
  }

  predicate OnMachineRecord(x: Proc) {
    x.log.putMachine == Done && x.machine == Some(Exclusive) && 6 <= Rank(x.at) <= 17
  }

  predicate Looked(got: Access) {
    got == NotNeeded || got == Done
  }

  /** It has looked at the other role on the user tier and found no conflict. */
  predicate ClearOnUser(x: Proc) {
    OnUserRecord(x) && Looked(x.log.gotUser) && !Conflicts(x.seenUser, x.node)
  }

  predicate ClearOnMachine(x: Proc) {
    OnMachineRecord(x) && Looked(x.log.gotMachine) && !Conflicts(x.seenMachine, x.node)
  }

  /** Same identity in the two roles of one user's directory. */
  predicate Rivals(x: Proc, y: Proc) {
    x.user == y.user && x.role != y.role && x.node == y.node
  }

  /** Same identity in the two roles of the machine. */
  predicate MachineRivals(x: Proc, y: Proc) {
    x.role != y.role && x.node == y.node
  }

  ghost predicate RecordOk(x: Proc, records: map<LockId, Record>) {
    && (OnUserRecord(x) ==> OwnUser(x) in records && records[OwnUser(x)] == Record(x.pid, Some(x.node)))
    && (OnMachineRecord(x) ==> OwnMachine(x) in records && records[OwnMachine(x)] == Record(x.pid, Some(x.node)))
  }

  ghost predicate FileOk(x: Proc, files: set<LockId>) {
    && (x.hasUser ==> OwnUser(x) in files)
    && (x.machine.Some? ==> OwnMachine(x) in files)
  }

  /** Two rivals never both get past the place where they would have seen each other. */
  predicate NotBoth(x: Proc, y: Proc) {
    && (Rivals(x, y) ==> !(ClearOnUser(x) && ClearOnUser(y)))
    && (MachineRivals(x, y) ==> !(ClearOnMachine(x) && ClearOnMachine(y)))
  }

  ghost predicate Inv(s: State) {
    && Compatible(s.procs)
    && (forall p :: 0 <= p < |s.procs| ==> ProcOk(s.procs[p]))
    && (forall p :: 0 <= p < |s.procs| ==> FileOk(s.procs[p], s.files))
    && (forall p :: 0 <= p < |s.procs| ==> RecordOk(s.procs[p], s.records))
    && (forall p, q :: 0 <= p < |s.procs| && 0 <= q < |s.procs| && p != q ==> NotBoth(s.procs[p], s.procs[q]))
  }

  // ------------------------------------------------------------ preservation

  /** `x` keeps holds of `old`, or takes ones the kernel grants. */
  ghost predicate Granted(procs: seq<Proc>, p: nat, x: Proc)
    requires p < |procs|
  {
    && (forall lock :: HoldsExclusive(x, lock) ==> HoldsExclusive(procs[p], lock) || Free(procs, p, lock, Exclusive))
    && (forall lock :: HoldsAny(x, lock) ==> HoldsAny(procs[p], lock) || Free(procs, p, lock, Shared))
  }

  lemma GrantedKeepsCompatible(procs: seq<Proc>, p: nat, x: Proc)
    requires Compatible(procs) && p < |procs| && Granted(procs, p, x)
    ensures Compatible(procs[p := x])
  {
  }

  /** Two processes never both guard one record. */
  lemma RecordHasOneWriter(procs: seq<Proc>, p: nat, q: nat)
    requires Compatible(procs) && p < |procs| && q < |procs| && p != q
    ensures !(procs[p].hasUser && procs[q].hasUser && OwnUser(procs[p]) == OwnUser(procs[q]))
    ensures !(procs[p].machine == Some(Exclusive) && procs[q].machine.Some? && OwnMachine(procs[p]) == OwnMachine(procs[q]))
  {
    assert !(HoldsExclusive(procs[p], OwnUser(procs[p])) && HoldsAny(procs[q], OwnUser(procs[p])));
    assert !(HoldsExclusive(procs[p], OwnMachine(procs[p])) && HoldsAny(procs[q], OwnMachine(procs[p])));
  }

  /** Records changed at most where `x` guards them. */
  ghost predicate OwnRecordsOnly(x: Proc, before: map<LockId, Record>, after: map<LockId, Record>) {
    forall lock :: (lock in before && lock in after && before[lock] == after[lock])
                   || (lock !in before && lock !in after)
                   || (x.hasUser && lock == OwnUser(x))
                   || (x.machine == Some(Exclusive) && lock == OwnMachine(x))
  }

  lemma OthersKeepRecords(s: State, p: nat, q: nat, records: map<LockId, Record>)
    requires Inv(s) && p < |s.procs| && q < |s.procs| && p != q
    requires OwnRecordsOnly(s.procs[p], s.records, records)
    ensures RecordOk(s.procs[q], records)
  {
    RecordHasOneWriter(s.procs, p, q);
    RecordHasOneWriter(s.procs, q, p);
    assert ProcOk(s.procs[q]) && RecordOk(s.procs[q], s.records);
  }

  /** It has just passed a tier only if no published rival was there to be found. */
  predicate UnopposedBy(before: Proc, x: Proc, y: Proc) {
    && (ClearOnUser(x) && !ClearOnUser(before) && Rivals(x, y) ==> !OnUserRecord(y))
    && (ClearOnMachine(x) && !ClearOnMachine(before) && MachineRivals(x, y) ==> !OnMachineRecord(y))
  }

  ghost predicate NewlyClearUnopposed(s: State, p: nat, x: Proc)
    requires p < |s.procs|
  {
    forall q :: 0 <= q < |s.procs| && q != p ==> UnopposedBy(s.procs[p], x, s.procs[q])
  }

  predicate SameStart(x: Proc, y: Proc) {
    x.user == y.user && x.role == y.role && x.node == y.node && x.pid == y.pid
  }

  /** One process moves; everything it may do is one of these changes. */
  lemma MoveKeeps(s: State, p: nat, x: Proc, files: set<LockId>, records: map<LockId, Record>)
    requires Inv(s) && p < |s.procs|
    requires SameStart(x, s.procs[p]) && ProcOk(x) && Granted(s.procs, p, x)
    requires s.files <= files && FileOk(x, files)
    requires OwnRecordsOnly(s.procs[p], s.records, records) && RecordOk(x, records)
    requires NewlyClearUnopposed(s, p, x)
    ensures Inv(State(s.procs[p := x], files, records))
  {
    GrantedKeepsCompatible(s.procs, p, x);
    forall q | 0 <= q < |s.procs| && q != p ensures RecordOk(s.procs[q], records) {
      OthersKeepRecords(s, p, q, records);
    }
    forall q | 0 <= q < |s.procs| && q != p ensures NotBoth(x, s.procs[q]) && NotBoth(s.procs[q], x) {
      assert NotBoth(s.procs[p], s.procs[q]);
    }
  }

  /** Ending gives every hold back. */
  lemma EndedGranted(procs: seq<Proc>, p: nat)
    requires p < |procs|
    ensures Granted(procs, p, Ended(procs[p]))
  {
  }

  lemma ClaimGranted(s: State, p: nat, ok: bool)
    requires p < |s.procs| && ProcOk(s.procs[p]) && Rank(s.procs[p].at) < 4
    ensures var t := NextClaim(s, p, ok);
            && |t.procs| == |s.procs| && t.procs == s.procs[p := t.procs[p]]
            && Granted(s.procs, p, t.procs[p])
  {
    EndedGranted(s.procs, p);
    var x, y := s.procs[p], NextClaim(s, p, ok).procs[p];
    assert y.probe.None?;
    if y != Ended(x) && x.at.ClaimingUser? {
      assert y.hasUser && !x.hasUser ==> Free(s.procs, p, OwnUser(x), Exclusive);
    }
  }

  lemma ClaimLocal(s: State, p: nat, ok: bool)
    requires p < |s.procs| && ProcOk(s.procs[p]) && FileOk(s.procs[p], s.files) && Rank(s.procs[p].at) < 4
    ensures var t := NextClaim(s, p, ok);
            && |t.procs| == |s.procs|
            && SameStart(t.procs[p], s.procs[p]) && ProcOk(t.procs[p])
            && s.files <= t.files && FileOk(t.procs[p], t.files)
  {
    match s.procs[p].at {
      case ClaimingUser(_) =>
      case ClaimingMachine(_) =>
      case RecordUser =>
      case RecordMachine =>
    }
  }

  lemma ClaimRecords(s: State, p: nat, ok: bool)
    requires p < |s.procs| && ProcOk(s.procs[p]) && RecordOk(s.procs[p], s.records) && Rank(s.procs[p].at) < 4
    ensures var t := NextClaim(s, p, ok);
            && |t.procs| == |s.procs|
            && OwnRecordsOnly(s.procs[p], s.records, t.records) && RecordOk(t.procs[p], t.records)
  {
    match s.procs[p].at {
      case ClaimingUser(_) =>
      case ClaimingMachine(_) =>
      case RecordUser =>
      case RecordMachine =>
    }
  }

  /** What is clear after the step was clear before. */
  predicate NoClearer(before: Proc, x: Proc) {
    && (ClearOnUser(x) ==> ClearOnUser(before))
    && (ClearOnMachine(x) ==> ClearOnMachine(before))
  }

  lemma NotClearYet(s: State, p: nat, x: Proc)
    requires p < |s.procs| && NoClearer(s.procs[p], x)
    ensures NewlyClearUnopposed(s, p, x)
  {
  }

  lemma ClaimNoClearer(s: State, p: nat, ok: bool)
    requires p < |s.procs| && ProcOk(s.procs[p]) && Rank(s.procs[p].at) < 4
    ensures var t := NextClaim(s, p, ok); |t.procs| == |s.procs| && NoClearer(s.procs[p], t.procs[p])
  {
    match s.procs[p].at {
      case ClaimingUser(_) =>
      case ClaimingMachine(_) =>
      case RecordUser =>
      case RecordMachine =>
    }
  }

  lemma DropNoClearer(s: State, p: nat, ok: bool)
    requires p < |s.procs| && 13 < Rank(s.procs[p].at) < 20
    ensures var t := NextDrop(s, p, ok); |t.procs| == |s.procs| && NoClearer(s.procs[p], t.procs[p])
  {
    match s.procs[p].at {
      case DropUser =>
      case RemoveUser =>
      case DropMachine =>
      case RemoveMachine =>
      case ReleaseUser =>
      case ReleaseMachine =>
    }
  }

  lemma ClaimKeeps(s: State, p: nat, ok: bool)
    requires Inv(s) && p < |s.procs| && Rank(s.procs[p].at) < 4
    ensures Inv(NextClaim(s, p, ok))
  {
    assert ProcOk(s.procs[p]) && FileOk(s.procs[p], s.files) && RecordOk(s.procs[p], s.records);
    var t := NextClaim(s, p, ok);
    ClaimGranted(s, p, ok);
    ClaimLocal(s, p, ok);
    ClaimRecords(s, p, ok);
    ClaimNoClearer(s, p, ok);
    NotClearYet(s, p, t.procs[p]);
    MoveKeeps(s, p, t.procs[p], t.files, t.records);
  }

  lemma DropGranted(s: State, p: nat, ok: bool)
    requires p < |s.procs| && ProcOk(s.procs[p]) && 13 < Rank(s.procs[p].at) < 20
    ensures var t := NextDrop(s, p, ok);
            && |t.procs| == |s.procs| && t.procs == s.procs[p := t.procs[p]]
            && Granted(s.procs, p, t.procs[p])
  {
    match s.procs[p].at {
      case DropUser =>
      case RemoveUser =>
      case DropMachine =>
      case RemoveMachine =>
      case ReleaseUser =>
      case ReleaseMachine =>
    }
  }

  lemma DropHolds(s: State, p: nat, ok: bool)
    requires p < |s.procs| && HoldsOk(s.procs[p]) && 13 < Rank(s.procs[p].at) < 20
    ensures var t := NextDrop(s, p, ok);
            |t.procs| == |s.procs| && SameStart(t.procs[p], s.procs[p]) && HoldsOk(t.procs[p])
  {
    match s.procs[p].at {
      case DropUser =>
      case RemoveUser =>
      case DropMachine =>
      case RemoveMachine =>
      case ReleaseUser =>
      case ReleaseMachine =>
    }
  }

  lemma DropLocal(s: State, p: nat, ok: bool)
    requires p < |s.procs| && ProcOk(s.procs[p]) && FileOk(s.procs[p], s.files) && 13 < Rank(s.procs[p].at) < 20
    ensures var t := NextDrop(s, p, ok);
            && |t.procs| == |s.procs|
            && SameStart(t.procs[p], s.procs[p]) && ProcOk(t.procs[p])
            && s.files <= t.files && FileOk(t.procs[p], t.files)
  {
    DropHolds(s, p, ok);
    DropFiles(s, p, ok);
    DropLog(s, p, ok);
  }

  lemma DropFiles(s: State, p: nat, ok: bool)
    requires p < |s.procs| && 13 < Rank(s.procs[p].at) < 20
    ensures var t := NextDrop(s, p, ok);
            && |t.procs| == |s.procs| && t.files == s.files
            && (t.procs[p].hasUser ==> s.procs[p].hasUser) && (t.procs[p].machine.Some? ==> s.procs[p].machine.Some?)
  {
    match s.procs[p].at {
      case DropUser =>
      case RemoveUser =>
      case DropMachine =>
      case RemoveMachine =>
      case ReleaseUser =>
      case ReleaseMachine =>
    }
  }

  /** A process that gives its role back goes on doing so. */
  predicate GivingBack(at: Point) {
    || at == DropUser || at == RemoveUser || at == DropMachine || at == RemoveMachine
    || at == ReleaseUser || at == ReleaseMachine || at == Dead
  }

  lemma DropGoesOn(s: State, p: nat, ok: bool)
    requires p < |s.procs| && 13 < Rank(s.procs[p].at) < 20
    ensures |NextDrop(s, p, ok).procs| == |s.procs| && GivingBack(NextDrop(s, p, ok).procs[p].at)
  {
  }

  lemma GivingBackLog(x: Proc)
    requires GivingBack(x.at)
    ensures LogOk(x)
  {
  }

  lemma DropLog(s: State, p: nat, ok: bool)
    requires p < |s.procs| && 13 < Rank(s.procs[p].at) < 20
    ensures |NextDrop(s, p, ok).procs| == |s.procs| && LogOk(NextDrop(s, p, ok).procs[p])
  {
    DropGoesOn(s, p, ok);
    GivingBackLog(NextDrop(s, p, ok).procs[p]);
  }

  lemma DropRecords(s: State, p: nat, ok: bool)
    requires p < |s.procs| && ProcOk(s.procs[p]) && RecordOk(s.procs[p], s.records) && 13 < Rank(s.procs[p].at) < 20
    ensures var t := NextDrop(s, p, ok);
            && |t.procs| == |s.procs|
            && OwnRecordsOnly(s.procs[p], s.records, t.records) && RecordOk(t.procs[p], t.records)
  {
    if Rank(s.procs[p].at) < 16 {
      DropUserRecord(s, p, ok);
    } else {
      DropMachineRecord(s, p, ok);
    }
  }

  lemma DropUserRecord(s: State, p: nat, ok: bool)
    requires p < |s.procs| && HoldsOk(s.procs[p]) && RecordOk(s.procs[p], s.records) && 13 < Rank(s.procs[p].at) < 16
    ensures var t := NextDrop(s, p, ok);
            && |t.procs| == |s.procs|
            && OwnRecordsOnly(s.procs[p], s.records, t.records) && RecordOk(t.procs[p], t.records)
  {
    match s.procs[p].at {
      case DropUser =>
      case RemoveUser =>
    }
  }

  lemma DropMachineRecord(s: State, p: nat, ok: bool)
    requires p < |s.procs| && HoldsOk(s.procs[p]) && RecordOk(s.procs[p], s.records) && 16 <= Rank(s.procs[p].at) < 20
    ensures var t := NextDrop(s, p, ok);
            && |t.procs| == |s.procs|
            && OwnRecordsOnly(s.procs[p], s.records, t.records) && RecordOk(t.procs[p], t.records)
  {
    match s.procs[p].at {
      case DropMachine =>
      case RemoveMachine =>
      case ReleaseUser =>
      case ReleaseMachine =>
    }
  }

  lemma DropKeeps(s: State, p: nat, ok: bool)
    requires Inv(s) && p < |s.procs| && 13 < Rank(s.procs[p].at) < 20
    ensures Inv(NextDrop(s, p, ok))
  {
    assert ProcOk(s.procs[p]) && FileOk(s.procs[p], s.files) && RecordOk(s.procs[p], s.records);
    var t := NextDrop(s, p, ok);
    DropGranted(s, p, ok);
    DropLocal(s, p, ok);
    DropRecords(s, p, ok);
    DropNoClearer(s, p, ok);
    NotClearYet(s, p, t.procs[p]);
    MoveKeeps(s, p, t.procs[p], t.files, t.records);
  }

  /** Looking at the user tier while a published rival is up finds the rival: its lock
      is held, so its record is read, and a successful read shows the identity. */
  lemma UserTierFindsRival(s: State, p: nat, q: nat, ok: bool)
    requires Inv(s) && p < |s.procs| && q < |s.procs| && p != q
    requires Rivals(s.procs[p], s.procs[q]) && OnUserRecord(s.procs[q])
    ensures s.procs[p].at == ProbeUser ==> NextPublish(s, p, ok).procs[p].at == ReadUser
    ensures s.procs[p].at == ReadUser && ok ==> Conflicts(NextPublish(s, p, ok).procs[p].seenUser, s.procs[p].node)
    ensures s.procs[p].at != HoldingUserProbe
  {
    var x, y := s.procs[p], s.procs[q];
    assert ProcOk(x) && ProcOk(y) && FileOk(y, s.files) && RecordOk(y, s.records);
    assert UserLock(x.user, OtherRole(x.role)) == OwnUser(y);
    assert HoldsExclusive(y, OwnUser(y)) && !HoldsAny(x, OwnUser(y));
  }

  lemma MachineTierFindsRival(s: State, p: nat, q: nat, ok: bool)
    requires Inv(s) && p < |s.procs| && q < |s.procs| && p != q
    requires MachineRivals(s.procs[p], s.procs[q]) && OnMachineRecord(s.procs[q]) && s.procs[p].can != NoMachineTier
    ensures s.procs[p].at == ProbeMachine ==> NextPublish(s, p, ok).procs[p].at == ReadMachine
    ensures s.procs[p].at == ReadMachine && ok ==> Conflicts(NextPublish(s, p, ok).procs[p].seenMachine, s.procs[p].node)
    ensures s.procs[p].at != HoldingMachineProbe
  {
    var x, y := s.procs[p], s.procs[q];
    assert ProcOk(x) && ProcOk(y) && FileOk(y, s.files) && RecordOk(y, s.records);
    assert MachineLock(OtherRole(x.role)) == OwnMachine(y);
    assert HoldsExclusive(y, OwnMachine(y)) && !HoldsAny(x, OwnMachine(y));
  }

  lemma PublishUnopposed(s: State, p: nat, ok: bool)
    requires Inv(s) && p < |s.procs| && 4 <= Rank(s.procs[p].at) < 13
    ensures NewlyClearUnopposed(s, p, NextPublish(s, p, ok).procs[p])
  {
    forall q | 0 <= q < |s.procs| && q != p
      ensures UnopposedBy(s.procs[p], NextPublish(s, p, ok).procs[p], s.procs[q])
    {
      PublishUnopposedBy(s, p, q, ok);
    }
  }

  lemma PublishUnopposedBy(s: State, p: nat, q: nat, ok: bool)
    requires Inv(s) && p < |s.procs| && q < |s.procs| && p != q && 4 <= Rank(s.procs[p].at) < 13
    ensures UnopposedBy(s.procs[p], NextPublish(s, p, ok).procs[p], s.procs[q])
  {
    assert ProcOk(s.procs[p]);
    if Rivals(s.procs[p], s.procs[q]) && OnUserRecord(s.procs[q]) {
      UserTierFindsRival(s, p, q, ok);
    }
    if MachineRivals(s.procs[p], s.procs[q]) && OnMachineRecord(s.procs[q]) && s.procs[p].machine == Some(Exclusive) {
      MachineTierFindsRival(s, p, q, ok);
    }
    NewlyClear(s, p, ok);
  }

  /** A tier becomes clear only by a step that looks there. */
  lemma NewlyClear(s: State, p: nat, ok: bool)
    requires p < |s.procs| && ProcOk(s.procs[p]) && 4 <= Rank(s.procs[p].at) < 13
    ensures var x, y := s.procs[p], NextPublish(s, p, ok).procs[p];
            && (ClearOnUser(y) && !ClearOnUser(x) ==>
                  || (x.at == ProbeUser && y.at != ReadUser)
                  || (x.at == ReadUser && ok && !Conflicts(y.seenUser, x.node)))
            && (ClearOnMachine(y) && !ClearOnMachine(x) ==>
                  x.machine == Some(Exclusive) &&
                  ((x.at == ProbeMachine && y.at != ReadMachine)
                   || (x.at == ReadMachine && ok && !Conflicts(y.seenMachine, x.node))))
            && SameStart(x, y)
  {
    match s.procs[p].at {
      case Claimed =>
      case PublishMachine =>
      case ProbeUser =>
      case HoldingUserProbe =>
      case ReadUser =>
      case ProbeMachine =>
      case HoldingMachineProbe =>
      case ReadMachine =>
      case Decide =>
    }
  }

  /** What a publication step may change in the process and the lock files. */
  ghost predicate PublishChange(s: State, p: nat, ok: bool)
    requires p < |s.procs|
  {
    var t := NextPublish(s, p, ok);
    && |t.procs| == |s.procs| && t.procs == s.procs[p := t.procs[p]] && t.files == s.files
    && SameStart(t.procs[p], s.procs[p]) && HoldsOk(t.procs[p])
    && t.procs[p].hasUser == s.procs[p].hasUser && t.procs[p].machine == s.procs[p].machine
    && (t.procs[p].probe.Some? ==> Free(s.procs, p, t.procs[p].probe.value.lock, t.procs[p].probe.value.mode))
  }

  lemma PublishWriteChange(s: State, p: nat, ok: bool)
    requires p < |s.procs| && HoldsOk(s.procs[p]) && 4 <= Rank(s.procs[p].at) < 9
    ensures PublishChange(s, p, ok)
  {
    match s.procs[p].at {
      case Claimed =>
      case PublishMachine =>
      case ProbeUser =>
      case HoldingUserProbe =>
      case ReadUser =>
    }
  }

  lemma PublishLookChange(s: State, p: nat, ok: bool)
    requires p < |s.procs| && HoldsOk(s.procs[p]) && 9 <= Rank(s.procs[p].at) < 13
    ensures PublishChange(s, p, ok)
  {
    match s.procs[p].at {
      case ProbeMachine =>
      case HoldingMachineProbe =>
      case ReadMachine =>
      case Decide =>
    }
  }

  lemma PublishWriteLog(s: State, p: nat, ok: bool)
    requires p < |s.procs| && LogOk(s.procs[p]) && 4 <= Rank(s.procs[p].at) < 9
    ensures |NextPublish(s, p, ok).procs| == |s.procs| && LogOk(NextPublish(s, p, ok).procs[p])
  {
    match s.procs[p].at {
      case Claimed =>
      case PublishMachine =>
      case ProbeUser =>
      case HoldingUserProbe =>
      case ReadUser =>
    }
  }

  lemma PublishLookLog(s: State, p: nat, ok: bool)
    requires p < |s.procs| && LogOk(s.procs[p]) && 9 <= Rank(s.procs[p].at) < 13
    ensures |NextPublish(s, p, ok).procs| == |s.procs| && LogOk(NextPublish(s, p, ok).procs[p])
  {
    match s.procs[p].at {
      case ProbeMachine =>
      case HoldingMachineProbe =>
      case ReadMachine =>
      case Decide =>
    }
  }

  lemma ProbeGranted(procs: seq<Proc>, p: nat, x: Proc)
    requires p < |procs| && SameStart(x, procs[p])
    requires x.hasUser == procs[p].hasUser && x.machine == procs[p].machine
    requires x.probe.Some? ==> Free(procs, p, x.probe.value.lock, x.probe.value.mode)
    ensures Granted(procs, p, x)
  {
  }

  lemma PublishRecords(s: State, p: nat, ok: bool)
    requires p < |s.procs| && ProcOk(s.procs[p]) && RecordOk(s.procs[p], s.records) && 4 <= Rank(s.procs[p].at) < 13
    ensures var t := NextPublish(s, p, ok);
            && |t.procs| == |s.procs|
            && OwnRecordsOnly(s.procs[p], s.records, t.records) && RecordOk(t.procs[p], t.records)
  {
    match s.procs[p].at {
      case Claimed =>
      case PublishMachine =>
      case ProbeUser =>
      case HoldingUserProbe =>
      case ReadUser =>
      case ProbeMachine =>
      case HoldingMachineProbe =>
      case ReadMachine =>
      case Decide =>
    }
  }

  lemma PublishKeeps(s: State, p: nat, ok: bool)
    requires Inv(s) && p < |s.procs| && 4 <= Rank(s.procs[p].at) < 13
    ensures Inv(NextPublish(s, p, ok))
  {
    assert ProcOk(s.procs[p]) && FileOk(s.procs[p], s.files) && RecordOk(s.procs[p], s.records);
    var t := NextPublish(s, p, ok);
    if Rank(s.procs[p].at) < 9 {
      PublishWriteChange(s, p, ok);
      PublishWriteLog(s, p, ok);
    } else {
      PublishLookChange(s, p, ok);
      PublishLookLog(s, p, ok);
    }
    ProbeGranted(s.procs, p, t.procs[p]);
    PublishRecords(s, p, ok);
    PublishUnopposed(s, p, ok);
    MoveKeeps(s, p, t.procs[p], t.files, t.records);
  }

  predicate Newcomer(x: Proc) {
    ProcOk(x) && (x.at == ClaimingUser(1) || x.at == Outside) && x.probe.None?
  }

  /** It holds nothing and is on no record. */
  lemma NewcomerHoldsNothing(x: Proc)
    requires Newcomer(x)
    ensures !x.hasUser && x.machine.None? && !OnUserRecord(x) && !OnMachineRecord(x)
    ensures forall lock :: !HoldsAny(x, lock) && !HoldsExclusive(x, lock)
  {
  }

  lemma AddKeepsCompatible(procs: seq<Proc>, x: Proc)
    requires Compatible(procs) && forall lock :: !HoldsAny(x, lock) && !HoldsExclusive(x, lock)
    ensures Compatible(procs + [x])
  {
  }

  lemma AddKeeps(s: State, x: Proc)
    requires Inv(s) && Newcomer(x)
    ensures Inv(s.(procs := s.procs + [x]))
  {
    var t := s.procs + [x];
    NewcomerHoldsNothing(x);
    AddKeepsCompatible(s.procs, x);
    forall p, q | 0 <= p < |t| && 0 <= q < |t| && p != q ensures NotBoth(t[p], t[q]) {
      if p < |s.procs| && q < |s.procs| {
        assert NotBoth(s.procs[p], s.procs[q]);
      }
    }
  }

  lemma StepKeeps(s: State, a: Action)
    requires Inv(s) && Enabled(s, a)
    ensures Inv(Apply(s, a))
  {
    match a {
      case Start(user, role, can, pid, node) =>
        AddKeeps(s, Proc(user, role, can, pid, node, ClaimingUser(1), false, None, None, None, None, NO_ACCESS));
      case StartOutsider(pid) =>
        AddKeeps(s, Proc(0, ServeRole, ReadOnly, pid, 0, Outside, false, None, None, None, None, NO_ACCESS));
      case Step(p, ok) =>
        if Rank(s.procs[p].at) < 4 {
          ClaimKeeps(s, p, ok);
        } else if Rank(s.procs[p].at) < 13 {
          PublishKeeps(s, p, ok);
        } else {
          DropKeeps(s, p, ok);
        }
      case _ => OtherKeeps(s, a);
    }
  }

  predicate IsOther(a: Action) {
    a.Fail? || a.Stop? || a.Crash? || a.OutsideTake? || a.OutsideRelease?
  }

  /** What such a step makes of the process. */
  lemma OtherMove(s: State, a: Action)
    requires Inv(s) && Enabled(s, a) && IsOther(a)
    ensures var t := Apply(s, a);
            && t == s.(procs := t.procs) && |t.procs| == |s.procs| && t.procs == s.procs[a.p := t.procs[a.p]]
            && SameStart(t.procs[a.p], s.procs[a.p]) && ProcOk(t.procs[a.p]) && FileOk(t.procs[a.p], t.files)
  {
    assert ProcOk(s.procs[a.p]) && FileOk(s.procs[a.p], s.files);
    match a {
      case Fail(p) =>
      case Stop(p) =>
      case Crash(p) =>
      case OutsideTake(p, hold) =>
      case OutsideRelease(p) =>
    }
  }

  lemma OtherRecords(s: State, a: Action)
    requires Inv(s) && Enabled(s, a) && IsOther(a)
    ensures a.p < |Apply(s, a).procs|
    ensures NoClearer(s.procs[a.p], Apply(s, a).procs[a.p]) && RecordOk(Apply(s, a).procs[a.p], s.records)
  {
    assert ProcOk(s.procs[a.p]) && RecordOk(s.procs[a.p], s.records);
    match a {
      case Fail(p) =>
      case Stop(p) =>
      case Crash(p) =>
      case OutsideTake(p, hold) =>
      case OutsideRelease(p) =>
    }
  }

  lemma OtherGranted(s: State, a: Action)
    requires Enabled(s, a) && IsOther(a)
    ensures a.p < |Apply(s, a).procs| && Granted(s.procs, a.p, Apply(s, a).procs[a.p])
  {
    match a {
      case Fail(p) =>
      case Stop(p) =>
      case Crash(p) => EndedGranted(s.procs, p);
      case OutsideTake(p, hold) =>
      case OutsideRelease(p) =>
    }
  }

  lemma OtherKeeps(s: State, a: Action)
    requires Inv(s) && Enabled(s, a) && IsOther(a)
    ensures Inv(Apply(s, a))
  {
    OtherMove(s, a);
    OtherRecords(s, a);
    OtherGranted(s, a);
    var x := Apply(s, a).procs[a.p];
    NotClearYet(s, a.p, x);
    MoveKeeps(s, a.p, x, s.files, s.records);
  }

  lemma {:induction false} RunKeeps(actions: seq<Action>)
    requires After(actions).Some?
    ensures Inv(After(actions).value)
  {
    if actions != [] {
      RunKeeps(actions[..|actions| - 1]);
      StepKeeps(After(actions[..|actions| - 1]).value, actions[|actions| - 1]);
    }
  }

  // ---------------------------------------------------------------- theorems

  /** One process per role and user: two owners of the same role in the same user
      directory are the same process. */
  lemma {:induction false} RoleHeldOnce(actions: seq<Action>, p: nat, q: nat)
    requires After(actions).Some?
    requires p < |After(actions).value.procs| && q < |After(actions).value.procs|
    requires var x, y := After(actions).value.procs[p], After(actions).value.procs[q];
             x.hasUser && y.hasUser && x.user == y.user && x.role == y.role
    ensures p == q
  {
    RunKeeps(actions);
    if p != q {
      RecordHasOneWriter(After(actions).value.procs, p, q);
    }
  }

  /** A process that runs its role owns it, and an exclusive machine holder is the
      only holder of that machine lock, probes included. */
  lemma {:induction false} MachineHolderIsAlone(actions: seq<Action>, p: nat, q: nat)
    requires After(actions).Some?
    requires p < |After(actions).value.procs| && q < |After(actions).value.procs| && p != q
    ensures var x, y := After(actions).value.procs[p], After(actions).value.procs[q];
            && (Established(x.at) ==> x.hasUser)
            && (x.machine == Some(Exclusive) ==> !HoldsAny(y, MachineLock(x.role)))
  {
    RunKeeps(actions);
    var s := After(actions).value;
    assert ProcOk(s.procs[p]);
    if s.procs[p].machine == Some(Exclusive) {
      assert HoldsExclusive(s.procs[p], MachineLock(s.procs[p].role));
    }
  }

  /** It has looked for its identity on the user tier, found no conflict, and has not
      removed its own record since. */
  predicate PastUserCheck(x: Proc) {
    7 <= Rank(x.at) <= 15 && x.log.gotUser != Undone && !Conflicts(x.seenUser, x.node)
  }

  predicate PastMachineCheck(x: Proc) {
    10 <= Rank(x.at) <= 17 && x.log.gotMachine != Undone && !Conflicts(x.seenMachine, x.node)
  }

  predicate UserAccessesOk(x: Proc) {
    x.log.putUser == Done && x.log.gotUser != Broken
  }

  predicate MachineAccessesOk(x: Proc) {
    x.log.putMachine == Done && x.log.gotMachine != Broken
  }

  /** It is past the check of a tier, and its accesses to the records there succeeded. */
  predicate ClearedUser(x: Proc) {
    PastUserCheck(x) && UserAccessesOk(x)
  }

  predicate ClearedMachine(x: Proc) {
    PastMachineCheck(x) && MachineAccessesOk(x)
  }

  /** Whoever runs is past the checks. */
  lemma {:induction false} RunningIsPastChecks(actions: seq<Action>, p: nat)
    requires After(actions).Some? && p < |After(actions).value.procs|
    requires After(actions).value.procs[p].at == Running
    ensures PastUserCheck(After(actions).value.procs[p]) && PastMachineCheck(After(actions).value.procs[p])
  {
    RunKeeps(actions);
    assert ProcOk(After(actions).value.procs[p]);
  }

  /** Two processes of one user with one public identity in the two roles never both
      get past the check, up to the removal of their records, when the accesses to
      the records of that tier succeeded: one of them finds the other. */
  lemma {:induction false} NoTwinsInOneDirectory(actions: seq<Action>, p: nat, q: nat)
    requires After(actions).Some?
    requires p < |After(actions).value.procs| && q < |After(actions).value.procs|
    requires Rivals(After(actions).value.procs[p], After(actions).value.procs[q])
    ensures var x, y := After(actions).value.procs[p], After(actions).value.procs[q];
            !(ClearedUser(x) && ClearedUser(y))
  {
    RunKeeps(actions);
    var s := After(actions).value;
    assert NotBoth(s.procs[p], s.procs[q]) && ProcOk(s.procs[p]) && ProcOk(s.procs[q]);
  }

  /** The same for two exclusive holders of the machine tier, of any users, and the
      accesses to the records of that tier. */
  lemma {:induction false} NoTwinsOnTheMachine(actions: seq<Action>, p: nat, q: nat)
    requires After(actions).Some?
    requires p < |After(actions).value.procs| && q < |After(actions).value.procs|
    requires MachineRivals(After(actions).value.procs[p], After(actions).value.procs[q])
    requires After(actions).value.procs[p].machine == Some(Exclusive) && After(actions).value.procs[q].machine == Some(Exclusive)
    ensures var x, y := After(actions).value.procs[p], After(actions).value.procs[q];
            !(ClearedMachine(x) && ClearedMachine(y))
  {
    RunKeeps(actions);
    var s := After(actions).value;
    assert NotBoth(s.procs[p], s.procs[q]) && ProcOk(s.procs[p]) && ProcOk(s.procs[q]);
  }

  /** Processes from number `n` on that own role `r` and have a machine tier hold its
      lock there. */
  ghost predicate LateHold(s: State, n: nat, r: Role) {
    && MachineLock(r) in s.files
    && forall p :: n <= p < |s.procs| ==> LateOk(s.procs[p], r)
  }

  predicate LateOk(x: Proc, r: Role) {
    x.role == r && x.can != NoMachineTier && 2 <= Rank(x.at) <= 13 ==> x.machine.Some?
  }

  lemma NextLateHold(s: State, p: nat, ok: bool, r: Role)
    requires p < |s.procs| && Rank(s.procs[p].at) < 20 && s.procs[p].at != Running
    requires MachineLock(r) in s.files && LateOk(s.procs[p], r)
    ensures |Next(s, p, ok).procs| == |s.procs| && LateOk(Next(s, p, ok).procs[p], r)
  {
    match s.procs[p].at {
      case ClaimingUser(_) =>
      case ClaimingMachine(_) =>
      case RecordUser =>
      case RecordMachine =>
      case _ => LaterLateHold(s, p, ok);
    }
  }

  /** After its claim a process keeps its machine hold until it ends. */
  lemma LaterLateHold(s: State, p: nat, ok: bool)
    requires p < |s.procs| && 4 <= Rank(s.procs[p].at) < 20 && s.procs[p].at != Running
    ensures var x, t := s.procs[p], Next(s, p, ok);
            && |t.procs| == |s.procs|
            && 5 <= Rank(t.procs[p].at)
            && (Rank(t.procs[p].at) <= 13 ==> Rank(x.at) <= 12 && t.procs[p].machine == x.machine && t.procs[p].can == x.can && t.procs[p].role == x.role)
  {
    if 13 < Rank(s.procs[p].at) {
      DropGoesOn(s, p, ok);
    } else {
      PublishLateHold(s, p, ok);
    }
  }

  lemma PublishLateHold(s: State, p: nat, ok: bool)
    requires p < |s.procs| && 4 <= Rank(s.procs[p].at) < 13
    ensures var x, t := s.procs[p], NextPublish(s, p, ok);
            && |t.procs| == |s.procs| && 5 <= Rank(t.procs[p].at)
            && t.procs[p].machine == x.machine && t.procs[p].can == x.can && t.procs[p].role == x.role
  {
    match s.procs[p].at {
      case Claimed =>
      case PublishMachine =>
      case ProbeUser =>
      case HoldingUserProbe =>
      case ReadUser =>
      case ProbeMachine =>
      case HoldingMachineProbe =>
      case ReadMachine =>
      case Decide =>
    }
  }

  lemma StepLateHold(s: State, a: Action, n: nat, r: Role)
    requires LateHold(s, n, r) && n <= |s.procs| && Enabled(s, a)
    ensures LateHold(Apply(s, a), n, r) && n <= |Apply(s, a).procs|
  {
    var t := Apply(s, a);
    if a.Step? {
      NextKeepsOthers(s, a.p, a.ok, r);
      if a.p >= n {
        NextLateHold(s, a.p, a.ok, r);
      }
    }
  }

  lemma NextKeepsOthers(s: State, p: nat, ok: bool, r: Role)
    requires p < |s.procs| && MachineLock(r) in s.files
    ensures var t := Next(s, p, ok);
            MachineLock(r) in t.files && |t.procs| == |s.procs| && t.procs == s.procs[p := t.procs[p]]
  {
    match s.procs[p].at {
      case ClaimingUser(_) =>
      case ClaimingMachine(_) =>
      case _ =>
    }
  }

  lemma {:induction false} RunLateHold(before: seq<Action>, more: seq<Action>, r: Role)
    requires After(before + more).Some?
    ensures After(before).Some?
    ensures MachineLock(r) in After(before).value.files ==>
              && |After(before).value.procs| <= |After(before + more).value.procs|
              && LateHold(After(before + more).value, |After(before).value.procs|, r)
  {
    if more == [] {
      assert before + more == before;
    } else {
      var shorter := more[..|more| - 1];
      assert (before + more)[..|before + more| - 1] == before + shorter;
      RunLateHold(before, shorter, r);
      if MachineLock(r) in After(before).value.files {
        StepLateHold(After(before + shorter).value, more[|more| - 1], |After(before).value.procs|, r);
      }
    }
  }

  /** Once the lock file of a role is on the machine tier, whoever starts later with
      access to that tier and comes to own the role holds the lock, so it never owns
      the role beside an exclusive holder. */
  lemma {:induction false} LatecomersHoldTheMachineLock(before: seq<Action>, more: seq<Action>, p: nat, q: nat)
    requires After(before).Some? && After(before + more).Some?
    requires |After(before).value.procs| <= p < |After(before + more).value.procs|
    requires q < |After(before + more).value.procs| && p != q
    requires var x := After(before + more).value.procs[p];
             && MachineLock(x.role) in After(before).value.files
             && x.can != NoMachineTier && Established(x.at)
    ensures var x, y := After(before + more).value.procs[p], After(before + more).value.procs[q];
            && x.machine.Some?
            && (y.role == x.role ==> y.machine != Some(Exclusive))
  {
    var x := After(before + more).value.procs[p];
    RunLateHold(before, more, x.role);
    assert LateOk(x, x.role);
    MachineHolderIsAlone(before + more, q, p);
  }

  // ----------------------------------------- runs outside those conditions

  /** Extend a concrete run by one step. */
  lemma Extend(actions: seq<Action>, s: State, a: Action) returns (longer: seq<Action>, t: State)
    requires After(actions) == Some(s) && Enabled(s, a)
    ensures t == Apply(s, a) && After(longer) == Some(t) && actions <= longer
  {
    longer, t := actions + [a], Apply(s, a);
    assert longer[..|longer| - 1] == actions && longer[|longer| - 1] == a;
    LastStep(longer, s);
  }

  lemma {:induction false} LastStep(run: seq<Action>, s: State)
    requires run != [] && After(run[..|run| - 1]) == Some(s) && Enabled(s, run[|run| - 1])
    ensures After(run) == Some(Apply(s, run[|run| - 1]))
  {
  }

  lemma UserLockRun(actions: seq<Action>, s: State, p: nat) returns (run: seq<Action>, t: State)
    requires After(actions) == Some(s) && p < |s.procs| && s.procs[p].at == ClaimingUser(1)
    requires Free(s.procs, p, OwnUser(s.procs[p]), Exclusive)
    ensures After(run) == Some(t) && actions <= run
    ensures var x := s.procs[p];
            t == State(s.procs[p := x.(at := ClaimingMachine(1), hasUser := true)], s.files + {OwnUser(x)}, s.records)
  {
    run, t := Extend(actions, s, Step(p, true));
  }

  /** The machine tier gives the hold its capability and the lock file allow. */
  predicate MachineHold(s: State, x: Proc, machine: Option<Mode>) {
    match machine
    case None => x.can == NoMachineTier || (x.can == ReadOnly && OwnMachine(x) !in s.files)
    case Some(Shared) => x.can == ReadOnly && OwnMachine(x) in s.files
    case Some(Exclusive) => x.can == Writable
  }

  lemma MachineLockRun(actions: seq<Action>, s: State, p: nat, machine: Option<Mode>) returns (run: seq<Action>, t: State)
    requires After(actions) == Some(s) && p < |s.procs| && s.procs[p].at == ClaimingMachine(1)
    requires MachineHold(s, s.procs[p], machine) && s.procs[p].machine.None?
    requires machine.Some? ==> Free(s.procs, p, OwnMachine(s.procs[p]), machine.value)
    ensures After(run) == Some(t) && actions <= run
    ensures var x := s.procs[p];
            t == State(s.procs[p := x.(at := RecordUser, machine := machine)],
                       s.files + (if machine == Some(Exclusive) then {OwnMachine(x)} else {}), s.records)
  {
    run, t := Extend(actions, s, Step(p, true));
  }

  /** Both locks taken without resistance, with the hold the situation gives. */
  lemma LockRun(actions: seq<Action>, s: State, p: nat, machine: Option<Mode>) returns (run: seq<Action>, t: State)
    requires After(actions) == Some(s) && p < |s.procs| && s.procs[p].at == ClaimingUser(1)
    requires Free(s.procs, p, OwnUser(s.procs[p]), Exclusive)
    requires MachineHold(s, s.procs[p], machine) && s.procs[p].machine.None?
    requires machine.Some? ==> Free(s.procs, p, OwnMachine(s.procs[p]), machine.value)
    ensures After(run) == Some(t) && actions <= run
    ensures var x := s.procs[p];
            t == State(s.procs[p := x.(at := RecordUser, hasUser := true, machine := machine)],
                       s.files + {OwnUser(x)} + (if machine == Some(Exclusive) then {OwnMachine(x)} else {}),
                       s.records)
  {
    run, t := UserLockRun(actions, s, p);
    run, t := MachineLockRun(run, t, p, machine);
  }

  /** An unopposed claim, up to the records it replaces. */
  lemma ClaimRun(actions: seq<Action>, s: State, p: nat, machine: Option<Mode>) returns (run: seq<Action>, t: State)
    requires After(actions) == Some(s) && p < |s.procs| && s.procs[p].at == ClaimingUser(1)
    requires Free(s.procs, p, OwnUser(s.procs[p]), Exclusive)
    requires MachineHold(s, s.procs[p], machine) && s.procs[p].machine.None?
    requires machine.Some? ==> Free(s.procs, p, OwnMachine(s.procs[p]), machine.value)
    ensures After(run) == Some(t) && actions <= run
    ensures var x := s.procs[p];
            && t.procs == s.procs[p := x.(at := Claimed, hasUser := true, machine := machine)]
            && t.files == s.files + {OwnUser(x)} + (if machine == Some(Exclusive) then {OwnMachine(x)} else {})
            && t.records == s.records[OwnUser(x) := Record(x.pid, None)]
                            + (if machine == Some(Exclusive) then map[OwnMachine(x) := Record(x.pid, None)] else map[])
  {
    var x := s.procs[p];
    run, t := LockRun(actions, s, p, machine);
    run, t := Extend(run, t, Step(p, true));
    assert t.procs == s.procs[p := x.(at := RecordMachine, hasUser := true, machine := machine)];
    run, t := Extend(run, t, Step(p, true));
  }

  /** The log after both writes, of which the machine tier needs one only under an
      exclusive hold. */
  function Written(x: Proc, ok: bool): Accesses {
    if x.machine == Some(Exclusive) then x.log.(putUser := Went(ok), putMachine := Went(ok)) else x.log.(putUser := Went(ok))
  }

  /** The identity goes on record, unless the writes fail. */
  lemma WriteRun(actions: seq<Action>, s: State, p: nat, ok: bool) returns (run: seq<Action>, t: State)
    requires After(actions) == Some(s) && p < |s.procs| && s.procs[p].at == Claimed
    ensures After(run) == Some(t) && actions <= run
    ensures var x := s.procs[p]; t.procs == s.procs[p := x.(at := ProbeUser, log := Written(x, ok))] && t.files == s.files
    ensures !ok ==> t.records == s.records
    ensures ok ==> var x := s.procs[p];
                   t.records == s.records[OwnUser(x) := Record(x.pid, Some(x.node))]
                                + (if x.machine == Some(Exclusive) then map[OwnMachine(x) := Record(x.pid, Some(x.node))] else map[])
  {
    var x := s.procs[p];
    run, t := Extend(actions, s, Step(p, ok));
    assert t.procs == s.procs[p := x.(at := PublishMachine, log := x.log.(putUser := Went(ok)))] && t.files == s.files;
    run, t := Extend(run, t, Step(p, ok));
  }

  lemma PassAbsentUserTier(actions: seq<Action>, s: State, p: nat) returns (run: seq<Action>, t: State)
    requires After(actions) == Some(s) && p < |s.procs| && s.procs[p].at == ProbeUser
    requires UserLock(s.procs[p].user, OtherRole(s.procs[p].role)) !in s.files
    ensures After(run) == Some(t) && actions <= run
    ensures var x := s.procs[p]; t == s.(procs := s.procs[p := x.(at := ProbeMachine, log := x.log.(gotUser := NotNeeded))])
  {
    run, t := Extend(actions, s, Step(p, true));
  }

  /** A look at the other role that finds none of its lock files. */
  lemma LookRun(actions: seq<Action>, s: State, p: nat) returns (run: seq<Action>, t: State)
    requires After(actions) == Some(s) && p < |s.procs| && s.procs[p].at == ProbeUser
    requires UserLock(s.procs[p].user, OtherRole(s.procs[p].role)) !in s.files
    requires MachineLock(OtherRole(s.procs[p].role)) !in s.files
    requires s.procs[p].seenUser.None? && s.procs[p].seenMachine.None?
    ensures After(run) == Some(t) && actions <= run
    ensures var x := s.procs[p];
            t == s.(procs := s.procs[p := x.(at := Running, log := x.log.(gotUser := NotNeeded, gotMachine := NotNeeded))])
  {
    run, t := PassAbsentUserTier(actions, s, p);
    run, t := DecideRun(run, t, p);
  }

  /** The user lock is held, so the record behind it is read. */
  lemma ReadHeldRun(actions: seq<Action>, s: State, p: nat, ok: bool) returns (run: seq<Action>, t: State)
    requires After(actions) == Some(s) && p < |s.procs| && s.procs[p].at == ProbeUser
    requires var lock := UserLock(s.procs[p].user, OtherRole(s.procs[p].role));
             lock in s.files && !Free(s.procs, p, lock, Shared)
    ensures After(run) == Some(t)
    ensures var x := s.procs[p];
            t == s.(procs := s.procs[p := x.(at := ProbeMachine, log := x.log.(gotUser := Went(ok)),
                                            seenUser := Lookup(s, UserLock(x.user, OtherRole(x.role)), ok))])
  {
    run, t := FindHeldRun(actions, s, p);
    run, t := Extend(run, t, Step(p, ok));
  }

  lemma FindHeldRun(actions: seq<Action>, s: State, p: nat) returns (run: seq<Action>, t: State)
    requires After(actions) == Some(s) && p < |s.procs| && s.procs[p].at == ProbeUser
    requires var lock := UserLock(s.procs[p].user, OtherRole(s.procs[p].role));
             lock in s.files && !Free(s.procs, p, lock, Shared)
    ensures After(run) == Some(t) && t == s.(procs := s.procs[p := s.procs[p].(at := ReadUser)])
  {
    run, t := Extend(actions, s, Step(p, true));
  }

  /** With nothing on the machine tier to look at, a process with no conflict goes on to run. */
  lemma DecideRun(actions: seq<Action>, s: State, p: nat) returns (run: seq<Action>, t: State)
    requires After(actions) == Some(s) && p < |s.procs| && s.procs[p].at == ProbeMachine
    requires s.procs[p].can == NoMachineTier || MachineLock(OtherRole(s.procs[p].role)) !in s.files
    requires !Conflicts(s.procs[p].seenUser, s.procs[p].node) && s.procs[p].seenMachine.None?
    ensures After(run) == Some(t) && actions <= run
    ensures var x := s.procs[p];
            t == s.(procs := s.procs[p := x.(at := Running, log := x.log.(gotMachine := NotNeeded))])
  {
    var x := s.procs[p];
    run, t := Extend(actions, s, Step(p, true));
    assert t == s.(procs := s.procs[p := x.(at := Decide, log := x.log.(gotMachine := NotNeeded))]);
    run, t := Extend(run, t, Step(p, true));
  }

  lemma StartRun(actions: seq<Action>, s: State, x: Proc) returns (run: seq<Action>, t: State)
    requires After(actions) == Some(s)
    requires x == Proc(x.user, x.role, x.can, x.pid, x.node, ClaimingUser(1), false, None, None, None, None, NO_ACCESS)
    requires Enabled(s, Start(x.user, x.role, x.can, x.pid, x.node))
    ensures After(run) == Some(t) && actions <= run && t == s.(procs := s.procs + [x])
  {
    run, t := Extend(actions, s, Start(x.user, x.role, x.can, x.pid, x.node));
  }

  function Fresh(user: nat, role: Role, can: Capability, pid: nat): Proc {
    Proc(user, role, can, pid, 7, ClaimingUser(1), false, None, None, None, None, NO_ACCESS)
  }

  /** The first of two: it claims, writes its record or fails to, finds nobody, runs. */
  function FirstTwin(first: Role, wrote: bool): Proc {
    Fresh(0, first, NoMachineTier, 1).(at := Running, hasUser := true, log := Accesses(Went(wrote), NotNeeded, Undone, NotNeeded))
  }

  lemma FirstTwinRuns(first: Role, wrote: bool) returns (run: seq<Action>, s: State)
    ensures After(run) == Some(s) && s.files == {UserLock(0, first)}
    ensures s.procs == [FirstTwin(first, wrote)]
    ensures s.records == map[UserLock(0, first) := Record(1, if wrote then Some(7) else None)]
  {
    run, s := FirstTwinClaims(first);
    run, s := WriteRun(run, s, 0, wrote);
    run, s := LookRun(run, s, 0);
  }

  lemma FirstTwinClaims(first: Role) returns (run: seq<Action>, s: State)
    ensures After(run) == Some(s) && s.files == {UserLock(0, first)}
    ensures s.procs == [Fresh(0, first, NoMachineTier, 1).(at := Claimed, hasUser := true)]
    ensures s.records == map[UserLock(0, first) := Record(1, None)]
  {
    run, s := StartRun([], INITIAL, Fresh(0, first, NoMachineTier, 1));
    run, s := ClaimRun(run, s, 0, None);
  }

  /** The second, up to the point where it looks for the first. */
  lemma SecondTwinLooks(actions: seq<Action>, s: State, first: Role, x: Proc, wrote: bool) returns (run: seq<Action>, t: State)
    requires After(actions) == Some(s) && s.files == {UserLock(0, first)} && s.procs == [x]
    requires x.pid == 1 && x.user == 0 && x.role == first && x.machine.None? && x.probe.None? && x.at != Dead
    ensures After(run) == Some(t)
    ensures t.procs == [x, Fresh(0, OtherRole(first), NoMachineTier, 2)
                             .(at := ProbeUser, hasUser := true, log := NO_ACCESS.(putUser := Went(wrote)))]
    ensures t.files == {UserLock(0, first), UserLock(0, OtherRole(first))}
    ensures forall lock :: lock != UserLock(0, OtherRole(first)) ==> Lookup(t, lock, true) == Lookup(s, lock, true)
  {
    run, t := StartRun(actions, s, Fresh(0, OtherRole(first), NoMachineTier, 2));
    run, t := ClaimRun(run, t, 1, None);
    run, t := WriteRun(run, t, 1, wrote);
  }

  /** The second reads the first one's record; unless both that read and the first
      one's write succeed, it runs as well. */
  lemma SecondTwinRuns(first: Role, wrote: bool, secondWrote: bool, secondRead: bool) returns (run: seq<Action>, s: State)
    requires !wrote || !secondRead
    ensures After(run) == Some(s) && |s.procs| == 2
    ensures s.procs[0] == FirstTwin(first, wrote)
    ensures s.procs[1].at == Running && s.procs[1].user == 0 && s.procs[1].role == OtherRole(first) && s.procs[1].node == 7
    ensures s.procs[1].log.putUser == Went(secondWrote) && s.procs[1].log.gotUser == Went(secondRead)
  {
    run, s := FirstTwinRuns(first, wrote);
    assert Lookup(s, UserLock(0, first), true) == Some(Record(1, if wrote then Some(7) else None));
    run, s := SecondTwinLooks(run, s, first, FirstTwin(first, wrote), secondWrote);
    assert HoldsExclusive(s.procs[0], UserLock(0, first));
    run, s := ReadHeldRun(run, s, 1, secondRead);
    run, s := DecideRun(run, s, 1);
  }

  /** The accesses a process needed went like this. */
  predicate WentLike(x: Proc, put: bool, got: bool) {
    x.log.putUser == Went(put) && (x.log.gotUser == NotNeeded || x.log.gotUser == Went(got))
  }

  /** A run in which Serve is process `p`, Access is process `q`, both run with one
      identity in one user directory, and their user-tier accesses went as given. */
  ghost predicate TwinsRun(actions: seq<Action>, p: nat, q: nat, putP: bool, gotP: bool, putQ: bool, gotQ: bool) {
    && After(actions).Some?
    && var s := After(actions).value;
       && p < |s.procs| && q < |s.procs|
       && s.procs[p].at == Running && s.procs[q].at == Running
       && s.procs[p].role == ServeRole && Rivals(s.procs[p], s.procs[q])
       && WentLike(s.procs[p], putP, gotP) && WentLike(s.procs[q], putQ, gotQ)
  }

  /** Exactly when two of one user can run with one identity: some access to the user
      tier's records fails. Whichever of the four it is, a run shows it. */
  lemma TwinsCanRunIff(putP: bool, gotP: bool, putQ: bool, gotQ: bool)
    ensures (exists actions, p, q :: TwinsRun(actions, p, q, putP, gotP, putQ, gotQ)) <==> !(putP && gotP && putQ && gotQ)
  {
    if actions, p, q :| TwinsRun(actions, p, q, putP, gotP, putQ, gotQ) {
      RunningIsPastChecks(actions, p);
      RunningIsPastChecks(actions, q);
      NoTwinsInOneDirectory(actions, p, q);
    }
    if !putP || !gotQ {
      var run, s := SecondTwinRuns(ServeRole, putP, putQ, gotQ);
      assert TwinsRun(run, 0, 1, putP, gotP, putQ, gotQ);
    } else if !putQ || !gotP {
      var run, s := SecondTwinRuns(AccessRole, putQ, putP, gotP);
      assert TwinsRun(run, 1, 0, putP, gotP, putQ, gotQ);
    }
  }

  /** The protection ends with the record, not with the lock: a process that stops has
      removed its record and still holds its lock while its twin, with every access
      successful, gets past the check. */
  lemma TwinRunsWhileTheOtherStops(first: Role) returns (run: seq<Action>, s: State)
    ensures After(run) == Some(s) && |s.procs| == 2 && Rivals(s.procs[0], s.procs[1])
    ensures s.procs[0].at == DropMachine && s.procs[0].hasUser && s.procs[1].at == Running
    ensures UserAccessesOk(s.procs[0]) && UserAccessesOk(s.procs[1])
  {
    run, s := StoppingTwin(first);
    run, s := SecondTwinLooks(run, s, first, FirstTwin(first, true).(at := DropMachine), true);
    assert HoldsExclusive(s.procs[0], UserLock(0, first));
    run, s := ReadHeldRun(run, s, 1, true);
    run, s := DecideRun(run, s, 1);
  }

  lemma StoppingTwin(first: Role) returns (run: seq<Action>, s: State)
    ensures After(run) == Some(s) && s.files == {UserLock(0, first)}
    ensures s.procs == [FirstTwin(first, true).(at := DropMachine)]
    ensures Lookup(s, UserLock(0, first), true) == None
  {
    run, s := FirstTwinRuns(first, true);
    run, s := Extend(run, s, Stop(0));
    assert s.procs == [FirstTwin(first, true).(at := DropUser)];
    run, s := RemoveRecordRun(run, s, 0);
    assert s.procs == [FirstTwin(first, true).(at := DropMachine)];
  }

  /** A stopping process whose record still names it removes the record. */
  lemma RemoveRecordRun(actions: seq<Action>, s: State, p: nat) returns (run: seq<Action>, t: State)
    requires After(actions) == Some(s) && p < |s.procs| && s.procs[p].at == DropUser
    requires OwnUser(s.procs[p]) in s.records && s.records[OwnUser(s.procs[p])].pid == s.procs[p].pid
    ensures After(run) == Some(t)
    ensures t == State(s.procs[p := s.procs[p].(at := DropMachine)], s.files, s.records - {OwnUser(s.procs[p])})
  {
    run, t := FindOwnRecordRun(actions, s, p);
    RemovalIs(t, p);
    run, t := Extend(run, t, Step(p, true));
  }

  lemma RemovalIs(s: State, p: nat)
    requires p < |s.procs| && s.procs[p].at == RemoveUser
    ensures Enabled(s, Step(p, true))
    ensures Apply(s, Step(p, true)) == State(s.procs[p := s.procs[p].(at := DropMachine)], s.files, s.records - {OwnUser(s.procs[p])})
  {
  }

  lemma FindOwnRecordRun(actions: seq<Action>, s: State, p: nat) returns (run: seq<Action>, t: State)
    requires After(actions) == Some(s) && p < |s.procs| && s.procs[p].at == DropUser
    requires OwnUser(s.procs[p]) in s.records && s.records[OwnUser(s.procs[p])].pid == s.procs[p].pid
    ensures After(run) == Some(t) && t == s.(procs := s.procs[p := s.procs[p].(at := RemoveUser)])
  {
    run, t := Extend(actions, s, Step(p, true));
  }

  /** In particular after a failed write. */
  lemma TwinsRunAfterFailedWrite() returns (run: seq<Action>, s: State)
    ensures After(run) == Some(s) && |s.procs| == 2
    ensures s.procs[0].at == Running && s.procs[1].at == Running && Rivals(s.procs[0], s.procs[1])
    ensures s.procs[0].log.putUser == Broken && UserAccessesOk(s.procs[1])
  {
    run, s := SecondTwinRuns(ServeRole, false, true, true);
  }

  /** No record access of the publication failed. */
  predicate AllAccessesOk(x: Proc) {
    UserAccessesOk(x) && x.log.putMachine != Broken && x.log.gotMachine != Broken
  }

  /** A user process that finds no machine lock file claims, publishes and runs. */
  function UserRunning(role: Role, can: Capability): Proc {
    Fresh(1, role, can, 1).(at := Running, hasUser := true, log := Accesses(Done, NotNeeded, Undone, NotNeeded))
  }

  lemma UserRuns(role: Role, can: Capability) returns (run: seq<Action>, s: State)
    requires can != Writable
    ensures After(run) == Some(s) && s.files == {UserLock(1, role)} && s.procs == [UserRunning(role, can)]
  {
    run, s := StartRun([], INITIAL, Fresh(1, role, can, 1));
    run, s := ClaimRun(run, s, 0, None);
    run, s := WriteRun(run, s, 0, true);
    run, s := LookRun(run, s, 0);
  }

  lemma SystemClaims(actions: seq<Action>, s: State, role: Role, can: Capability, system: Role)
    returns (run: seq<Action>, t: State)
    requires After(actions) == Some(s) && s.files == {UserLock(1, role)} && s.procs == [UserRunning(role, can)]
    ensures After(run) == Some(t) && actions <= run
    ensures t.procs == [UserRunning(role, can), Fresh(0, system, Writable, 2).(at := Claimed, hasUser := true, machine := Some(Exclusive))]
    ensures t.files == {UserLock(1, role), UserLock(0, system), MachineLock(system)}
  {
    run, t := StartRun(actions, s, Fresh(0, system, Writable, 2));
    run, t := ClaimRun(run, t, 1, Some(Exclusive));
  }

  /** A user process that found no machine lock file holds nothing on that tier: the
      system process that starts next runs beside it, in the same role or in the other
      one with the same identity, though every record access of both succeeded. When
      processes of different users can do so in general is said in `MachineTwins`. */
  lemma UnseenUserRunsBesideSystem(role: Role) returns (run: seq<Action>, s: State)
    ensures After(run) == Some(s) && |s.procs| == 2
    ensures s.procs[0] == UserRunning(role, ReadOnly)
    ensures s.procs[1].at == Running && s.procs[1].role == ServeRole && s.procs[1].machine == Some(Exclusive)
    ensures s.procs[1].user == 0 && s.procs[1].node == s.procs[0].node
    ensures AllAccessesOk(s.procs[0]) && AllAccessesOk(s.procs[1])
  {
    run, s := UserRuns(role, ReadOnly);
    run, s := SystemClaims(run, s, role, ReadOnly, ServeRole);
    run, s := WriteRun(run, s, 1, true);
    run, s := LookRun(run, s, 1);
  }

  /** A crashed system process leaves the machine lock file behind, unlocked. */
  lemma LockFileRemains() returns (run: seq<Action>, s: State)
    ensures After(run) == Some(s) && MachineLock(ServeRole) in s.files
    ensures s.procs == [Ended(Fresh(0, ServeRole, Writable, 1))]
  {
    run, s := StartRun([], INITIAL, Fresh(0, ServeRole, Writable, 1));
    run, s := ClaimRun(run, s, 0, Some(Exclusive));
    run, s := Extend(run, s, Crash(0));
  }

  /** A user process claims its role with a shared hold of a machine lock file that
      is there. */
  lemma SharedClaimRun(actions: seq<Action>, s: State, user: nat, pid: nat) returns (run: seq<Action>, t: State)
    requires After(actions) == Some(s) && MachineLock(ServeRole) in s.files
    requires Enabled(s, Start(user, ServeRole, ReadOnly, pid, 7))
    requires forall q :: 0 <= q < |s.procs| ==>
                           !HoldsAny(s.procs[q], UserLock(user, ServeRole)) && !HoldsExclusive(s.procs[q], MachineLock(ServeRole))
    ensures After(run) == Some(t) && MachineLock(ServeRole) in t.files
    ensures t.procs == s.procs + [SharedHolder(user, pid)]
  {
    run, t := StartRun(actions, s, Fresh(user, ServeRole, ReadOnly, pid));
    run, t := ClaimRun(run, t, |s.procs|, Some(Shared));
  }

  function SharedHolder(user: nat, pid: nat): Proc {
    Fresh(user, ServeRole, ReadOnly, pid).(at := Claimed, hasUser := true, machine := Some(Shared))
  }

  lemma FirstSharedHolderAdmitted(s: State)
    requires s.procs == [Ended(Fresh(0, ServeRole, Writable, 1))]
    ensures Enabled(s, Start(1, ServeRole, ReadOnly, 2, 7))
    ensures forall q :: 0 <= q < |s.procs| ==>
                           !HoldsAny(s.procs[q], UserLock(1, ServeRole)) && !HoldsExclusive(s.procs[q], MachineLock(ServeRole))
  {
  }

  lemma SharedHolderAdmits(s: State)
    requires s.procs == [Ended(Fresh(0, ServeRole, Writable, 1)), SharedHolder(1, 2)]
    ensures Enabled(s, Start(2, ServeRole, ReadOnly, 3, 7))
    ensures forall q :: 0 <= q < |s.procs| ==>
                           !HoldsAny(s.procs[q], UserLock(2, ServeRole)) && !HoldsExclusive(s.procs[q], MachineLock(ServeRole))
  {
  }

  /** Shared holders of different users coexist on one machine lock. */
  lemma {:induction false} SharedHoldersCoexist() returns (run: seq<Action>, s: State)
    ensures After(run) == Some(s) && |s.procs| == 3
    ensures Established(s.procs[1].at) && Established(s.procs[2].at) && s.procs[1].role == s.procs[2].role
    ensures s.procs[1].machine == Some(Shared) && s.procs[2].machine == Some(Shared)
  {
    run, s := LockFileRemains();
    FirstSharedHolderAdmitted(s);
    run, s := SharedClaimRun(run, s, 1, 2);
    SharedHolderAdmits(s);
    run, s := SharedClaimRun(run, s, 2, 3);
  }

  /** The system process of the other role crashed after its claim. */
  lemma AccessLockFileRemains() returns (run: seq<Action>, s: State)
    ensures After(run) == Some(s) && s.procs == [Ended(Fresh(0, AccessRole, Writable, 1))]
    ensures s.files == {UserLock(0, AccessRole), MachineLock(AccessRole)}
    ensures Lookup(s, MachineLock(AccessRole), true) == Some(Record(1, None))
  {
    run, s := StartRun([], INITIAL, Fresh(0, AccessRole, Writable, 1));
    run, s := ClaimRun(run, s, 0, Some(Exclusive));
    run, s := Extend(run, s, Crash(0));
  }

  function SharedRunning(): Proc {
    Fresh(1, AccessRole, ReadOnly, 2)
      .(at := Running, hasUser := true, machine := Some(Shared), log := Accesses(Done, NotNeeded, Undone, NotNeeded))
  }

  lemma SharedHolderClaims() returns (run: seq<Action>, s: State)
    ensures After(run) == Some(s)
    ensures s.procs == [Ended(Fresh(0, AccessRole, Writable, 1)),
                        Fresh(1, AccessRole, ReadOnly, 2).(at := Claimed, hasUser := true, machine := Some(Shared))]
    ensures s.files == {UserLock(0, AccessRole), MachineLock(AccessRole), UserLock(1, AccessRole)}
    ensures Lookup(s, MachineLock(AccessRole), true) == Some(Record(1, None))
  {
    run, s := AccessLockFileRemains();
    run, s := StartRun(run, s, Fresh(1, AccessRole, ReadOnly, 2));
    run, s := ClaimRun(run, s, 1, Some(Shared));
  }

  /** A user process then holds the machine lock shared, and publishes no record there. */
  lemma SharedHolderRuns() returns (run: seq<Action>, s: State)
    ensures After(run) == Some(s) && s.procs == [Ended(Fresh(0, AccessRole, Writable, 1)), SharedRunning()]
    ensures s.files == {UserLock(0, AccessRole), MachineLock(AccessRole), UserLock(1, AccessRole)}
    ensures Lookup(s, MachineLock(AccessRole), true) == Some(Record(1, None))
  {
    run, s := SharedHolderClaims();
    run, s := WriteRun(run, s, 1, true);
    run, s := LookRun(run, s, 1);
  }

  /** A system process that looks at the other role's machine lock while it is held. */
  lemma ReadHeldMachineRun(actions: seq<Action>, s: State, p: nat) returns (run: seq<Action>, t: State)
    requires After(actions) == Some(s) && p < |s.procs| && s.procs[p].at == ProbeUser && s.procs[p].can == Writable
    requires s.procs[p].seenUser.None?
    requires var lock := UserLock(s.procs[p].user, OtherRole(s.procs[p].role)); lock in s.files && Free(s.procs, p, lock, Shared)
    requires var lock := MachineLock(OtherRole(s.procs[p].role));
             lock in s.files && !Free(s.procs, p, lock, Exclusive) && !Conflicts(Lookup(s, lock, true), s.procs[p].node)
    requires s.procs[p].probe.None?
    ensures After(run) == Some(t) && |t.procs| == |s.procs|
    ensures t.procs[p].at == Running && SameStart(t.procs[p], s.procs[p]) && t.procs[p].machine == s.procs[p].machine
    ensures t.procs[p].log == s.procs[p].log.(gotUser := NotNeeded, gotMachine := Done)
    ensures forall q :: 0 <= q < |s.procs| && q != p ==> t.procs[q] == s.procs[q]
  {
    var x := s.procs[p];
    var y := x.(at := ProbeMachine, log := x.log.(gotUser := NotNeeded));
    FreeIgnoresSelf(s.procs, p, y, MachineLock(OtherRole(x.role)), Exclusive);
    run, t := PassFreeUserTier(actions, s, p);
    run, t := PassHeldMachineTier(run, t, p, true);
  }

  /** The lock is held and its record is read, but does not name this identity. */
  lemma PassHeldMachineTier(actions: seq<Action>, s: State, p: nat, ok: bool) returns (run: seq<Action>, t: State)
    requires After(actions) == Some(s) && p < |s.procs| && s.procs[p].at == ProbeMachine && s.procs[p].can != NoMachineTier
    requires s.procs[p].seenUser.None?
    requires FindsMachineHeld(s, s.procs[p], p)
    requires !Conflicts(Lookup(s, MachineLock(OtherRole(s.procs[p].role)), ok), s.procs[p].node)
    ensures After(run) == Some(t) && actions <= run
    ensures
      var x := s.procs[p];
      t == s.(procs := s.procs[p := x.(at := Running, seenMachine := Lookup(s, MachineLock(OtherRole(x.role)), ok),
                                      log := x.log.(gotMachine := Went(ok)))])
  {
    run, t := FindMachineHeld(actions, s, p);
    run, t := ReadMachineRecord(run, t, p, ok);
    run, t := NoConflictRuns(run, t, p);
  }

  lemma NoConflictRuns(actions: seq<Action>, s: State, p: nat) returns (run: seq<Action>, t: State)
    requires After(actions) == Some(s) && p < |s.procs| && s.procs[p].at == Decide
    requires !Conflicts(s.procs[p].seenUser, s.procs[p].node) && !Conflicts(s.procs[p].seenMachine, s.procs[p].node)
    ensures After(run) == Some(t) && actions <= run && t == s.(procs := s.procs[p := s.procs[p].(at := Running)])
  {
    run, t := Extend(actions, s, Step(p, true));
  }

  lemma FreeIgnoresSelf(procs: seq<Proc>, p: nat, x: Proc, lock: LockId, mode: Mode)
    requires p < |procs|
    ensures Free(procs[p := x], p, lock, mode) <==> Free(procs, p, lock, mode)
  {
    var t := procs[p := x];
    forall q | 0 <= q < |procs| && q != p ensures t[q] == procs[q] {
    }
  }

  lemma ReadMachineRecord(actions: seq<Action>, s: State, p: nat, ok: bool) returns (run: seq<Action>, t: State)
    requires After(actions) == Some(s) && p < |s.procs| && s.procs[p].at == ReadMachine
    ensures After(run) == Some(t) && actions <= run
    ensures
      var x := s.procs[p];
      t == s.(procs := s.procs[p := x.(at := Decide, seenMachine := Lookup(s, MachineLock(OtherRole(x.role)), ok),
                                      log := x.log.(gotMachine := Went(ok)))])
  {
    run, t := Extend(actions, s, Step(p, ok));
  }

  lemma PassFreeUserTier(actions: seq<Action>, s: State, p: nat) returns (run: seq<Action>, t: State)
    requires After(actions) == Some(s) && p < |s.procs| && s.procs[p].at == ProbeUser && s.procs[p].probe.None?
    requires var lock := UserLock(s.procs[p].user, OtherRole(s.procs[p].role)); lock in s.files && Free(s.procs, p, lock, Shared)
    ensures After(run) == Some(t)
    ensures var x := s.procs[p]; t == s.(procs := s.procs[p := x.(at := ProbeMachine, log := x.log.(gotUser := NotNeeded))])
  {
    var x := s.procs[p];
    var lock := UserLock(x.user, OtherRole(x.role));
    run, t := Extend(actions, s, Step(p, true));
    assert t == s.(procs := s.procs[p := x.(at := HoldingUserProbe, probe := Some(Hold(lock, Shared)),
                                             log := x.log.(gotUser := NotNeeded))]);
    run, t := Extend(run, t, Step(p, true));
  }

  /** The other role's machine lock is there, and not to be had in the mode that a
      process of this capability tries. */
  ghost predicate FindsMachineHeld(s: State, x: Proc, p: nat) {
    var lock := MachineLock(OtherRole(x.role));
    lock in s.files && !Free(s.procs, p, lock, if x.can == Writable then Exclusive else Shared)
  }

  lemma FindMachineHeld(actions: seq<Action>, s: State, p: nat) returns (run: seq<Action>, t: State)
    requires After(actions) == Some(s) && p < |s.procs| && s.procs[p].at == ProbeMachine && s.procs[p].can != NoMachineTier
    requires FindsMachineHeld(s, s.procs[p], p)
    ensures After(run) == Some(t) && actions <= run && t == s.(procs := s.procs[p := s.procs[p].(at := ReadMachine)])
  {
    run, t := Extend(actions, s, Step(p, true));
  }

  /** A shared holder publishes no machine record, so an exclusive holder of the other
      role with the same identity finds its lock held and nobody named behind it: both
      run, with every access successful. */
  lemma SharedTwinRunsBesideSystem() returns (run: seq<Action>, s: State)
    ensures After(run) == Some(s) && |s.procs| == 3
    ensures s.procs[1] == SharedRunning()
    ensures s.procs[2].at == Running && s.procs[2].machine == Some(Exclusive) && MachineRivals(s.procs[1], s.procs[2])
    ensures AllAccessesOk(s.procs[1]) && AllAccessesOk(s.procs[2])
  {
    run, s := SharedHolderRuns();
    run, s := SystemLooks(run, s);
    assert HoldsAny(s.procs[1], MachineLock(AccessRole));
    run, s := ReadHeldMachineRun(run, s, 2);
  }

  lemma SystemLooks(actions: seq<Action>, s: State) returns (run: seq<Action>, t: State)
    requires After(actions) == Some(s) && s.procs == [Ended(Fresh(0, AccessRole, Writable, 1)), SharedRunning()]
    requires s.files == {UserLock(0, AccessRole), MachineLock(AccessRole), UserLock(1, AccessRole)}
    requires Lookup(s, MachineLock(AccessRole), true) == Some(Record(1, None))
    ensures After(run) == Some(t) && MachineLock(AccessRole) in t.files && UserLock(0, AccessRole) in t.files
    ensures Lookup(t, MachineLock(AccessRole), true) == Some(Record(1, None))
    ensures t.procs == s.procs + [Fresh(0, ServeRole, Writable, 3)
                                    .(at := ProbeUser, hasUser := true, machine := Some(Exclusive),
                                      log := NO_ACCESS.(putUser := Done, putMachine := Done))]
  {
    run, t := StartRun(actions, s, Fresh(0, ServeRole, Writable, 3));
    run, t := ClaimRun(run, t, 2, Some(Exclusive));
    run, t := WriteRun(run, t, 2, true);
  }
}
