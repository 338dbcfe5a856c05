/** Slot accounting of one UDP service on Serve, one atomic operation at a time.

    Every connection of the service and every quarantine sink works on the same
    two counters: `held` (slots in use) and `quarantined` (those that only a sink
    keeps). A reservation is a load followed by compare-exchange attempts, a
    release is a load followed by saturating compare-exchange attempts, and any
    other agent may act in between. */
module Slots {
  import opened Common

  /** Where a connection's receive loop stands. */
  datatype LoopPoint =
    | Idle
    | Reserving(seen: nat)                    // about to exchange seen -> seen + 1
    | Opening                                 // slot reserved, socket not open yet
    | Releasing(seen: nat)                    // giving the reserved slot back
    | Ending(left: nat, final: bool)          // flows taken out of the table, not yet quarantined
    | Handing(left: nat, final: bool)         // one of them marked quarantined, its sink not yet spawned
    | Finished

  datatype Conn = Conn(live: nat, at: LoopPoint)

  /** A sink releases `quarantined` first, then `held`. */
  datatype Sink = Draining | MarkRelease(seen: nat) | SlotLoad | SlotRelease(seen: nat) | Gone

  datatype Phase = Serving | Stopping | Joining | Joined

  datatype State = State(held: nat, quarantined: nat, conns: seq<Conn>, sinks: seq<Sink>, phase: Phase)

  datatype Caps = Caps(maxFlows: nat, perPeer: nat)

  datatype Action =
    | Accept                          // a peer connects
    | LoadHeld(c: nat)                // admit a new flow: load for the reservation
    | GiveUp(c: nat)                  // the loaded value is at the cap
    | Exchange(c: nat)                // compare-exchange: succeeds if unchanged, else reloads
    | Spurious(c: nat)                // the weak exchange fails although unchanged
    | OpenOk(c: nat)
    | OpenFailed(c: nat)              // load for the release
    | ReleaseExchange(c: nat)
    | Expire(c: nat, count: nat)      // a sweep takes `count` flows out of the table
    | Leave(c: nat)                   // the loop ends and drains its table
    | Mark(c: nat)                    // quarantine_started
    | Spawn(c: nat)                   // the sink now owns the slot
    | SinkEnd(k: nat)                 // deadline, read error, stop or abort: load `quarantined`
    | SinkMark(k: nat)
    | SinkLoad(k: nat)
    | SinkSlot(k: nat)
    | Stop
    | JoinConnections
    | JoinSinks

  function Saturated(value: nat, n: nat): nat {
    if value < n then 0 else value - n
  }

  function ConnAt(s: State, c: nat, at: LoopPoint): State
    requires c < |s.conns|
  {
    s.(conns := s.conns[c := s.conns[c].(at := at)])
  }

  predicate Enabled(s: State, a: Action, caps: Caps) {
    match a
    case Accept => s.phase == Serving
    case LoadHeld(c) => c < |s.conns| && s.conns[c].at == Idle && s.conns[c].live < caps.perPeer
    case GiveUp(c) => c < |s.conns| && s.conns[c].at.Reserving? && s.conns[c].at.seen >= caps.maxFlows
    case Exchange(c) => c < |s.conns| && s.conns[c].at.Reserving? && s.conns[c].at.seen < caps.maxFlows
    case Spurious(c) => c < |s.conns| && s.conns[c].at.Reserving? && s.conns[c].at.seen < caps.maxFlows
    case OpenOk(c) => c < |s.conns| && s.conns[c].at == Opening
    case OpenFailed(c) => c < |s.conns| && s.conns[c].at == Opening
    case ReleaseExchange(c) => c < |s.conns| && s.conns[c].at.Releasing?
    case Expire(c, count) => c < |s.conns| && s.conns[c].at == Idle && count <= s.conns[c].live
    case Leave(c) => c < |s.conns| && s.conns[c].at == Idle
    case Mark(c) => c < |s.conns| && s.conns[c].at.Ending?
    case Spawn(c) => c < |s.conns| && s.conns[c].at.Handing?
    case SinkEnd(k) => k < |s.sinks| && s.sinks[k] == Draining
    case SinkMark(k) => k < |s.sinks| && s.sinks[k].MarkRelease?
    case SinkLoad(k) => k < |s.sinks| && s.sinks[k] == SlotLoad
    case SinkSlot(k) => k < |s.sinks| && s.sinks[k].SlotRelease?
    case Stop => s.phase == Serving
    case JoinConnections => s.phase == Stopping && forall c :: 0 <= c < |s.conns| ==> s.conns[c].at == Finished
    case JoinSinks => s.phase == Joining && forall k :: 0 <= k < |s.sinks| ==> s.sinks[k] == Gone
  }

  function Apply(s: State, a: Action, caps: Caps): State
    requires Enabled(s, a, caps)
  {
    match a
    case Accept => s.(conns := s.conns + [Conn(0, Idle)])
    case LoadHeld(c) => ConnAt(s, c, Reserving(s.held))
    case GiveUp(c) => ConnAt(s, c, Idle)
    case Exchange(c) =>
      if s.held == s.conns[c].at.seen then ConnAt(s, c, Opening).(held := s.conns[c].at.seen + 1)
      else ConnAt(s, c, Reserving(s.held))
    case Spurious(c) => ConnAt(s, c, Reserving(s.held))
    case OpenOk(c) => s.(conns := s.conns[c := Conn(s.conns[c].live + 1, Idle)])
    case OpenFailed(c) => ConnAt(s, c, Releasing(s.held))
    case ReleaseExchange(c) =>
      if s.held == s.conns[c].at.seen then ConnAt(s, c, Idle).(held := Saturated(s.conns[c].at.seen, 1))
      else ConnAt(s, c, Releasing(s.held))
    case Expire(c, count) => s.(conns := s.conns[c := Conn(s.conns[c].live - count, Ending(count, false))])
    case Leave(c) => s.(conns := s.conns[c := Conn(0, Ending(s.conns[c].live, true))])
    case Mark(c) =>
      var at := s.conns[c].at;
      if at.left == 0 then ConnAt(s, c, if at.final then Finished else Idle)
      else ConnAt(s, c, Handing(at.left - 1, at.final)).(quarantined := s.quarantined + 1)
    case Spawn(c) =>
      var at := s.conns[c].at;
      ConnAt(s, c, Ending(at.left, at.final)).(sinks := s.sinks + [Draining])
    case SinkEnd(k) => s.(sinks := s.sinks[k := MarkRelease(s.quarantined)])
    case SinkMark(k) =>
      if s.quarantined == s.sinks[k].seen
      then s.(sinks := s.sinks[k := SlotLoad], quarantined := Saturated(s.sinks[k].seen, 1))
      else s.(sinks := s.sinks[k := MarkRelease(s.quarantined)])
    case SinkLoad(k) => s.(sinks := s.sinks[k := SlotRelease(s.held)])
    case SinkSlot(k) =>
      if s.held == s.sinks[k].seen
      then s.(sinks := s.sinks[k := Gone], held := Saturated(s.sinks[k].seen, 1))
      else s.(sinks := s.sinks[k := SlotRelease(s.held)])
    case Stop => s.(phase := Stopping)
    case JoinConnections => s.(phase := Joining)
    case JoinSinks => s.(phase := Joined)
  }

  const INITIAL := State(0, 0, [], [], Serving)

  /** The state after `actions`, `None` when one of them was not possible. */
  function After(actions: seq<Action>, caps: Caps): Option<State> {
    if actions == [] then Some(INITIAL)
    else
      match After(actions[..|actions| - 1], caps)
      case None => None
      case Some(s) =>
        var a := actions[|actions| - 1];
        if Enabled(s, a, caps) then Some(Apply(s, a, caps)) else None
  }

  // -------------------------------------------------------- who holds what

  function ConnSlots(c: Conn): nat {
    c.live + match c.at
             case Opening => 1
             case Releasing(_) => 1
             case Ending(left, _) => left
             case Handing(left, _) => left + 1
             case _ => 0
  }

  function ConnMarks(c: Conn): nat {
    if c.at.Handing? then 1 else 0
  }

  function SinkSlots(k: Sink): nat {
    if k == Gone then 0 else 1
  }

  function SinkMarks(k: Sink): nat {
    if k.Draining? || k.MarkRelease? then 1 else 0
  }

  function Sum<X>(s: seq<X>, weight: X -> nat): nat {
    if s == [] then 0 else Sum(s[..|s| - 1], weight) + weight(s[|s| - 1])
  }

  lemma {:induction false} SumUpdate<X>(s: seq<X>, i: nat, x: X, weight: X -> nat)
    requires i < |s|
    ensures Sum(s[i := x], weight) == Sum(s, weight) - weight(s[i]) + weight(x)
    ensures weight(s[i]) <= Sum(s, weight)
  {
    var n := |s| - 1;
    if i < n {
      SumUpdate(s[..n], i, x, weight);
      assert s[i := x][..n] == s[..n][i := x];
    } else {
      assert s[i := x][..n] == s[..n];
    }
  }

  lemma SumAppend<X>(s: seq<X>, x: X, weight: X -> nat)
    ensures Sum(s + [x], weight) == Sum(s, weight) + weight(x)
  {
    assert (s + [x])[..|s|] == s;
  }

  lemma {:induction false} SumBelow<X>(s: seq<X>, small: X -> nat, large: X -> nat)
    requires forall x :: small(x) <= large(x)
    ensures Sum(s, small) <= Sum(s, large)
  {
    if s != [] {
      SumBelow(s[..|s| - 1], small, large);
    }
  }

  lemma {:induction false} SumZero<X>(s: seq<X>, weight: X -> nat)
    requires forall i :: 0 <= i < |s| ==> weight(s[i]) == 0
    ensures Sum(s, weight) == 0
  {
    if s != [] {
      SumZero(s[..|s| - 1], weight);
    }
  }

  /** What holds of each connection on its own. */
  predicate ConnOk(c: Conn, caps: Caps) {
    && c.live <= caps.perPeer
    && (c.at.Reserving? || c.at.Opening? || c.at.Releasing? ==> c.live < caps.perPeer)
    && (c.at == Finished ==> c.live == 0)
    && ((c.at.Ending? || c.at.Handing?) && c.at.final ==> c.live == 0)
  }

  ghost predicate Conserved(s: State, caps: Caps) {
    && s.held == Sum(s.conns, ConnSlots) + Sum(s.sinks, SinkSlots)
    && s.quarantined == Sum(s.conns, ConnMarks) + Sum(s.sinks, SinkMarks)
    && s.held <= caps.maxFlows
    && (forall c :: 0 <= c < |s.conns| ==> ConnOk(s.conns[c], caps))
    && (s.phase == Joining || s.phase == Joined ==> forall c :: 0 <= c < |s.conns| ==> s.conns[c].at == Finished)
    && (s.phase == Joined ==> forall k :: 0 <= k < |s.sinks| ==> s.sinks[k] == Gone)
  }

  /** Replacing one connection keeps the balance when the counters move with it. */
  lemma ReplaceConn(s: State, c: nat, x: Conn, held: nat, quarantined: nat, caps: Caps)
    requires Conserved(s, caps) && c < |s.conns| && s.conns[c].at != Finished
    requires ConnOk(x, caps) && held <= caps.maxFlows
    requires held + ConnSlots(s.conns[c]) == s.held + ConnSlots(x)
    requires quarantined + ConnMarks(s.conns[c]) == s.quarantined + ConnMarks(x)
    ensures Conserved(s.(conns := s.conns[c := x], held := held, quarantined := quarantined), caps)
  {
    SumUpdate(s.conns, c, x, ConnSlots);
    SumUpdate(s.conns, c, x, ConnMarks);
  }

  lemma ReplaceSink(s: State, k: nat, x: Sink, held: nat, quarantined: nat, caps: Caps)
    requires Conserved(s, caps) && k < |s.sinks| && s.sinks[k] != Gone
    requires held + SinkSlots(s.sinks[k]) == s.held + SinkSlots(x)
    requires quarantined + SinkMarks(s.sinks[k]) == s.quarantined + SinkMarks(x)
    ensures Conserved(s.(sinks := s.sinks[k := x], held := held, quarantined := quarantined), caps)
  {
    SumUpdate(s.sinks, k, x, SinkSlots);
    SumUpdate(s.sinks, k, x, SinkMarks);
  }

  lemma AddConn(s: State, caps: Caps)
    requires Conserved(s, caps) && s.phase == Serving
    ensures Conserved(s.(conns := s.conns + [Conn(0, Idle)]), caps)
  {
    SumAppend(s.conns, Conn(0, Idle), ConnSlots);
    SumAppend(s.conns, Conn(0, Idle), ConnMarks);
  }

  /** The slot and its mark pass from a connection to the sink it spawns. */
  lemma HandOver(s: State, c: nat, caps: Caps)
    requires Conserved(s, caps) && c < |s.conns| && s.conns[c].at.Handing?
    ensures Conserved(Apply(s, Spawn(c), caps), caps)
  {
    var x := Conn(s.conns[c].live, Ending(s.conns[c].at.left, s.conns[c].at.final));
    SumUpdate(s.conns, c, x, ConnSlots);
    SumUpdate(s.conns, c, x, ConnMarks);
    SumAppend(s.sinks, Draining, SinkSlots);
    SumAppend(s.sinks, Draining, SinkMarks);
  }

  /** A held slot is worth at least one: a release never meets a zero counter. */
  lemma ReleaseHasSlot(s: State, caps: Caps)
    requires Conserved(s, caps)
    ensures forall c :: 0 <= c < |s.conns| ==> ConnSlots(s.conns[c]) <= s.held
    ensures forall k :: 0 <= k < |s.sinks| ==> SinkSlots(s.sinks[k]) <= s.held && SinkMarks(s.sinks[k]) <= s.quarantined
  {
    forall c | 0 <= c < |s.conns| ensures ConnSlots(s.conns[c]) <= s.held {
      SumUpdate(s.conns, c, s.conns[c], ConnSlots);
    }
    forall k | 0 <= k < |s.sinks| ensures SinkSlots(s.sinks[k]) <= s.held && SinkMarks(s.sinks[k]) <= s.quarantined {
      SumUpdate(s.sinks, k, s.sinks[k], SinkSlots);
      SumUpdate(s.sinks, k, s.sinks[k], SinkMarks);
    }
  }

  lemma ConnStepConserves(s: State, a: Action, c: nat, caps: Caps)
    requires Conserved(s, caps) && Enabled(s, a, caps)
    requires a in {LoadHeld(c), GiveUp(c), Exchange(c), Spurious(c), OpenOk(c), OpenFailed(c), ReleaseExchange(c), Leave(c), Mark(c)}
    ensures Conserved(Apply(s, a, caps), caps)
  {
    var t := Apply(s, a, caps);
    ReleaseHasSlot(s, caps);
    ReplaceConn(s, c, t.conns[c], t.held, t.quarantined, caps);
  }

  lemma StepConserves(s: State, a: Action, caps: Caps)
    requires Conserved(s, caps) && Enabled(s, a, caps)
    ensures Conserved(Apply(s, a, caps), caps)
  {
    match a {
      case Accept => AddConn(s, caps);
      case LoadHeld(c) => ConnStepConserves(s, a, c, caps);
      case GiveUp(c) => ConnStepConserves(s, a, c, caps);
      case Exchange(c) => ConnStepConserves(s, a, c, caps);
      case Spurious(c) => ConnStepConserves(s, a, c, caps);
      case OpenOk(c) => ConnStepConserves(s, a, c, caps);
      case OpenFailed(c) => ConnStepConserves(s, a, c, caps);
      case ReleaseExchange(c) => ConnStepConserves(s, a, c, caps);
      case Expire(c, count) =>
        ReplaceConn(s, c, Conn(s.conns[c].live - count, Ending(count, false)), s.held, s.quarantined, caps);
      case Leave(c) => ConnStepConserves(s, a, c, caps);
      case Mark(c) => ConnStepConserves(s, a, c, caps);
      case Spawn(c) => HandOver(s, c, caps);
      case SinkEnd(k) => SinkStepConserves(s, a, k, caps);
      case SinkMark(k) => SinkStepConserves(s, a, k, caps);
      case SinkLoad(k) => SinkStepConserves(s, a, k, caps);
      case SinkSlot(k) => SinkStepConserves(s, a, k, caps);
      case _ =>
    }
  }

  lemma SinkStepConserves(s: State, a: Action, k: nat, caps: Caps)
    requires Conserved(s, caps) && Enabled(s, a, caps)
    requires a in {SinkEnd(k), SinkMark(k), SinkLoad(k), SinkSlot(k)}
    ensures Conserved(Apply(s, a, caps), caps)
  {
    var t := Apply(s, a, caps);
    ReleaseHasSlot(s, caps);
    ReplaceSink(s, k, t.sinks[k], t.held, t.quarantined, caps);
  }

  // ------------------------------------------------------------ every run

  lemma {:induction false} RunConserves(actions: seq<Action>, caps: Caps)
    requires After(actions, caps).Some?
    ensures Conserved(After(actions, caps).value, caps)
  {
    if actions != [] {
      RunConserves(actions[..|actions| - 1], caps);
      StepConserves(After(actions[..|actions| - 1], caps).value, actions[|actions| - 1], caps);
    }
  }

  /** In every reachable state: the slots in use are exactly the live, reserved and
      ending flows plus the sinks that have not released theirs; the service cap
      and every peer's cap hold; and no more slots are quarantined than held. */
  lemma SlotsConserved(actions: seq<Action>, caps: Caps)
    requires After(actions, caps).Some?
    ensures var s := After(actions, caps).value;
            && s.held == Sum(s.conns, ConnSlots) + Sum(s.sinks, SinkSlots)
            && s.quarantined <= s.held <= caps.maxFlows
            && forall c :: 0 <= c < |s.conns| ==> s.conns[c].live <= caps.perPeer
  {
    RunConserves(actions, caps);
    var s := After(actions, caps).value;
    SumBelow(s.conns, ConnMarks, ConnSlots);
    SumBelow(s.sinks, SinkMarks, SinkSlots);
  }

  /** The saturating subtraction never saturates: whichever release is about to
      succeed, its counter is at least one, so it drops by exactly one. */
  lemma ReleaseNeverSaturates(actions: seq<Action>, a: Action, caps: Caps)
    requires After(actions, caps).Some? && Enabled(After(actions, caps).value, a, caps)
    ensures var s := After(actions, caps).value;
            var t := Apply(s, a, caps);
            && (a.ReleaseExchange? && t.conns[a.c].at == Idle ==> t.held == s.held - 1)
            && (a.SinkMark? && t.sinks[a.k] == SlotLoad ==> t.quarantined == s.quarantined - 1)
            && (a.SinkSlot? && t.sinks[a.k] == Gone ==> t.held == s.held - 1)
  {
    RunConserves(actions, caps);
    ReleaseHasSlot(After(actions, caps).value, caps);
  }

  /** Once the role has joined its connections and its sinks, nothing is held. */
  lemma {:induction false} NothingHeldAfterJoin(actions: seq<Action>, caps: Caps)
    requires After(actions, caps).Some? && After(actions, caps).value.phase == Joined
    ensures After(actions, caps).value.held == 0 && After(actions, caps).value.quarantined == 0
  {
    RunConserves(actions, caps);
    var s := After(actions, caps).value;
    SumZero(s.conns, ConnSlots);
    SumZero(s.conns, ConnMarks);
    SumZero(s.sinks, SinkSlots);
    SumZero(s.sinks, SinkMarks);
  }

  /** A step in which connection `c` loads the slot counter for its reservation. */
  predicate Loads(a: Action, c: nat) {
    a == LoadHeld(c) || a == Exchange(c) || a == Spurious(c)
  }

  lemma OnlyLoadsStartReserving(s: State, a: Action, c: nat, caps: Caps)
    requires Enabled(s, a, caps) && c < |Apply(s, a, caps).conns| && Apply(s, a, caps).conns[c].at.Reserving?
    ensures if Loads(a, c) then Apply(s, a, caps).conns[c].at.seen == s.held
            else c < |s.conns| && s.conns[c].at == Apply(s, a, caps).conns[c].at
  {
  }

  /** The last load of `c` in the run is step `i`. */
  ghost predicate LastLoad(actions: seq<Action>, i: nat, c: nat) {
    i < |actions| && Loads(actions[i], c) && forall j :: i < j < |actions| ==> !Loads(actions[j], c)
  }

  lemma LastLoadExtends(actions: seq<Action>, i: nat, c: nat)
    requires actions != [] && LastLoad(actions[..|actions| - 1], i, c) && !Loads(actions[|actions| - 1], c)
    ensures LastLoad(actions, i, c) && actions[..|actions| - 1][..i] == actions[..i]
  {
    var before := actions[..|actions| - 1];
    forall j | i < j < |actions| ensures !Loads(actions[j], c) {
      assert j < |before| ==> before[j] == actions[j];
    }
  }

  /** The value a reservation works on is the one its last load found. */
  lemma {:induction false} SeenWasLoaded(actions: seq<Action>, c: nat, caps: Caps) returns (i: nat)
    requires After(actions, caps).Some?
    requires c < |After(actions, caps).value.conns| && After(actions, caps).value.conns[c].at.Reserving?
    ensures LastLoad(actions, i, c) && After(actions[..i], caps).Some?
    ensures After(actions[..i], caps).value.held == After(actions, caps).value.conns[c].at.seen
  {
    var n := |actions| - 1;
    OnlyLoadsStartReserving(After(actions[..n], caps).value, actions[n], c, caps);
    if Loads(actions[n], c) {
      i := n;
    } else {
      i := SeenWasLoaded(actions[..n], c, caps);
      LastLoadExtends(actions, i, c);
    }
  }

  /** A flow is refused for the service cap only if all slots were in use at the load
      the refusal rests on. */
  lemma RefusedOnlyWhenFull(actions: seq<Action>, c: nat, caps: Caps) returns (i: nat)
    requires After(actions, caps).Some? && Enabled(After(actions, caps).value, GiveUp(c), caps)
    ensures LastLoad(actions, i, c) && After(actions[..i], caps).Some?
    ensures After(actions[..i], caps).value.held == caps.maxFlows
  {
    i := SeenWasLoaded(actions, c, caps);
    RunConserves(actions[..i], caps);
  }

  /** Extend a concrete run by one step. */
  lemma Extend(actions: seq<Action>, s: State, a: Action, caps: Caps) returns (longer: seq<Action>, t: State)
    requires After(actions, caps) == Some(s) && Enabled(s, a, caps)
    ensures longer == actions + [a] && t == Apply(s, a, caps)
    ensures After(longer, caps) == Some(t)
  {
    longer, t := actions + [a], Apply(s, a, caps);
    assert longer[..|actions|] == actions;
  }

  /** The status snapshot is not one atomic step: it loads `held`, then
      `quarantined`, and its own subtraction can saturate. Here one flow is open at
      the first load; by the second another opened and both were quarantined. */
  lemma {:induction false} SnapshotSubtractionCanSaturate(caps: Caps) returns (early: seq<Action>, later: seq<Action>)
    requires caps == Caps(2, 2)
    ensures After(early, caps).Some? && After(later, caps).Some? && early <= later
    ensures After(early, caps).value.held < After(later, caps).value.quarantined
  {
    var s;
    early, s := OneOpenRun(caps);
    later, s := Extend(early, s, LoadHeld(0), caps);
    later, s := Extend(later, s, Exchange(0), caps);
    later, s := Extend(later, s, OpenOk(0), caps);
    assert s == State(2, 0, [Conn(2, Idle)], [], Serving);
    later, s := BothQuarantinedRun(later, s, caps);
  }

  lemma OneOpenRun(caps: Caps) returns (run: seq<Action>, s: State)
    requires caps == Caps(2, 2)
    ensures After(run, caps) == Some(s) && s == State(1, 0, [Conn(1, Idle)], [], Serving)
  {
    run, s := Extend([], INITIAL, Accept, caps);
    run, s := Extend(run, s, LoadHeld(0), caps);
    run, s := Extend(run, s, Exchange(0), caps);
    run, s := Extend(run, s, OpenOk(0), caps);
  }

  lemma BothQuarantinedRun(actions: seq<Action>, s: State, caps: Caps) returns (run: seq<Action>, t: State)
    requires After(actions, caps) == Some(s) && s == State(2, 0, [Conn(2, Idle)], [], Serving)
    ensures After(run, caps) == Some(t) && t.quarantined == 2 && actions <= run
  {
    run, t := Extend(actions, s, Expire(0, 2), caps);
    run, t := Extend(run, t, Mark(0), caps);
    run, t := Extend(run, t, Spawn(0), caps);
    run, t := Extend(run, t, Mark(0), caps);
  }

  predicate Reserves(s: State, a: Action) {
    a.Exchange? && a.c < |s.conns| && s.conns[a.c].at == Reserving(s.held)
  }

  predicate Marks(s: State, a: Action) {
    a.Mark? && a.c < |s.conns| && s.conns[a.c].at.Ending? && s.conns[a.c].at.left > 0
  }

  predicate Unmarks(s: State, a: Action) {
    a.SinkMark? && a.k < |s.sinks| && s.sinks[a.k] == MarkRelease(s.quarantined)
  }

  /** How many steps of `more`, taken after `early`, satisfy `what`. */
  function CountSteps(early: seq<Action>, more: seq<Action>, what: (State, Action) -> bool, caps: Caps): nat {
    if more == [] then 0
    else
      var before := After(early + more[..|more| - 1], caps);
      CountSteps(early, more[..|more| - 1], what, caps)
      + if before.Some? && what(before.value, more[|more| - 1]) then 1 else 0
  }

  /** Between two loads: reservations are all that raises the slots in use, and the
      quarantined ones move by the marks set and released. */
  lemma {:induction false} CountersMove(early: seq<Action>, more: seq<Action>, caps: Caps)
    requires After(early + more, caps).Some?
    ensures After(early, caps).Some?
    ensures
      var s, t := After(early, caps).value, After(early + more, caps).value;
      && t.held <= s.held + CountSteps(early, more, Reserves, caps)
      && t.quarantined == s.quarantined + CountSteps(early, more, Marks, caps) - CountSteps(early, more, Unmarks, caps)
  {
    if more == [] {
      assert early + more == early;
    } else {
      var shorter, a := more[..|more| - 1], more[|more| - 1];
      assert (early + more)[..|early + more| - 1] == early + shorter;
      CountersMove(early, shorter, caps);
      RunConserves(early + shorter, caps);
      StepMoves(After(early + shorter, caps).value, a, caps);
    }
  }

  lemma StepMoves(s: State, a: Action, caps: Caps)
    requires Conserved(s, caps) && Enabled(s, a, caps)
    ensures Apply(s, a, caps).held <= s.held + if Reserves(s, a) then 1 else 0
    ensures Apply(s, a, caps).quarantined == s.quarantined + (if Marks(s, a) then 1 else 0) - (if Unmarks(s, a) then 1 else 0)
  {
    ReleaseHasSlot(s, caps);
  }

  /** The status snapshot loads the slots in use, then the quarantined ones. Its
      subtraction saturates exactly when the marks set between the loads, less those
      released, exceed the flows that were not quarantined at the first; the shortfall
      is at most the number of slots reserved in between. */
  lemma {:induction false} SnapshotSaturatesIff(early: seq<Action>, more: seq<Action>, caps: Caps)
    requires After(early + more, caps).Some?
    ensures After(early, caps).Some?
    ensures
      var s, t := After(early, caps).value, After(early + more, caps).value;
      && (t.quarantined > s.held <==>
          CountSteps(early, more, Marks, caps) - CountSteps(early, more, Unmarks, caps) > s.held - s.quarantined)
      && t.quarantined <= s.held + CountSteps(early, more, Reserves, caps)
  {
    CountersMove(early, more, caps);
    SlotsConserved(early + more, caps);
  }

  /** So without a reservation in between it never saturates. */
  lemma {:induction false} SnapshotSoundWithoutReservations(early: seq<Action>, more: seq<Action>, caps: Caps)
    requires After(early + more, caps).Some?
    requires forall i :: 0 <= i < |more| ==> !more[i].Exchange?
    ensures After(early, caps).Some?
    ensures After(early + more, caps).value.quarantined <= After(early, caps).value.held
  {
    NoReservations(early, more, caps);
    SnapshotSaturatesIff(early, more, caps);
  }

  lemma {:induction false} NoReservations(early: seq<Action>, more: seq<Action>, caps: Caps)
    requires forall i :: 0 <= i < |more| ==> !more[i].Exchange?
    ensures CountSteps(early, more, Reserves, caps) == 0
  {
    if more != [] {
      NoReservations(early, more[..|more| - 1], caps);
    }
  }

  /** Loaded from one state, the snapshot reports exactly the slots of connections
      that are not quarantined if and only if no sink stands between its two
      releases; every sink that does adds one. */
  lemma SnapshotExactIff(actions: seq<Action>, caps: Caps)
    requires After(actions, caps).Some?
    ensures
      var s := After(actions, caps).value;
      && Saturated(s.held, s.quarantined) == Sum(s.conns, ConnSlots) - Sum(s.conns, ConnMarks) + Sum(s.sinks, SinkHalves)
      && (Sum(s.sinks, SinkHalves) == 0 <==> forall k :: 0 <= k < |s.sinks| ==> !s.sinks[k].SlotLoad? && !s.sinks[k].SlotRelease?)
  {
    var s := After(actions, caps).value;
    RunConserves(actions, caps);
    SlotsConserved(actions, caps);
    SumSplits(s.sinks);
    if forall k :: 0 <= k < |s.sinks| ==> !s.sinks[k].SlotLoad? && !s.sinks[k].SlotRelease? {
      SumZero(s.sinks, SinkHalves);
    } else {
      var k :| 0 <= k < |s.sinks| && (s.sinks[k].SlotLoad? || s.sinks[k].SlotRelease?);
      SumUpdate(s.sinks, k, s.sinks[k], SinkHalves);
    }
  }

  /** A sink that has released its mark and not yet its slot. */
  function SinkHalves(k: Sink): nat {
    if k.SlotLoad? || k.SlotRelease? then 1 else 0
  }

  lemma {:induction false} SumSplits(sinks: seq<Sink>)
    ensures Sum(sinks, SinkSlots) == Sum(sinks, SinkMarks) + Sum(sinks, SinkHalves)
  {
    if sinks != [] {
      SumSplits(sinks[..|sinks| - 1]);
    }
  }
}
