/** One service's shared connection on Access. Any number of channels ask for it,
    may be cancelled at every await, and may report it dead; dialling is serialized
    by the `dial` lock, the cache and its helper tasks are behind the `state` lock.

    A step is what happens between two awaits. A section under `state` never awaits,
    so it is one step; who holds `dial` follows from where the channels stand. */
module Dialer {
  import opened Common

  /** Where a channel stands in `get_or_dial` or `invalidate`. */
  datatype Point =
    | WantsDialLock
    | HasDialLock                       // about to look into the cache
    | Dialling
    | Dialled(conn: nat)                // waiting for `state` to store it
    | AwaitsReport(conn: nat)           // stored, querying the path report
    | AwaitsPoller(conn: nat)           // waiting for `state` to spawn the poller
    | Uses(conn: nat)                   // get_or_dial returned it
    | Invalidating(conn: nat)
    | Gone

  datatype Kind = Watcher | Poller

  datatype Task = Task(kind: Kind, conn: nat, aborted: bool, ended: bool)

  /** `stored` lists every connection ever cached, in order; `evicted` those an
      invalidation took out of the cache. */
  datatype State = State(
    channels: seq<Point>,
    cached: Option<nat>,
    tasks: seq<Task>,
    nextConn: nat,
    stored: seq<nat>,
    evicted: set<nat>)

  const INITIAL := State([], None, [], 0, [], {})

  datatype Action =
    | Open                              // a new channel starts
    | TakeDialLock(c: nat)
    | LookUp(c: nat)
    | DialOk(c: nat)
    | DialFails(c: nat)
    | Store(c: nat)
    | Report(c: nat)
    | SpawnPoller(c: nat)
    | FindDead(c: nat)
    | Invalidate(c: nat, redial: bool)
    | Cancel(c: nat)
    | TaskEnds(i: nat)
    | StopTasks

  /** The `dial` guard lives from the lock to the end of the call. */
  predicate HoldsDial(p: Point) {
    p == HasDialLock || p == Dialling || p.Dialled? || p.AwaitsReport? || p.AwaitsPoller?
  }

  ghost predicate Enabled(s: State, a: Action) {
    match a
    case Open => true
    case TakeDialLock(c) =>
      c < |s.channels| && s.channels[c] == WantsDialLock && forall d :: 0 <= d < |s.channels| ==> !HoldsDial(s.channels[d])
    case LookUp(c) => c < |s.channels| && s.channels[c] == HasDialLock
    case DialOk(c) => c < |s.channels| && s.channels[c] == Dialling
    case DialFails(c) => c < |s.channels| && s.channels[c] == Dialling
    case Store(c) => c < |s.channels| && s.channels[c].Dialled?
    case Report(c) => c < |s.channels| && s.channels[c].AwaitsReport?
    case SpawnPoller(c) => c < |s.channels| && s.channels[c].AwaitsPoller?
    case FindDead(c) => c < |s.channels| && s.channels[c].Uses?
    case Invalidate(c, _) => c < |s.channels| && s.channels[c].Invalidating?
    case Cancel(c) => c < |s.channels| && s.channels[c] != Gone
    case TaskEnds(i) => i < |s.tasks|
    case StopTasks => true
  }

  function At(s: State, c: nat, p: Point): State
    requires c < |s.channels|
  {
    s.(channels := s.channels[c := p])
  }

  function AbortAll(tasks: seq<Task>): (r: seq<Task>)
    ensures |r| == |tasks|
    ensures forall i :: 0 <= i < |tasks| ==> r[i] == tasks[i].(aborted := true)
  {
    seq(|tasks|, i requires 0 <= i < |tasks| => tasks[i].(aborted := true))
  }

  ghost function Apply(s: State, a: Action): State
    requires Enabled(s, a)
  {
    match a
    case Open => s.(channels := s.channels + [WantsDialLock])
    case TakeDialLock(c) => At(s, c, HasDialLock)
    case LookUp(c) => At(s, c, if s.cached.Some? then Uses(s.cached.value) else Dialling)
    case DialOk(c) => At(s, c, Dialled(s.nextConn)).(nextConn := s.nextConn + 1)
    case DialFails(c) => At(s, c, Gone)
    case Store(c) =>
      var conn := s.channels[c].conn;
      At(s, c, AwaitsReport(conn))
        .(cached := Some(conn), stored := s.stored + [conn],
          tasks := AbortAll(s.tasks) + [Task(Watcher, conn, false, false)])
    case Report(c) => At(s, c, AwaitsPoller(s.channels[c].conn))
    case SpawnPoller(c) =>
      var conn := s.channels[c].conn;
      var t := At(s, c, Uses(conn));
      if s.cached == Some(conn) then t.(tasks := s.tasks + [Task(Poller, conn, false, false)]) else t
    case FindDead(c) => At(s, c, Invalidating(s.channels[c].conn))
    case Invalidate(c, redial) =>
      var failed := s.channels[c].conn;
      var t := At(s, c, if redial then WantsDialLock else Gone);
      if s.cached == Some(failed) then t.(cached := None, evicted := s.evicted + {failed}) else t
    case Cancel(c) => At(s, c, Gone)
    case TaskEnds(i) => s.(tasks := s.tasks[i := s.tasks[i].(ended := true)])
    case StopTasks => s.(tasks := AbortAll(s.tasks))
  }

  ghost function After(actions: seq<Action>): Option<State> {
    if actions == [] then Some(INITIAL)
    else
      match After(actions[..|actions| - 1])
      case None => None
      case Some(s) =>
        var a := actions[|actions| - 1];
        if Enabled(s, a) then Some(Apply(s, a)) else None
  }

  // -------------------------------------------------------------- invariant

  predicate Live(t: Task) {
    !t.aborted && !t.ended
  }

  predicate IsLast(stored: seq<nat>, conn: nat) {
    stored != [] && stored[|stored| - 1] == conn
  }

  /** At most one channel is between taking and releasing `dial`. */
  ghost predicate OneDialler(channels: seq<Point>) {
    forall c, d :: 0 <= c < d < |channels| ==> !(HoldsDial(channels[c]) && HoldsDial(channels[d]))
  }

  ghost predicate ChannelOk(s: State, p: Point) {
    && (p == Dialling || p.Dialled? ==> s.cached.None?)
    && (p.Dialled? ==> p.conn < s.nextConn && p.conn !in s.stored)
    && (p.AwaitsReport? || p.AwaitsPoller? ==>
          IsLast(s.stored, p.conn) && forall i :: 0 <= i < |s.tasks| && Live(s.tasks[i]) ==> s.tasks[i].kind == Watcher)
  }

  ghost predicate StoredOk(s: State) {
    && (forall i :: 0 <= i < |s.stored| ==> s.stored[i] < s.nextConn)
    && (forall i, j :: 0 <= i < j < |s.stored| ==> s.stored[i] != s.stored[j])
    && (forall i :: 0 <= i < |s.stored| - 1 ==> s.stored[i] in s.evicted)
    && (s.cached.Some? ==> IsLast(s.stored, s.cached.value) && s.cached.value !in s.evicted)
    && (s.cached.None? && s.stored != [] ==> s.stored[|s.stored| - 1] in s.evicted)
    && (forall x :: x in s.evicted ==> x in s.stored)
  }

  ghost predicate TasksOk(s: State) {
    && (forall i :: 0 <= i < |s.tasks| && Live(s.tasks[i]) ==> IsLast(s.stored, s.tasks[i].conn))
    && (forall i, j :: 0 <= i < j < |s.tasks| && Live(s.tasks[i]) && Live(s.tasks[j]) ==> s.tasks[i].kind != s.tasks[j].kind)
  }

  ghost predicate Inv(s: State) {
    && OneDialler(s.channels)
    && (forall c :: 0 <= c < |s.channels| ==> ChannelOk(s, s.channels[c]))
    && StoredOk(s)
    && TasksOk(s)
  }

  /** A channel moves on without touching the cache or the tasks. */
  lemma MoveKeeps(s: State, c: nat, p: Point)
    requires Inv(s) && c < |s.channels| && ChannelOk(s, p)
    requires HoldsDial(p) ==> HoldsDial(s.channels[c]) || forall d :: 0 <= d < |s.channels| ==> !HoldsDial(s.channels[d])
    ensures Inv(At(s, c, p))
  {
    var t := At(s, c, p);
    forall d | 0 <= d < |t.channels| ensures ChannelOk(t, t.channels[d]) {
      assert ChannelOk(s, t.channels[d]);
    }
  }

  /** Taking a connection out of the cache once a channel has found it dead. */
  lemma EvictKeeps(s: State, failed: nat)
    requires Inv(s) && s.cached == Some(failed)
    ensures Inv(s.(cached := None, evicted := s.evicted + {failed}))
  {
    var t := s.(cached := None, evicted := s.evicted + {failed});
    forall d | 0 <= d < |t.channels| ensures ChannelOk(t, t.channels[d]) {
      assert ChannelOk(s, s.channels[d]);
    }
  }

  lemma TasksFadeKeeps(s: State, tasks: seq<Task>)
    requires Inv(s) && |tasks| == |s.tasks|
    requires forall i :: 0 <= i < |tasks| ==>
                           tasks[i].kind == s.tasks[i].kind && tasks[i].conn == s.tasks[i].conn && (Live(tasks[i]) ==> Live(s.tasks[i]))
    ensures Inv(s.(tasks := tasks))
  {
    forall d | 0 <= d < |s.channels| ensures ChannelOk(s.(tasks := tasks), s.channels[d]) {
      assert ChannelOk(s, s.channels[d]);
    }
  }

  lemma DialOkKeeps(s: State, c: nat)
    requires Inv(s) && Enabled(s, DialOk(c))
    ensures Inv(Apply(s, DialOk(c)))
  {
    var u := s.(nextConn := s.nextConn + 1);
    assert ChannelOk(s, s.channels[c]);
    forall d | 0 <= d < |u.channels| ensures ChannelOk(u, u.channels[d]) {
      assert ChannelOk(s, s.channels[d]);
    }
    MoveKeeps(u, c, Dialled(s.nextConn));
  }

  lemma InvalidateKeeps(s: State, c: nat, redial: bool)
    requires Inv(s) && Enabled(s, Invalidate(c, redial))
    ensures Inv(Apply(s, Invalidate(c, redial)))
  {
    var t := At(s, c, if redial then WantsDialLock else Gone);
    MoveKeeps(s, c, if redial then WantsDialLock else Gone);
    if s.cached == Some(s.channels[c].conn) {
      EvictKeeps(t, s.channels[c].conn);
    }
  }

  lemma OpenKeeps(s: State)
    requires Inv(s)
    ensures Inv(s.(channels := s.channels + [WantsDialLock]))
  {
    var t := s.(channels := s.channels + [WantsDialLock]);
    forall d | 0 <= d < |t.channels| ensures ChannelOk(t, t.channels[d]) {
      assert t.channels[d] == WantsDialLock || ChannelOk(s, t.channels[d]);
    }
  }

  lemma StepKeeps(s: State, a: Action)
    requires Inv(s) && Enabled(s, a)
    ensures Inv(Apply(s, a))
  {
    match a {
      case Open => OpenKeeps(s);
      case TakeDialLock(c) => MoveKeeps(s, c, HasDialLock);
      case LookUp(c) => MoveKeeps(s, c, if s.cached.Some? then Uses(s.cached.value) else Dialling);
      case DialOk(c) => DialOkKeeps(s, c);
      case DialFails(c) => MoveKeeps(s, c, Gone);
      case Store(c) => StoreKeeps(s, c);
      case Report(c) =>
        assert ChannelOk(s, s.channels[c]);
        MoveKeeps(s, c, AwaitsPoller(s.channels[c].conn));
      case SpawnPoller(c) => SpawnKeeps(s, c);
      case FindDead(c) => MoveKeeps(s, c, Invalidating(s.channels[c].conn));
      case Invalidate(c, redial) => InvalidateKeeps(s, c, redial);
      case Cancel(c) => MoveKeeps(s, c, Gone);
      case TaskEnds(i) => TasksFadeKeeps(s, s.tasks[i := s.tasks[i].(ended := true)]);
      case StopTasks => TasksFadeKeeps(s, AbortAll(s.tasks));
    }
  }

  lemma StoreKeeps(s: State, c: nat)
    requires Inv(s) && Enabled(s, Store(c))
    ensures Inv(Apply(s, Store(c)))
  {
    assert ChannelOk(s, s.channels[c]);
  }

  lemma SpawnKeeps(s: State, c: nat)
    requires Inv(s) && Enabled(s, SpawnPoller(c))
    ensures Inv(Apply(s, SpawnPoller(c)))
  {
    assert ChannelOk(s, s.channels[c]);
  }

  lemma {:induction false} RunKeeps(actions: seq<Action>)
    requires After(actions).Some?
    ensures Inv(After(actions).value)
  {
    if actions != [] {
      RunKeeps(actions[..|actions| - 1]);
      StepKeeps(After(actions[..|actions| - 1]).value, actions[|actions| - 1]);
    }
  }

  // ---------------------------------------------------------------- theorems

  /** However many channels ask and whenever they are cancelled, at most one of them
      is dialling, and only while nothing is cached. */
  lemma {:induction false} OneDialAtATime(actions: seq<Action>, c: nat, d: nat)
    requires After(actions).Some?
    requires c < |After(actions).value.channels| && d < |After(actions).value.channels|
    requires After(actions).value.channels[c] == Dialling
    ensures After(actions).value.cached.None?
    ensures HoldsDial(After(actions).value.channels[d]) ==> c == d
  {
    RunKeeps(actions);
    assert ChannelOk(After(actions).value, After(actions).value.channels[c]);
  }

  /** Every cached connection but the last was evicted by an invalidation that named
      it, so redials never outrun failures; nothing is cached twice. */
  lemma {:induction false} ReplacedOnlyAfterEviction(actions: seq<Action>)
    requires After(actions).Some?
    ensures var s := After(actions).value;
            && (forall i :: 0 <= i < |s.stored| - 1 ==> s.stored[i] in s.evicted)
            && (forall i, j :: 0 <= i < j < |s.stored| ==> s.stored[i] != s.stored[j])
            && (s.cached.Some? ==> IsLast(s.stored, s.cached.value))
            && (s.cached.Some? <==> s.stored != [] && s.stored[|s.stored| - 1] !in s.evicted)
  {
    RunKeeps(actions);
  }

  /** So there are at most as many redials as evictions. */
  lemma {:induction false} OneConnectionPerEviction(actions: seq<Action>)
    requires After(actions).Some?
    ensures var s := After(actions).value; |s.stored| == |s.evicted| + if s.cached.Some? then 1 else 0
  {
    RunKeeps(actions);
    var s := After(actions).value;
    DistinctSize(s.stored);
    StoredIsEvictedOrCached(s);
  }

  lemma StoredIsEvictedOrCached(s: State)
    requires StoredOk(s)
    ensures (set i | 0 <= i < |s.stored| :: s.stored[i]) == s.evicted + (if s.cached.Some? then {s.cached.value} else {})
  {
    forall x | x in s.evicted ensures x in (set i | 0 <= i < |s.stored| :: s.stored[i]) {
    }
    if s.cached.Some? {
      assert s.stored[|s.stored| - 1] == s.cached.value;
    }
  }

  lemma {:induction false} DistinctSize(xs: seq<nat>)
    requires forall i, j :: 0 <= i < j < |xs| ==> xs[i] != xs[j]
    ensures |set i | 0 <= i < |xs| :: xs[i]| == |xs|
  {
    if xs != [] {
      var rest := xs[..|xs| - 1];
      DistinctSize(rest);
      assert (set i | 0 <= i < |xs| :: xs[i]) == (set i | 0 <= i < |rest| :: rest[i]) + {xs[|xs| - 1]};
    }
  }

  /** The cache changes only by storing into an empty one or by an invalidation of
      exactly the cached connection: a stale report evicts nothing. */
  lemma {:induction false} CacheChangesOnlyByName(actions: seq<Action>, a: Action)
    requires After(actions).Some? && Enabled(After(actions).value, a)
    requires Apply(After(actions).value, a).cached != After(actions).value.cached
    ensures var s := After(actions).value;
            || (a.Store? && s.cached.None? && Apply(s, a).cached == Some(s.channels[a.c].conn))
            || (a.Invalidate? && s.cached == Some(s.channels[a.c].conn) && Apply(s, a).cached.None?)
  {
    RunKeeps(actions);
    if a.Store? {
      assert ChannelOk(After(actions).value, After(actions).value.channels[a.c]);
    }
  }

  /** Helper tasks not yet aborted serve the connection cached last, at most one
      watcher and one poller of it. */
  lemma {:induction false} TasksServeTheLastConnection(actions: seq<Action>, i: nat, j: nat)
    requires After(actions).Some?
    requires i < |After(actions).value.tasks| && j < |After(actions).value.tasks|
    requires Live(After(actions).value.tasks[i]) && Live(After(actions).value.tasks[j])
    ensures var s := After(actions).value;
            && IsLast(s.stored, s.tasks[i].conn)
            && (s.tasks[i].kind == s.tasks[j].kind ==> i == j)
  {
    RunKeeps(actions);
  }

  /** Some channel has dialled `n` and waits to store it. */
  ghost predicate Waits(channels: seq<Point>, n: nat) {
    exists c :: 0 <= c < |channels| && channels[c] == Dialled(n)
  }

  /** The step cancels the channel that has dialled `n` and not stored it. */
  predicate Loses(s: State, a: Action, n: nat) {
    a.Cancel? && a.c < |s.channels| && s.channels[a.c] == Dialled(n)
  }

  /** Some step of the run did. */
  ghost predicate Lost(actions: seq<Action>, n: nat) {
    actions != [] &&
    var before := After(actions[..|actions| - 1]);
    (before.Some? && Loses(before.value, actions[|actions| - 1], n)) || Lost(actions[..|actions| - 1], n)
  }

  /** A dialled connection has exactly one of three fates. */
  ghost predicate OneFate(s: State, n: nat, lost: bool) {
    && (n < s.nextConn <==> n in s.stored || Waits(s.channels, n) || lost)
    && !(n in s.stored && Waits(s.channels, n))
    && !(n in s.stored && lost)
    && !(Waits(s.channels, n) && lost)
  }

  /** A channel that is not at `Dialled(n)` moves somewhere else. */
  lemma MoveKeepsWaits(channels: seq<Point>, c: nat, p: Point, n: nat)
    requires c < |channels| && channels[c] != Dialled(n) && p != Dialled(n)
    ensures Waits(channels[c := p], n) <==> Waits(channels, n)
  {
    var t := channels[c := p];
    if d :| 0 <= d < |channels| && channels[d] == Dialled(n) {
      assert t[d] == Dialled(n);
    }
    if d :| 0 <= d < |t| && t[d] == Dialled(n) {
      assert channels[d] == Dialled(n);
    }
  }

  /** Only one channel ever holds a given connection, so when it leaves nobody waits. */
  lemma LeaveEndsWaits(channels: seq<Point>, c: nat, p: Point, n: nat)
    requires OneDialler(channels) && c < |channels| && channels[c] == Dialled(n) && p != Dialled(n)
    ensures Waits(channels, n) && !Waits(channels[c := p], n)
  {
    var t := channels[c := p];
    forall d | 0 <= d < |t| ensures t[d] != Dialled(n) {
      assert d != c ==> t[d] == channels[d];
    }
  }

  lemma OpenKeepsWaits(channels: seq<Point>, n: nat)
    ensures Waits(channels + [WantsDialLock], n) <==> Waits(channels, n)
  {
    var t := channels + [WantsDialLock];
    if d :| 0 <= d < |channels| && channels[d] == Dialled(n) {
      assert t[d] == Dialled(n);
    }
  }

  /** The channel a step moves, and where to. */
  predicate Moves(a: Action) {
    !a.Open? && !a.TaskEnds? && !a.StopTasks?
  }

  lemma MoveIsOne(s: State, a: Action)
    requires Enabled(s, a) && Moves(a)
    ensures a.c < |s.channels| == |Apply(s, a).channels|
    ensures Apply(s, a).channels == s.channels[a.c := Apply(s, a).channels[a.c]]
    ensures forall n :: Apply(s, a).channels[a.c] == Dialled(n) <==> a.DialOk? && n == s.nextConn
  {
  }

  lemma FateKept(s: State, a: Action, n: nat, lost: bool)
    requires Inv(s) && Enabled(s, a) && OneFate(s, n, lost)
    ensures OneFate(Apply(s, a), n, lost || Loses(s, a, n))
  {
    var t := Apply(s, a);
    if a.Open? {
      OpenKeepsWaits(s.channels, n);
    } else if Moves(a) {
      MoveIsOne(s, a);
      assert ChannelOk(s, s.channels[a.c]);
      if a.DialOk? && n == s.nextConn {
        assert t.channels[a.c] == Dialled(n);
      } else if s.channels[a.c] == Dialled(n) {
        LeaveEndsWaits(s.channels, a.c, t.channels[a.c], n);
      } else {
        MoveKeepsWaits(s.channels, a.c, t.channels[a.c], n);
      }
    }
  }

  /** Every connection ever dialled is stored, or its channel still waits to store it,
      or that channel was cancelled while waiting; never two of these. So a successful
      dial is lost exactly when its channel is cancelled before it is stored. */
  lemma {:induction false} DialsAreStoredUnlessCancelledFirst(actions: seq<Action>, n: nat)
    requires After(actions).Some?
    ensures
      var s := After(actions).value;
      && (n < s.nextConn <==> n in s.stored || Waits(s.channels, n) || Lost(actions, n))
      && !(n in s.stored && Waits(s.channels, n))
      && !(n in s.stored && Lost(actions, n))
      && !(Waits(s.channels, n) && Lost(actions, n))
  {
    if actions != [] {
      var before := actions[..|actions| - 1];
      DialsAreStoredUnlessCancelledFirst(before, n);
      RunKeeps(before);
      FateKept(After(before).value, actions[|actions| - 1], n, Lost(before, n));
    }
  }

  /** The documentation of `get_or_dial` says a successful dial cannot be discarded
      by a cancellation. It can: storing it first waits for `state`. */
  lemma SuccessfulDialCanBeLost() returns (run: seq<Action>)
    ensures After(run).Some?
    ensures var s := After(run).value; s.nextConn == 1 && s.stored == [] && s.channels == [Gone]
  {
    var s1 := Apply(INITIAL, Open);
    var s2 := Apply(s1, TakeDialLock(0));
    var s3 := Apply(s2, LookUp(0));
    var s4 := Apply(s3, DialOk(0));
    run := [Open];
    assert run[..0] == [] && After(run) == Some(s1);
    run := [Open, TakeDialLock(0)];
    assert run[..1] == [Open] && After(run) == Some(s2);
    run := [Open, TakeDialLock(0), LookUp(0)];
    assert run[..2] == [Open, TakeDialLock(0)] && After(run) == Some(s3);
    run := [Open, TakeDialLock(0), LookUp(0), DialOk(0)];
    assert run[..3] == [Open, TakeDialLock(0), LookUp(0)] && After(run) == Some(s4);
    run := [Open, TakeDialLock(0), LookUp(0), DialOk(0), Cancel(0)];
    assert run[..4] == [Open, TakeDialLock(0), LookUp(0), DialOk(0)];
  }
}
