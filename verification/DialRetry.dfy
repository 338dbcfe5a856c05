/** Access's bounded dial-retry loop. Time is in milliseconds; the peer, the network
    and the lateness of timers are an arbitrary environment. */
module DialRetry {
  import opened Common

  const INITIAL_BACKOFF_MS: nat := 1_000
  const MAX_BACKOFF_MS: nat := 30_000
  const DIAL_ATTEMPT_STEP: nat := 5_000
  const DIAL_ATTEMPT_MAX: nat := 20_000
  const CLIENT_CONNECT_DEADLINE: nat := 30_000

  function NextBackoff(previous: nat): nat {
    Min(previous * 2, MAX_BACKOFF_MS)
  }

  function AttemptTimeout(attempt: nat): nat {
    Min(DIAL_ATTEMPT_STEP * attempt, DIAL_ATTEMPT_MAX)
  }

  datatype Outcome = Connects | Fails | Stalls

  /** What the environment does to one attempt: how the dial would end and when, how
      late the task then resumes, and how late it wakes from the backoff. */
  datatype Turn = Turn(outcome: Outcome, took: nat, lag: nat, oversleep: nat)

  type Environment = nat -> Turn

  /** One attempt: begun, bounded by `limit`, over at `ended`; a failed one then
      sleeps until `wake`. */
  datatype Dial = Dial(attempt: nat, start: nat, limit: nat, ended: nat, wake: nat)

  datatype Verdict = Connected(attempt: nat) | Expired

  datatype Run = Run(dials: seq<Dial>, verdict: Verdict, finished: nat)

  /** The dial itself is polled before its timer, so it also counts when it completed
      while the task was late to see the limit pass. */
  predicate InTime(t: Turn, now: nat, limit: nat) {
    t.outcome != Stalls && now + t.took <= limit + t.lag
  }

  /** When the task resumes: `lag` after the dial completed or the limit passed. */
  function EndOf(t: Turn, now: nat, limit: nat): nat {
    (if t.outcome == Stalls then limit else Min(now + t.took, limit)) + t.lag
  }

  /** When the loop goes round again: a sleep to a moment already past is none. */
  function NextStart(t: Turn, d: Dial): nat {
    Max(d.ended, d.wake) + t.oversleep
  }

  function Attempt(attempt: nat, now: nat, deadline: nat, backoff: nat, t: Turn): Dial {
    var limit := Min(now + AttemptTimeout(attempt), deadline);
    var ended := EndOf(t, now, limit);
    Dial(attempt, now, limit, ended, Min(ended + backoff, deadline))
  }

  /** The attempt neither connected nor ran into the deadline. */
  predicate Continues(t: Turn, d: Dial, deadline: nat) {
    if InTime(t, d.start, d.limit) then t.outcome == Fails else d.limit < deadline
  }

  /** The loop as a function of its variables. */
  function Retry(now: nat, deadline: nat, attempt: nat, backoff: nat, env: Environment): Run
    requires backoff > 0
    decreases if now < deadline then deadline - now else 0
  {
    if now >= deadline then Run([], Expired, now)
    else
      var t := env(attempt);
      var d := Attempt(attempt, now, deadline, backoff, t);
      if InTime(t, now, d.limit) && t.outcome == Connects then Run([d], Connected(attempt), d.ended)
      else if !InTime(t, now, d.limit) && d.limit == deadline then Run([d], Expired, d.ended)
      else
        var rest := Retry(NextStart(t, d), deadline, attempt + 1, NextBackoff(backoff), env);
        rest.(dials := [d] + rest.dials)
  }

  function Prefixed(dials: seq<Dial>, run: Run): Run {
    run.(dials := dials + run.dials)
  }

  /** One more attempt of the loop. */
  lemma RetryGoesOn(dials: seq<Dial>, now: nat, deadline: nat, attempt: nat, backoff: nat, env: Environment)
    requires backoff > 0 && now < deadline
    ensures
      var t := env(attempt);
      var d := Attempt(attempt, now, deadline, backoff, t);
      Prefixed(dials, Retry(now, deadline, attempt, backoff, env)) ==
      if Continues(t, d, deadline)
      then Prefixed(dials + [d], Retry(NextStart(t, d), deadline, attempt + 1, NextBackoff(backoff), env))
      else Run(dials + [d], if InTime(t, now, d.limit) then Connected(attempt) else Expired, d.ended)
  {
    var t := env(attempt);
    var d := Attempt(attempt, now, deadline, backoff, t);
    if Continues(t, d, deadline) {
      var rest := Retry(NextStart(t, d), deadline, attempt + 1, NextBackoff(backoff), env).dials;
      assert dials + ([d] + rest) == dials + [d] + rest;
    }
  }

  /** One pass through the loop body, up to the sleep; `over` ends the loop. */
  method DialOnce(now: nat, deadline: nat, attempt: nat, backoff: nat, t: Turn) returns (d: Dial, over: Option<Verdict>)
    ensures d == Attempt(attempt, now, deadline, backoff, t)
    ensures over == if Continues(t, d, deadline) then None
                    else Some(if InTime(t, now, d.limit) then Connected(attempt) else Expired)
  {
    var limit := Min(now + AttemptTimeout(attempt), deadline);
    var ended := EndOf(t, now, limit);
    d, over := Dial(attempt, now, limit, ended, Min(ended + backoff, deadline)), None;
    if InTime(t, now, limit) && t.outcome == Connects {
      over := Some(Connected(attempt));
    } else if !InTime(t, now, limit) && limit == deadline {
      over := Some(Expired);
    }
  }

  method ConnectWithRetry(start: nat, deadline: nat, env: Environment) returns (run: Run)
    ensures run == Retry(start, deadline, 1, INITIAL_BACKOFF_MS, env)
  {
    var now, attempt, backoff := start, 1, INITIAL_BACKOFF_MS;
    var dials := [];
    ghost var whole := Retry(start, deadline, 1, INITIAL_BACKOFF_MS, env);
    assert [] + whole.dials == whole.dials;
    while true
      invariant backoff > 0
      invariant whole == Prefixed(dials, Retry(now, deadline, attempt, backoff, env))
      decreases if now < deadline then deadline - now else 0
    {
      if now >= deadline {
        assert dials + [] == dials;
        return Run(dials, Expired, now);
      }
      RetryGoesOn(dials, now, deadline, attempt, backoff, env);
      var t := env(attempt);
      var d, over := DialOnce(now, deadline, attempt, backoff, t);
      dials := dials + [d];
      if over.Some? {
        return Run(dials, over.value, d.ended);
      }
      now := NextStart(t, d);
      backoff := NextBackoff(backoff);
      attempt := attempt + 1;
    }
  }

  // -------------------------------------------------------------- the schedule

  function Pow2(n: nat): (p: nat)
    ensures p > 0
  {
    if n == 0 then 1 else 2 * Pow2(n - 1)
  }

  /** The backoff after the k-th attempt. */
  function Backoff(k: nat): nat
    requires k > 0
  {
    Min(INITIAL_BACKOFF_MS * Pow2(k - 1), MAX_BACKOFF_MS)
  }

  /** The loop's running variable is the closed form at every attempt. */
  lemma BackoffFollows(k: nat)
    requires k > 0
    ensures NextBackoff(Backoff(k)) == Backoff(k + 1) && Backoff(1) == INITIAL_BACKOFF_MS
    ensures Backoff(k) >= INITIAL_BACKOFF_MS
  {
    assert Pow2(k) == 2 * Pow2(k - 1);
  }

  predicate WellTimed(d: Dial, attempt: nat, deadline: nat)
    requires attempt > 0
  {
    && d.attempt == attempt
    && d.start < deadline
    && d.start <= d.ended
    && d.limit == Min(d.start + AttemptTimeout(attempt), deadline)
    && d.wake == Min(d.ended + Backoff(attempt), deadline)
  }

  /** Attempts are numbered from `first`; none begins before `earliest` or before
      the backoff of the previous one is over. */
  predicate Scheduled(dials: seq<Dial>, first: nat, earliest: nat, deadline: nat)
    requires first > 0
    decreases |dials|
  {
    dials == [] ||
    (WellTimed(dials[0], first, deadline) && earliest <= dials[0].start &&
     Scheduled(dials[1..], first + 1, dials[0].wake, deadline))
  }

  /** The same schedule with the loop's own variable in place of the closed form. */
  predicate ScheduledBy(dials: seq<Dial>, first: nat, backoff: nat, earliest: nat, deadline: nat)
    requires first > 0
    decreases |dials|
  {
    dials == [] ||
    (TimedBy(dials[0], first, backoff, deadline) && earliest <= dials[0].start &&
     ScheduledBy(dials[1..], first + 1, NextBackoff(backoff), dials[0].wake, deadline))
  }

  predicate TimedBy(d: Dial, attempt: nat, backoff: nat, deadline: nat) {
    && d.attempt == attempt
    && d.start < deadline
    && d.start <= d.ended
    && d.limit == Min(d.start + AttemptTimeout(attempt), deadline)
    && d.wake == Min(d.ended + backoff, deadline)
  }

  lemma {:induction false} ClosedForm(dials: seq<Dial>, first: nat, backoff: nat, earliest: nat, deadline: nat)
    requires first > 0 && backoff == Backoff(first) && ScheduledBy(dials, first, backoff, earliest, deadline)
    ensures Scheduled(dials, first, earliest, deadline)
    decreases |dials|
  {
    if dials != [] {
      BackoffFollows(first);
      ClosedForm(dials[1..], first + 1, NextBackoff(backoff), dials[0].wake, deadline);
    }
  }

  lemma AttemptIsTimed(attempt: nat, now: nat, deadline: nat, backoff: nat, t: Turn)
    requires now < deadline && backoff > 0
    ensures TimedBy(Attempt(attempt, now, deadline, backoff, t), attempt, backoff, deadline)
    ensures now < Attempt(attempt, now, deadline, backoff, t).wake
  {
  }

  lemma FromLater(dials: seq<Dial>, first: nat, backoff: nat, earliest: nat, later: nat, deadline: nat)
    requires first > 0 && earliest <= later && ScheduledBy(dials, first, backoff, later, deadline)
    ensures ScheduledBy(dials, first, backoff, earliest, deadline)
  {
  }

  lemma OneMore(d: Dial, rest: seq<Dial>, first: nat, backoff: nat, deadline: nat)
    requires first > 0 && TimedBy(d, first, backoff, deadline)
    requires ScheduledBy(rest, first + 1, NextBackoff(backoff), d.wake, deadline)
    ensures ScheduledBy([d] + rest, first, backoff, d.start, deadline)
  {
    assert ([d] + rest)[1..] == rest;
  }

  /** The first attempt, and those after it if it neither connected nor expired. */
  lemma RetryUnrolls(now: nat, deadline: nat, attempt: nat, backoff: nat, env: Environment)
    requires backoff > 0 && now < deadline
    ensures
      var t := env(attempt);
      var d := Attempt(attempt, now, deadline, backoff, t);
      Retry(now, deadline, attempt, backoff, env).dials ==
      [d] + if Continues(t, d, deadline)
            then Retry(NextStart(t, d), deadline, attempt + 1, NextBackoff(backoff), env).dials
            else []
  {
  }

  /** An attempt in time, put before later ones that are scheduled from its sleep on. */
  lemma AttemptJoins(attempt: nat, now: nat, deadline: nat, backoff: nat, t: Turn, rest: seq<Dial>)
    requires attempt > 0 && backoff > 0 && now < deadline
    requires ScheduledBy(rest, attempt + 1, NextBackoff(backoff), NextStart(t, Attempt(attempt, now, deadline, backoff, t)), deadline)
    ensures ScheduledBy([Attempt(attempt, now, deadline, backoff, t)] + rest, attempt, backoff, now, deadline)
  {
    var d := Attempt(attempt, now, deadline, backoff, t);
    AttemptIsTimed(attempt, now, deadline, backoff, t);
    FromLater(rest, attempt + 1, NextBackoff(backoff), d.wake, NextStart(t, d), deadline);
    OneMore(d, rest, attempt, backoff, deadline);
  }

  lemma {:induction false} RetryKeepsTime(now: nat, deadline: nat, attempt: nat, backoff: nat, env: Environment)
    requires attempt > 0 && backoff > 0
    ensures ScheduledBy(Retry(now, deadline, attempt, backoff, env).dials, attempt, backoff, now, deadline)
    decreases if now < deadline then deadline - now else 0
  {
    if now < deadline {
      var t := env(attempt);
      var d := Attempt(attempt, now, deadline, backoff, t);
      var rest := [];
      if Continues(t, d, deadline) {
        AttemptIsTimed(attempt, now, deadline, backoff, t);
        RetryKeepsTime(NextStart(t, d), deadline, attempt + 1, NextBackoff(backoff), env);
        rest := Retry(NextStart(t, d), deadline, attempt + 1, NextBackoff(backoff), env).dials;
      }
      AttemptJoins(attempt, now, deadline, backoff, t, rest);
      RetryUnrolls(now, deadline, attempt, backoff, env);
    }
  }

  /** For any failure pattern: attempt k may take min(5k, 20) s and its backoff is
      min(2^(k-1), 30) s, both cut at the deadline; no attempt begins before its
      backoff is over or at or after the deadline. */
  lemma RetryIsScheduled(start: nat, deadline: nat, env: Environment)
    ensures Scheduled(Retry(start, deadline, 1, INITIAL_BACKOFF_MS, env).dials, 1, start, deadline)
  {
    BackoffFollows(1);
    RetryKeepsTime(start, deadline, 1, INITIAL_BACKOFF_MS, env);
    ClosedForm(Retry(start, deadline, 1, INITIAL_BACKOFF_MS, env).dials, 1, INITIAL_BACKOFF_MS, start, deadline);
  }

  predicate ConnectedBy(d: Dial, env: Environment) {
    InTime(env(d.attempt), d.start, d.limit) && env(d.attempt).outcome == Connects
  }

  /** A dial that did not connect, put before a run, changes neither its verdict nor
      its last dial. */
  lemma LastStaysLast(d: Dial, rest: Run, env: Environment, i: nat)
    requires rest.dials != [] || rest.verdict.Expired?
    requires !ConnectedBy(d, env) && i <= |rest.dials|
    requires i > 0 ==> (ConnectedBy(rest.dials[i - 1], env) <==> i == |rest.dials| && rest.verdict.Connected?)
    ensures ConnectedBy(([d] + rest.dials)[i], env) <==> i == |rest.dials| && rest.verdict.Connected?
  {
  }

  /** The loop reports a connection exactly when its last dial connected in time,
      and every dial before that one had failed or timed out. */
  lemma {:induction false} VerdictIsTheLastDial(now: nat, deadline: nat, attempt: nat, backoff: nat, env: Environment, i: nat)
    requires backoff > 0
    ensures
      var run := Retry(now, deadline, attempt, backoff, env);
      && (run.verdict.Connected? ==> run.dials != [] && run.verdict.attempt == run.dials[|run.dials| - 1].attempt)
      && (i < |run.dials| ==> (ConnectedBy(run.dials[i], env) <==> i == |run.dials| - 1 && run.verdict.Connected?))
    decreases if now < deadline then deadline - now else 0
  {
    if now < deadline {
      var t := env(attempt);
      var d := Attempt(attempt, now, deadline, backoff, t);
      if Continues(t, d, deadline) {
        var rest := Retry(NextStart(t, d), deadline, attempt + 1, NextBackoff(backoff), env);
        VerdictIsTheLastDial(NextStart(t, d), deadline, attempt + 1, NextBackoff(backoff), env, if i > 0 then i - 1 else 0);
        if i <= |rest.dials| {
          LastStaysLast(d, rest, env, i);
        }
      }
    }
  }

  /** With punctual timers the loop is over by the deadline, unless it was called
      late. Only the last attempt and the last sleep can end past it, each by no more
      than its own lateness. */
  lemma {:induction false} OverByTheDeadline(now: nat, deadline: nat, attempt: nat, backoff: nat, env: Environment, slack: nat)
    requires backoff > 0
    requires forall k :: env(k).lag <= slack && env(k).oversleep <= slack
    ensures Retry(now, deadline, attempt, backoff, env).finished <= Max(now, deadline + 2 * slack)
    decreases if now < deadline then deadline - now else 0
  {
    if now < deadline {
      var t := env(attempt);
      var d := Attempt(attempt, now, deadline, backoff, t);
      if Continues(t, d, deadline) {
        OverByTheDeadline(NextStart(t, d), deadline, attempt + 1, NextBackoff(backoff), env, slack);
      }
    }
  }

  // ------------------------------------------------------------ how many dials

  /** The time the backoffs after attempts `first` .. `first + n - 1` take. */
  function Waits(first: nat, n: nat): nat
    requires first > 0
    decreases n
  {
    if n == 0 then 0 else Backoff(first) + Waits(first + 1, n - 1)
  }

  /** n dials fit only when the n - 1 backoffs between them end before the deadline. */
  lemma {:induction false} DialsNeedTime(dials: seq<Dial>, first: nat, earliest: nat, deadline: nat)
    requires first > 0 && dials != [] && Scheduled(dials, first, earliest, deadline)
    ensures earliest + Waits(first, |dials| - 1) < deadline
    decreases |dials|
  {
    if |dials| > 1 {
      assert WellTimed(dials[1..][0], first + 1, deadline) && dials[0].wake <= dials[1..][0].start < deadline;
      DialsNeedTime(dials[1..], first + 1, dials[0].wake, deadline);
    }
  }

  const REFUSED_AT_ONCE: Environment := attempt => Turn(Fails, 0, 0, 0)

  /** A peer that refuses at once costs one dial and one backoff. */
  lemma RefusedAtOnce(now: nat, deadline: nat, attempt: nat, backoff: nat)
    requires attempt > 0 && backoff > 0 && now + backoff <= deadline
    ensures |Retry(now, deadline, attempt, backoff, REFUSED_AT_ONCE).dials|
         == 1 + |Retry(now + backoff, deadline, attempt + 1, NextBackoff(backoff), REFUSED_AT_ONCE).dials|
  {
    var d := Attempt(attempt, now, deadline, backoff, REFUSED_AT_ONCE(attempt));
    assert NextStart(REFUSED_AT_ONCE(attempt), d) == now + backoff;
  }

  lemma SomeDial(now: nat, deadline: nat, attempt: nat, backoff: nat, env: Environment)
    requires backoff > 0 && now < deadline
    ensures |Retry(now, deadline, attempt, backoff, env).dials| > 0
  {
  }

  /** It is dialled whenever the waits allow it. */
  lemma {:induction false} RefusalsUseTheTime(now: nat, deadline: nat, first: nat, n: nat)
    requires first > 0 && Backoff(first) > 0 && now + Waits(first, n) < deadline
    ensures |Retry(now, deadline, first, Backoff(first), REFUSED_AT_ONCE).dials| > n
    decreases n
  {
    if n == 0 {
      SomeDial(now, deadline, first, Backoff(first), REFUSED_AT_ONCE);
    } else {
      BackoffFollows(first);
      BackoffFollows(first + 1);
      RefusedAtOnce(now, deadline, first, Backoff(first));
      RefusalsUseTheTime(now + Backoff(first), deadline, first + 1, n - 1);
    }
  }

  ghost predicate CanDial(start: nat, deadline: nat, n: nat) {
    exists env: Environment :: DialsOf(start, deadline, env) >= n
  }

  function DialsOf(start: nat, deadline: nat, env: Environment): nat {
    |Retry(start, deadline, 1, INITIAL_BACKOFF_MS, env).dials|
  }

  /** Some environment provokes n + 1 dials exactly when the first n backoffs end
      before the deadline. */
  lemma DialsPossibleIff(start: nat, deadline: nat, n: nat)
    ensures CanDial(start, deadline, n + 1) <==> start + Waits(1, n) < deadline
  {
    BackoffFollows(1);
    if env: Environment :| DialsOf(start, deadline, env) >= n + 1 {
      var dials := Retry(start, deadline, 1, INITIAL_BACKOFF_MS, env).dials;
      RetryIsScheduled(start, deadline, env);
      DialsNeedTime(dials, 1, start, deadline);
      WaitsGrow(1, n, |dials| - 1);
    }
    if start + Waits(1, n) < deadline {
      RefusalsUseTheTime(start, deadline, 1, n);
      assert DialsOf(start, deadline, REFUSED_AT_ONCE) >= n + 1;
    }
  }

  lemma {:induction false} WaitsGrow(first: nat, n: nat, m: nat)
    requires first > 0 && n <= m
    ensures Waits(first, n) <= Waits(first, m)
    decreases n
  {
    if n > 0 {
      WaitsGrow(first + 1, n - 1, m - 1);
    }
  }

  /** The client's budget of 30 s allows five dials and never a sixth. */
  lemma FiveDialsInThirtySeconds(start: nat)
    ensures CanDial(start, start + CLIENT_CONNECT_DEADLINE, 5)
    ensures !CanDial(start, start + CLIENT_CONNECT_DEADLINE, 6)
  {
    assert Pow2(4) == 16 && Pow2(3) == 8 && Pow2(2) == 4 && Pow2(1) == 2;
    assert Waits(1, 4) == 15_000 && Waits(1, 5) == 31_000 by {
      assert Backoff(1) == 1_000 && Backoff(2) == 2_000 && Backoff(3) == 4_000 && Backoff(4) == 8_000 && Backoff(5) == 16_000;
      assert Waits(6, 0) == 0 && Waits(5, 0) == 0;
      assert Waits(5, 1) == 16_000 && Waits(4, 1) == 8_000;
      assert Waits(4, 2) == 24_000 && Waits(3, 2) == 12_000;
      assert Waits(3, 3) == 28_000 && Waits(2, 3) == 14_000;
    }
    DialsPossibleIff(start, start + CLIENT_CONNECT_DEADLINE, 4);
    DialsPossibleIff(start, start + CLIENT_CONNECT_DEADLINE, 5);
  }
}
