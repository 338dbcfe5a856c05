/** Path changes of one connection, as Access logs them. */
module PathPoller {
  import opened Common
  import opened Sorting
  import opened PathReport

  type Snapshot = seq<Row>

  datatype Summary = Summary(beforeActive: Snapshot, afterActive: Snapshot, added: seq<Kind>, removed: seq<Kind>)

  predicate KindLe(a: Kind, b: Kind) {
    a == Relay || b == Direct
  }

  predicate HasActive(ts: Snapshot) {
    exists t :: t in ts && t.active
  }

  function Active(ts: Snapshot): Snapshot {
    if ts == [] then [] else (if ts[0].active then [ts[0]] else []) + Active(ts[1..])
  }

  function ActiveSet(ts: Snapshot): set<(Kind, string)> {
    set t | t in ts && t.active :: (t.kind, t.addr)
  }

  function Kinds(ts: Snapshot): seq<Kind> {
    if ts == [] then [] else [ts[0].kind] + Kinds(ts[1..])
  }

  /** The kinds in a set of addresses, sorted and collapsed; `KindsInAnyOrder` shows
      that the order in which a hash set yields them makes no difference. */
  function KindsOf(addrs: set<(Kind, string)>): seq<Kind> {
    (if exists a :: a in addrs && a.0 == Relay then [Relay] else []) +
    (if exists a :: a in addrs && a.0 == Direct then [Direct] else [])
  }

  function DiffTransports(before: Snapshot, after: Snapshot): Option<Summary> {
    var b, a := ActiveSet(before), ActiveSet(after);
    if b == a then None else Some(Summary(Active(before), Active(after), KindsOf(a - b), KindsOf(b - a)))
  }

  // -------------------------------------------------------------- rendering

  function Name(k: Kind): string {
    match k
    case Relay => "relay"
    case Direct => "direct"
  }

  function Join(parts: seq<string>, separator: string): string {
    if parts == [] then ""
    else if |parts| == 1 then parts[0]
    else parts[0] + separator + Join(parts[1..], separator)
  }

  function Names(kinds: seq<Kind>): seq<string> {
    seq(|kinds|, i requires 0 <= i < |kinds| => Name(kinds[i]))
  }

  function RenderActiveKinds(ts: Snapshot): string {
    var kinds := Canonical(Kinds(Active(ts)), KindLe);
    if kinds == [] then "none" else Join(Names(kinds), "+")
  }

  function Items(ts: Snapshot): seq<string> {
    seq(|ts|, i requires 0 <= i < |ts| => Name(ts[i].kind) + "=" + ts[i].addr)
  }

  function RenderActiveTransports(ts: Snapshot): string {
    Join(Items(Active(ts)), ", ")
  }

  function RenderEstablishedPaths(report: Option<Snapshot>): string {
    match report
    case Some(ts) =>
      var rendered := RenderActiveTransports(ts);
      if rendered == "" then "paths pending" else rendered
    case None => "paths pending"
  }

  function LineText(from: string, to: string, now: string): string {
    "path changed " + from + "\U{2192}" + to + " (now active: " + now + ")"
  }

  // ------------------------------------------------------------ the poller

  function PollerStep(last: Snapshot, snapshot: Snapshot): (Option<string>, Snapshot) {
    if !HasActive(last) then (None, snapshot)
    else if !HasActive(snapshot) then (None, last)
    else
      match DiffTransports(last, snapshot)
      case Some(change) =>
        var line := LineText(RenderActiveKinds(change.beforeActive), RenderActiveKinds(change.afterActive),
                             RenderActiveTransports(change.afterActive));
        (Some(line), snapshot)
      case None => (None, snapshot)
  }

  /** What operators are told about: the snapshots with an active path, the initial
      baseline included, those of a peer that briefly had no entry left out. */
  function Visible(initial: Snapshot, ticks: seq<Option<Snapshot>>): seq<Snapshot> {
    if ticks == [] then (if HasActive(initial) then [initial] else [])
    else
      var tick := ticks[|ticks| - 1];
      Visible(initial, ticks[..|ticks| - 1]) + if tick.Some? && HasActive(tick.value) then [tick.value] else []
  }

  datatype Move = Move(from: Snapshot, to: Snapshot)

  /** The adjacent pairs with different active sets. */
  function Moves(vis: seq<Snapshot>): seq<Move> {
    if |vis| < 2 then []
    else
      var from, to := vis[|vis| - 2], vis[|vis| - 1];
      Moves(vis[..|vis| - 1]) + if ActiveSet(from) != ActiveSet(to) then [Move(from, to)] else []
  }

  function MoveLine(m: Move): string {
    LineText(RenderActiveKinds(m.from), RenderActiveKinds(m.to), RenderActiveTransports(m.to))
  }

  function Lines(moves: seq<Move>): seq<string> {
    seq(|moves|, i requires 0 <= i < |moves| => MoveLine(moves[i]))
  }

  /** The poller's loop until the connection closes: exactly one line per move. */
  method Poll(initial: Snapshot, ticks: seq<Option<Snapshot>>) returns (lines: seq<string>)
    ensures lines == Lines(Moves(Visible(initial, ticks)))
  {
    lines := [];
    var last := initial;
    for i := 0 to |ticks|
      invariant lines == Lines(Moves(Visible(initial, ticks[..i])))
      invariant Baseline(last, Visible(initial, ticks[..i]))
    {
      assert ticks[..i + 1][..i] == ticks[..i];
      ghost var vis := Visible(initial, ticks[..i]);
      assert Visible(initial, ticks[..i + 1]) ==
             vis + if ticks[i].Some? && HasActive(ticks[i].value) then [ticks[i].value] else [];
      if ticks[i].Some? {
        var step := PollerStep(last, ticks[i].value);
        StepFollows(last, ticks[i].value, vis);
        if step.0.Some? {
          lines := lines + [step.0.value];
        }
        last := step.1;
      } else {
        assert vis + [] == vis;
      }
    }
    assert ticks[..|ticks|] == ticks;
  }

  /** The baseline is the last visible snapshot, or one that shows nothing. */
  predicate Baseline(last: Snapshot, vis: seq<Snapshot>) {
    if vis == [] then !HasActive(last) else HasActive(last) && last == vis[|vis| - 1]
  }

  /** One tick extends the visible snapshots and the lines together. */
  lemma StepFollows(last: Snapshot, snapshot: Snapshot, vis: seq<Snapshot>)
    requires Baseline(last, vis)
    ensures
      var step, more := PollerStep(last, snapshot), vis + if HasActive(snapshot) then [snapshot] else [];
      && Baseline(step.1, more)
      && Lines(Moves(more)) == Lines(Moves(vis)) + if step.0.Some? then [step.0.value] else []
  {
    if !HasActive(snapshot) {
      assert vis + [] == vis;
      assert Lines(Moves(vis)) + [] == Lines(Moves(vis));
    } else if vis == [] {
      assert vis + [snapshot] == [snapshot];
    } else {
      VisibleStepFollows(last, snapshot, vis);
    }
  }

  lemma VisibleStepFollows(last: Snapshot, snapshot: Snapshot, vis: seq<Snapshot>)
    requires vis != [] && HasActive(last) && HasActive(snapshot) && last == vis[|vis| - 1]
    ensures PollerStep(last, snapshot).1 == snapshot
    ensures Lines(Moves(vis + [snapshot])) ==
            Lines(Moves(vis)) + if PollerStep(last, snapshot).0.Some? then [PollerStep(last, snapshot).0.value] else []
  {
    StepAddsItsMove(last, snapshot);
    MovesGrow(vis, snapshot);
    if ActiveSet(last) == ActiveSet(snapshot) {
      assert Lines(Moves(vis)) + [] == Lines(Moves(vis));
    } else {
      LinesGrow(Moves(vis), Move(last, snapshot));
    }
  }

  lemma LinesGrow(moves: seq<Move>, m: Move)
    ensures Lines(moves + [m]) == Lines(moves) + [MoveLine(m)]
  {
  }

  /** A step between two visible snapshots says what the move between them is. */
  lemma StepAddsItsMove(last: Snapshot, snapshot: Snapshot)
    requires HasActive(last) && HasActive(snapshot)
    ensures PollerStep(last, snapshot) ==
            (if ActiveSet(last) != ActiveSet(snapshot) then Some(MoveLine(Move(last, snapshot))) else None, snapshot)
  {
    ActiveTwice(last);
    ActiveTwice(snapshot);
  }

  lemma MovesGrow(vis: seq<Snapshot>, snapshot: Snapshot)
    requires vis != []
    ensures
      var last := vis[|vis| - 1];
      Moves(vis + [snapshot]) == if ActiveSet(last) != ActiveSet(snapshot) then Moves(vis) + [Move(last, snapshot)] else Moves(vis)
  {
    var more := vis + [snapshot];
    assert more[..|more| - 1] == vis;
    assert Moves(vis) + [] == Moves(vis);
  }

  // ------------------------------------------------------ active sets, kinds

  lemma {:induction false} ActiveIsFilter(ts: Snapshot, t: Row)
    ensures t in Active(ts) <==> t in ts && t.active
  {
    if ts != [] {
      ActiveIsFilter(ts[1..], t);
      assert ts == [ts[0]] + ts[1..];
    }
  }

  /** The summary keeps only active rows; rendering them filters once more. */
  lemma {:induction false} ActiveTwice(ts: Snapshot)
    ensures Active(Active(ts)) == Active(ts)
  {
    if ts != [] {
      ActiveTwice(ts[1..]);
      if ts[0].active {
        assert Active(ts)[0] == ts[0] && Active(ts)[1..] == Active(ts[1..]);
      } else {
        assert Active(ts) == Active(ts[1..]);
      }
    }
  }

  lemma {:induction false} KindsAre(ts: Snapshot, k: Kind)
    ensures k in Kinds(ts) <==> exists t :: t in ts && t.kind == k
  {
    if ts != [] {
      KindsAre(ts[1..], k);
      assert ts == [ts[0]] + ts[1..];
    }
  }

  lemma KindLeIsTotalOrder()
    ensures TotalOrder(KindLe)
  {
  }

  lemma KindsOfAre(addrs: set<(Kind, string)>, k: Kind)
    ensures k in KindsOf(addrs) <==> exists a :: a in addrs && a.0 == k
    ensures StrictlySorted(KindsOf(addrs), KindLe)
  {
  }

  /** Kinds read off a set in any order, sorted and collapsed, are `KindsOf`. */
  lemma KindsInAnyOrder(addrs: set<(Kind, string)>, kinds: seq<Kind>)
    requires forall k :: k in kinds <==> exists a :: a in addrs && a.0 == k
    ensures Canonical(kinds, KindLe) == KindsOf(addrs)
  {
    KindLeIsTotalOrder();
    CanonicalIsStrict(kinds, KindLe);
    forall k ensures k in KindsOf(addrs) <==> k in Canonical(kinds, KindLe) {
      KindsOfAre(addrs, k);
    }
    KindsOfAre(addrs, Relay);
    StrictIsUnique(Canonical(kinds, KindLe), KindsOf(addrs), KindLe);
  }

  /** The kinds of a set of addresses, in whatever order the hash set yields them. */
  method ListedKinds(addrs: set<(Kind, string)>) returns (kinds: seq<Kind>)
    ensures forall k :: k in kinds <==> exists a :: a in addrs && a.0 == k
  {
    kinds := [];
    var rest := addrs;
    while rest != {}
      invariant rest <= addrs
      invariant forall k :: k in kinds <==> exists a :: a in addrs - rest && a.0 == k
      decreases rest
    {
      var a :| a in rest;
      ghost var seen := addrs - rest;
      kinds, rest := kinds + [a.0], rest - {a};
      assert addrs - rest == seen + {a};
    }
    assert addrs - {} == addrs;
  }

  /** The diff as it is computed: differences listed, sorted and collapsed. */
  method Diff(before: Snapshot, after: Snapshot) returns (summary: Option<Summary>)
    ensures summary == DiffTransports(before, after)
  {
    var b, a := ActiveSet(before), ActiveSet(after);
    if b == a {
      return None;
    }
    var added := ListedKinds(a - b);
    var removed := ListedKinds(b - a);
    KindsInAnyOrder(a - b, added);
    KindsInAnyOrder(b - a, removed);
    return Some(Summary(Active(before), Active(after), Canonical(added, KindLe), Canonical(removed, KindLe)));
  }

  lemma ActiveKinds(ts: Snapshot, k: Kind)
    ensures k in Kinds(Active(ts)) <==> exists a :: a in ActiveSet(ts) && a.0 == k
  {
    KindsAre(Active(ts), k);
    if k in Kinds(Active(ts)) {
      var t :| t in Active(ts) && t.kind == k;
      ActiveIsFilter(ts, t);
      assert (t.kind, t.addr) in ActiveSet(ts);
    }
    if a :| a in ActiveSet(ts) && a.0 == k {
      var t :| t in ts && t.active && (t.kind, t.addr) == a;
      ActiveIsFilter(ts, t);
    }
  }

  /** The kinds in a line depend on the active set alone. */
  lemma RenderedKindsAre(ts: Snapshot)
    ensures
      var kinds := KindsOf(ActiveSet(ts));
      RenderActiveKinds(ts) == if kinds == [] then "none" else Join(Names(kinds), "+")
  {
    forall k ensures k in Kinds(Active(ts)) <==> exists a :: a in ActiveSet(ts) && a.0 == k {
      ActiveKinds(ts, k);
    }
    KindsInAnyOrder(ActiveSet(ts), Kinds(Active(ts)));
  }

  predicate NamesKinds(text: string) {
    text == "relay" || text == "direct" || text == "relay+direct"
  }

  lemma RenderedKindsName(ts: Snapshot)
    ensures if HasActive(ts) then NamesKinds(RenderActiveKinds(ts)) else RenderActiveKinds(ts) == "none"
  {
    RenderedKindsAre(ts);
    if HasActive(ts) {
      var t :| t in ts && t.active;
      assert (t.kind, t.addr) in ActiveSet(ts);
      KindsOfAre(ActiveSet(ts), t.kind);
      JoinedKinds(KindsOf(ActiveSet(ts)));
    }
  }

  lemma JoinedKinds(kinds: seq<Kind>)
    requires kinds == [Relay] || kinds == [Direct] || kinds == [Relay, Direct]
    ensures NamesKinds(Join(Names(kinds), "+"))
  {
    assert Names([Relay]) == ["relay"] && Names([Direct]) == ["direct"] && Names([Relay, Direct]) == ["relay", "direct"];
    assert Join(["relay", "direct"], "+") == "relay" + "+" + Join(["direct"], "+");
  }

  // --------------------------------------------------------------- theorems

  /** A diff reports exactly the changes of the active set: nothing for equal sets,
      a kind as added or removed when some address of it appeared or went. */
  lemma DiffReportsActiveChanges(before: Snapshot, after: Snapshot, k: Kind)
    ensures DiffTransports(before, after).None? <==> ActiveSet(before) == ActiveSet(after)
    ensures DiffTransports(before, after).Some? ==>
              var d := DiffTransports(before, after).value;
              && (k in d.added <==> exists a :: a in ActiveSet(after) && a !in ActiveSet(before) && a.0 == k)
              && (k in d.removed <==> exists a :: a in ActiveSet(before) && a !in ActiveSet(after) && a.0 == k)
              && (d.added != [] || d.removed != [])
  {
    var b, a := ActiveSet(before), ActiveSet(after);
    KindsOfAre(a - b, k);
    KindsOfAre(b - a, k);
    if x :| x in a - b {
      KindsOfAre(a - b, x.0);
    } else if x :| x in b - a {
      KindsOfAre(b - a, x.0);
    } else {
      assert a == b;
    }
  }

  lemma {:induction false} MovesAreVisible(vis: seq<Snapshot>, i: nat)
    requires forall j :: 0 <= j < |vis| ==> HasActive(vis[j])
    requires i < |Moves(vis)|
    ensures HasActive(Moves(vis)[i].from) && HasActive(Moves(vis)[i].to)
    ensures ActiveSet(Moves(vis)[i].from) != ActiveSet(Moves(vis)[i].to)
  {
    if i < |Moves(vis[..|vis| - 1])| {
      MovesAreVisible(vis[..|vis| - 1], i);
    }
  }

  lemma {:induction false} VisibleIsActive(initial: Snapshot, ticks: seq<Option<Snapshot>>, j: nat)
    requires j < |Visible(initial, ticks)|
    ensures HasActive(Visible(initial, ticks)[j])
  {
    if ticks != [] && j < |Visible(initial, ticks[..|ticks| - 1])| {
      VisibleIsActive(initial, ticks[..|ticks| - 1], j);
    }
  }

  /** Between the last move and the last snapshot the active set stays put. */
  lemma {:induction false} LastMoveHolds(vis: seq<Snapshot>)
    ensures vis != [] ==>
              ActiveSet(vis[|vis| - 1]) == ActiveSet(if Moves(vis) == [] then vis[0] else Moves(vis)[|Moves(vis)| - 1].to)
  {
    if |vis| >= 2 {
      LastMoveHolds(vis[..|vis| - 1]);
    }
  }

  /** A move starts from the active set the previous one ended in. */
  lemma {:induction false} MovesChain(vis: seq<Snapshot>, i: nat)
    requires i + 1 < |Moves(vis)|
    ensures ActiveSet(Moves(vis)[i].to) == ActiveSet(Moves(vis)[i + 1].from)
  {
    var before := vis[..|vis| - 1];
    if i + 1 < |Moves(before)| {
      MovesChain(before, i);
    } else {
      LastMoveHolds(before);
    }
  }

  /** No line says `none`, and each continues where the one before it ended. */
  lemma LinesNameKindsAndChain(initial: Snapshot, ticks: seq<Option<Snapshot>>, i: nat)
    requires i < |Moves(Visible(initial, ticks))|
    ensures
      var moves := Moves(Visible(initial, ticks));
      && NamesKinds(RenderActiveKinds(moves[i].from)) && NamesKinds(RenderActiveKinds(moves[i].to))
      && (i + 1 < |moves| ==> RenderActiveKinds(moves[i + 1].from) == RenderActiveKinds(moves[i].to))
  {
    var vis := Visible(initial, ticks);
    forall j | 0 <= j < |vis| ensures HasActive(vis[j]) {
      VisibleIsActive(initial, ticks, j);
    }
    MovesAreVisible(vis, i);
    RenderedKindsName(Moves(vis)[i].from);
    RenderedKindsName(Moves(vis)[i].to);
    if i + 1 < |Moves(vis)| {
      MovesChain(vis, i);
      RenderedKindsAre(Moves(vis)[i].to);
      RenderedKindsAre(Moves(vis)[i + 1].from);
    }
  }

  /** The poller stays silent exactly when every visible snapshot has the same
      active set. */
  lemma {:induction false} SilentIff(vis: seq<Snapshot>)
    ensures Moves(vis) == [] <==> forall i, j :: 0 <= i < j < |vis| ==> ActiveSet(vis[i]) == ActiveSet(vis[j])
  {
    if |vis| >= 2 {
      var before, n := vis[..|vis| - 1], |vis|;
      SilentIff(before);
      if Moves(vis) == [] {
        assert Moves(before) == [] && ActiveSet(vis[n - 2]) == ActiveSet(vis[n - 1]);
        forall i, j | 0 <= i < j < n ensures ActiveSet(vis[i]) == ActiveSet(vis[j]) {
          assert ActiveSet(before[i]) == ActiveSet(before[n - 2]);
          if j < n - 1 {
            assert ActiveSet(before[i]) == ActiveSet(before[j]);
          }
        }
      }
    }
  }

  /** An established line says `paths pending` exactly when no path is active yet. */
  lemma EstablishedIsPendingIff(report: Option<Snapshot>)
    ensures RenderEstablishedPaths(report) == "paths pending" <==> report.None? || !HasActive(report.value)
  {
    if report.Some? {
      var active := Active(report.value);
      if active == [] {
        forall t | t in report.value ensures !t.active {
          ActiveIsFilter(report.value, t);
        }
      } else {
        ActiveIsFilter(report.value, active[0]);
        JoinStartsWithFirst(Items(active), ", ");
        var text := RenderActiveTransports(report.value);
        assert text[0] == Items(active)[0][0] && (text[0] == 'r' || text[0] == 'd');
      }
    }
  }

  lemma JoinStartsWithFirst(parts: seq<string>, separator: string)
    requires parts != []
    ensures parts[0] <= Join(parts, separator)
  {
  }
}
