/** The two flow tables as values, and what every run over them keeps.

    `ClientTable` is Access's table for one session incarnation; `PeerTable` is
    Serve's table for one peer connection. The classes in `FlowClasses` update
    the same tables in place. */
module Flows {
  import opened Common
  import opened Wire

  /** Milliseconds on a logical clock. */
  type Instant = nat

  datatype SocketAddr = SocketAddr(host: string, port: nat)

  /** Elapsed time, zero when `seen` lies in the future. */
  function Elapsed(now: Instant, seen: Instant): nat {
    if now < seen then 0 else now - seen
  }

  // ---------------------------------------------------------------- Access

  datatype ClientEntry = ClientEntry(client: SocketAddr, seen: Instant)

  datatype ClientTable = ClientTable(
    byClient: map<SocketAddr, FlowId>,
    byFlow: map<FlowId, ClientEntry>,
    next: FlowId)

  datatype Refused = Cap | Exhausted

  const EMPTY_CLIENTS := ClientTable(map[], map[], 0)

  function Touch(t: ClientTable, client: SocketAddr, now: Instant, maxFlows: nat)
    : (r: (Result<FlowId, Refused>, ClientTable))
  {
    if client in t.byClient then
      var flow := t.byClient[client];
      (Ok(flow), t.(byFlow := t.byFlow[flow := ClientEntry(client, now)]))
    else if |t.byFlow| >= maxFlows then
      (Err(Cap), t)
    else if t.next == U32_MAX then
      (Err(Exhausted), t)
    else
      (Ok(t.next),
       ClientTable(t.byClient[client := t.next], t.byFlow[t.next := ClientEntry(client, now)], t.next + 1))
  }

  function ClientOf(t: ClientTable, flow: FlowId, now: Instant): (Option<SocketAddr>, ClientTable) {
    if flow in t.byFlow then
      var client := t.byFlow[flow].client;
      (Some(client), t.(byFlow := t.byFlow[flow := ClientEntry(client, now)]))
    else
      (None, t)
  }

  function IdleFlows(t: ClientTable, now: Instant, idle: nat): set<FlowId> {
    set f | f in t.byFlow && Elapsed(now, t.byFlow[f].seen) >= idle
  }

  function RemoveFlows(t: ClientTable, gone: set<FlowId>): ClientTable
    requires gone <= t.byFlow.Keys
  {
    t.(byFlow := t.byFlow - gone,
       byClient := t.byClient - (set f | f in gone :: t.byFlow[f].client))
  }

  function ExpireClients(t: ClientTable, now: Instant, idle: nat): ClientTable {
    RemoveFlows(t, IdleFlows(t, now, idle))
  }

  lemma RemoveOneMore(t: ClientTable, gone: set<FlowId>, flow: FlowId)
    requires gone <= t.byFlow.Keys && flow in t.byFlow
    ensures var u := RemoveFlows(t, gone);
            RemoveFlows(t, gone + {flow})
            == u.(byFlow := u.byFlow - {flow}, byClient := u.byClient - {t.byFlow[flow].client})
  {
    assert (set f | f in gone + {flow} :: t.byFlow[f].client)
        == (set f | f in gone :: t.byFlow[f].client) + {t.byFlow[flow].client};
  }

  /** The two maps are inverse bijections, and every live flow was issued. */
  ghost predicate ClientsValid(t: ClientTable) {
    && (forall c :: c in t.byClient ==> t.byClient[c] in t.byFlow && t.byFlow[t.byClient[c]].client == c)
    && (forall f :: f in t.byFlow ==>
          && f < t.next
          && t.byFlow[f].client in t.byClient
          && t.byClient[t.byFlow[f].client] == f)
  }

  lemma TouchKeepsValid(t: ClientTable, client: SocketAddr, now: Instant, maxFlows: nat)
    requires ClientsValid(t)
    ensures ClientsValid(Touch(t, client, now, maxFlows).1)
  {
  }

  lemma ClientOfKeepsValid(t: ClientTable, flow: FlowId, now: Instant)
    requires ClientsValid(t)
    ensures ClientsValid(ClientOf(t, flow, now).1)
  {
  }

  lemma ExpireKeepsValid(t: ClientTable, now: Instant, idle: nat)
    requires ClientsValid(t)
    ensures ClientsValid(ExpireClients(t, now, idle))
  {
    var gone := IdleFlows(t, now, idle);
    var u := ExpireClients(t, now, idle);
    forall c | c in u.byClient
      ensures u.byClient[c] in u.byFlow && u.byFlow[u.byClient[c]].client == c
    {
      assert t.byClient[c] !in gone;
    }
  }

  /** Expiry ends exactly the flows idle for the timeout, each with its client; every
      other flow and client stays as it was. */
  lemma ExpiryEndsExactlyTheIdle(t: ClientTable, now: Instant, idle: nat, flow: FlowId, client: SocketAddr)
    requires ClientsValid(t)
    ensures
      var u := ExpireClients(t, now, idle);
      && (flow in u.byFlow <==> flow in t.byFlow && Elapsed(now, t.byFlow[flow].seen) < idle)
      && (flow in u.byFlow ==> u.byFlow[flow] == t.byFlow[flow])
      && (client in u.byClient <==> client in t.byClient && t.byClient[client] in u.byFlow)
      && (client in u.byClient ==> u.byClient[client] == t.byClient[client])
      && u.next == t.next
  {
    var gone := IdleFlows(t, now, idle);
    if client in t.byClient && t.byClient[client] in gone {
      assert client in (set f | f in gone :: t.byFlow[f].client);
    }
  }

  /** One call on Access's table. The cap is the service's and never changes. */
  datatype ClientOp =
    | DoTouch(client: SocketAddr, now: Instant)
    | DoClientOf(flow: FlowId, now: Instant)
    | DoExpire(now: Instant, idle: nat)

  datatype Issue = Issue(flow: FlowId, client: SocketAddr)

  function ApplyClientOp(t: ClientTable, op: ClientOp, maxFlows: nat): ClientTable {
    match op
    case DoTouch(client, now) => Touch(t, client, now, maxFlows).1
    case DoClientOf(flow, now) => ClientOf(t, flow, now).1
    case DoExpire(now, idle) => ExpireClients(t, now, idle)
  }

  /** The identifiers an operation hands out for the first time. */
  function IssuedBy(t: ClientTable, op: ClientOp, maxFlows: nat): seq<Issue> {
    match op
    case DoTouch(client, now) =>
      var r := Touch(t, client, now, maxFlows).0;
      if r.Ok? && client !in t.byClient then [Issue(r.value, client)] else []
    case _ => []
  }

  /** The table after `ops`, started empty as every incarnation is. */
  function RunClients(ops: seq<ClientOp>, maxFlows: nat): ClientTable {
    if ops == [] then EMPTY_CLIENTS
    else ApplyClientOp(RunClients(ops[..|ops| - 1], maxFlows), ops[|ops| - 1], maxFlows)
  }

  /** Every identifier handed out during `ops`, in order. */
  function IssuedIn(ops: seq<ClientOp>, maxFlows: nat): seq<Issue> {
    if ops == [] then []
    else
      IssuedIn(ops[..|ops| - 1], maxFlows)
      + IssuedBy(RunClients(ops[..|ops| - 1], maxFlows), ops[|ops| - 1], maxFlows)
  }

  lemma SubmapSize<X, Y>(m: map<X, Y>, gone: set<X>)
    ensures |m - gone| <= |m|
  {
    assert (m - gone).Keys <= m.Keys;
    SubsetSize((m - gone).Keys, m.Keys);
  }

  lemma {:induction false} SubsetSize<X>(a: set<X>, b: set<X>)
    requires a <= b
    ensures |a| <= |b|
    decreases a
  {
    if a != {} {
      var x :| x in a;
      SubsetSize(a - {x}, b - {x});
    }
  }

  ghost predicate ClientRunOk(t: ClientTable, issued: seq<Issue>, maxFlows: nat) {
    && ClientsValid(t)
    && |t.byFlow| <= maxFlows
    && |issued| == t.next
    && (forall i :: 0 <= i < |issued| ==> issued[i].flow == i)
    && (forall f :: f in t.byFlow ==> f < |issued| && issued[f].client == t.byFlow[f].client)
  }

  /** Over any run: identifiers are issued as 0, 1, 2, ... in that order, so none
      is ever reissued; the maps stay inverse; the cap holds; and a live flow
      still belongs to the client it was issued to. */
  lemma {:induction false} ClientRunInvariant(ops: seq<ClientOp>, maxFlows: nat)
    ensures ClientRunOk(RunClients(ops, maxFlows), IssuedIn(ops, maxFlows), maxFlows)
  {
    if ops != [] {
      var earlier, op := ops[..|ops| - 1], ops[|ops| - 1];
      ClientRunInvariant(earlier, maxFlows);
      ClientStepKeepsOk(RunClients(earlier, maxFlows), op, IssuedIn(earlier, maxFlows), maxFlows);
    }
  }

  lemma ClientStepKeepsOk(t: ClientTable, op: ClientOp, issued: seq<Issue>, maxFlows: nat)
    requires ClientRunOk(t, issued, maxFlows)
    ensures ClientRunOk(ApplyClientOp(t, op, maxFlows), issued + IssuedBy(t, op, maxFlows), maxFlows)
  {
    match op {
      case DoTouch(client, now) => TouchStepKeepsOk(t, client, now, issued, maxFlows);
      case DoClientOf(flow, now) => ClientOfStepKeepsOk(t, flow, now, issued, maxFlows);
      case DoExpire(now, idle) => ExpireStepKeepsOk(t, now, idle, issued, maxFlows);
    }
  }

  lemma ClientOfStepKeepsOk(t: ClientTable, flow: FlowId, now: Instant, issued: seq<Issue>, maxFlows: nat)
    requires ClientRunOk(t, issued, maxFlows)
    ensures var op := DoClientOf(flow, now);
            ClientRunOk(ApplyClientOp(t, op, maxFlows), issued + IssuedBy(t, op, maxFlows), maxFlows)
  {
    ClientOfKeepsValid(t, flow, now);
    SameKeysSameSize(t.byFlow, ApplyClientOp(t, DoClientOf(flow, now), maxFlows).byFlow);
    assert issued + [] == issued;
  }

  lemma ExpireStepKeepsOk(t: ClientTable, now: Instant, idle: nat, issued: seq<Issue>, maxFlows: nat)
    requires ClientRunOk(t, issued, maxFlows)
    ensures var op := DoExpire(now, idle);
            ClientRunOk(ApplyClientOp(t, op, maxFlows), issued + IssuedBy(t, op, maxFlows), maxFlows)
  {
    ExpireKeepsValid(t, now, idle);
    SubmapSize(t.byFlow, IdleFlows(t, now, idle));
    assert issued + [] == issued;
  }

  lemma TouchStepKeepsOk(t: ClientTable, client: SocketAddr, now: Instant, issued: seq<Issue>, maxFlows: nat)
    requires ClientRunOk(t, issued, maxFlows)
    ensures var op := DoTouch(client, now);
            ClientRunOk(ApplyClientOp(t, op, maxFlows), issued + IssuedBy(t, op, maxFlows), maxFlows)
  {
    if client in t.byClient {
      TouchKnownKeepsOk(t, client, now, issued, maxFlows);
    } else if |t.byFlow| < maxFlows && t.next != U32_MAX {
      TouchIssuesKeepsOk(t, client, now, issued, maxFlows);
    }
    assert issued + [] == issued;
  }

  lemma TouchKnownKeepsOk(t: ClientTable, client: SocketAddr, now: Instant, issued: seq<Issue>, maxFlows: nat)
    requires ClientRunOk(t, issued, maxFlows) && client in t.byClient
    ensures ClientRunOk(Touch(t, client, now, maxFlows).1, issued, maxFlows)
  {
    TouchKeepsValid(t, client, now, maxFlows);
    SameKeysSameSize(t.byFlow, Touch(t, client, now, maxFlows).1.byFlow);
  }

  lemma TouchIssuesKeepsOk(t: ClientTable, client: SocketAddr, now: Instant, issued: seq<Issue>, maxFlows: nat)
    requires ClientRunOk(t, issued, maxFlows)
    requires client !in t.byClient && |t.byFlow| < maxFlows && t.next != U32_MAX
    ensures ClientRunOk(Touch(t, client, now, maxFlows).1, issued + [Issue(t.next, client)], maxFlows)
  {
    var u := Touch(t, client, now, maxFlows).1;
    TouchKeepsValid(t, client, now, maxFlows);
    NewKeySize(t.byFlow, t.next, ClientEntry(client, now));
    var more := issued + [Issue(t.next, client)];
    forall f | f in u.byFlow ensures f < |more| && more[f].client == u.byFlow[f].client {
      assert f != t.next ==> f in t.byFlow && more[f] == issued[f];
    }
  }

  lemma NewKeySize<X, Y>(m: map<X, Y>, k: X, v: Y)
    requires k !in m
    ensures |m[k := v]| == |m| + 1
  {
    assert m[k := v].Keys == m.Keys + {k};
    assert |m[k := v]| == |m[k := v].Keys| && |m| == |m.Keys|;
  }

  lemma SameKeysSameSize<X, Y>(m: map<X, Y>, n: map<X, Y>)
    requires m.Keys == n.Keys
    ensures |m| == |n|
  {
    assert |m| == |m.Keys| && |n| == |n.Keys|;
  }

  ghost predicate HasFlow(t: ClientTable, client: SocketAddr) {
    exists f :: f in t.byFlow && t.byFlow[f].client == client
  }

  /** What `touch` answers after any run, in terms of the run alone: a client
      with a live flow keeps that flow; a new one is refused at the cap, and
      past the cap check is refused exactly when all 2^32 - 1 identifiers have
      been issued. A refusal leaves the table as it was. */
  lemma {:induction false} TouchAnswer(ops: seq<ClientOp>, maxFlows: nat, client: SocketAddr, now: Instant)
    ensures var t := RunClients(ops, maxFlows);
            var issued := IssuedIn(ops, maxFlows);
            var (r, after) := Touch(t, client, now, maxFlows);
            var live := HasFlow(t, client);
            && (live ==> r.Ok? && r.value in t.byFlow && t.byFlow[r.value].client == client)
            && (r == Err(Cap) <==> !live && |t.byFlow| == maxFlows)
            && (r == Err(Exhausted) <==> !live && |t.byFlow| < maxFlows && |issued| == U32_MAX)
            && (r.Ok? && !live ==> r.value == |issued| && r.value < U32_MAX)
            && (r.Err? ==> after == t)
            && (r.Ok? ==> r.value in after.byFlow && after.byFlow[r.value] == ClientEntry(client, now))
  {
    ClientRunInvariant(ops, maxFlows);
    var t := RunClients(ops, maxFlows);
    if client in t.byClient {
      assert t.byFlow[t.byClient[client]].client == client;
    }
  }

  /** Identifiers of one incarnation strictly increase, whichever clients ask. */
  lemma IssuedStrictlyIncrease(ops: seq<ClientOp>, maxFlows: nat)
    ensures var issued := IssuedIn(ops, maxFlows);
            && |issued| <= U32_MAX
            && (forall i, j :: 0 <= i < j < |issued| ==> issued[i].flow < issued[j].flow)
  {
    ClientRunInvariant(ops, maxFlows);
  }

  /** Exhaustion is reachable only by spending every identifier, and from then on
      no run can issue another one. */
  lemma {:induction false} ExhaustedForever(ops: seq<ClientOp>, more: seq<ClientOp>, maxFlows: nat)
    requires |IssuedIn(ops, maxFlows)| == U32_MAX
    ensures IssuedIn(ops + more, maxFlows) == IssuedIn(ops, maxFlows)
  {
    if more == [] {
      assert ops + more == ops;
    } else {
      ExhaustedForever(ops, more[..|more| - 1], maxFlows);
      assert (ops + more)[..|ops + more| - 1] == ops + more[..|more| - 1];
      ClientRunInvariant(ops + more[..|more| - 1], maxFlows);
    }
  }

  /** Every number of identifiers up to all of them is issued by some run, under any
      cap that admits a flow and any idle timeout: one client comes back each time its
      flow has expired. */
  lemma {:induction false} EveryNumberIsIssued(n: nat, idle: nat, client: SocketAddr, maxFlows: nat)
    returns (ops: seq<ClientOp>, now: Instant)
    requires n <= U32_MAX && maxFlows > 0
    ensures |IssuedIn(ops, maxFlows)| == n
    ensures RunClients(ops, maxFlows) == ClientTable(map[], map[], n)
  {
    if n == 0 {
      ops, now := [], 0;
    } else {
      ops, now := EveryNumberIsIssued(n - 1, idle, client, maxFlows);
      ops := IssueOneMore(ops, n - 1, now, idle, client, maxFlows);
      now := now + idle;
    }
  }

  /** The table while the client's one flow lives. */
  function OneFlow(client: SocketAddr, n: FlowId, now: Instant): ClientTable
    requires n < U32_MAX
  {
    ClientTable(map[client := n], map[n := ClientEntry(client, now)], n + 1)
  }

  lemma OneFlowExpires(client: SocketAddr, n: FlowId, now: Instant, idle: nat)
    requires n < U32_MAX
    ensures ExpireClients(OneFlow(client, n, now), now + idle, idle) == ClientTable(map[], map[], n + 1)
  {
    var t := OneFlow(client, n, now);
    assert IdleFlows(t, now + idle, idle) == {n};
    assert (set f | f in {n} :: t.byFlow[f].client) == {client};
  }

  lemma OneFlowIssued(client: SocketAddr, n: FlowId, now: Instant, maxFlows: nat)
    requires n < U32_MAX && maxFlows > 0
    ensures Touch(ClientTable(map[], map[], n), client, now, maxFlows) == (Ok(n), OneFlow(client, n, now))
  {
  }

  lemma RunsOn(ops: seq<ClientOp>, op: ClientOp, maxFlows: nat)
    ensures RunClients(ops + [op], maxFlows) == ApplyClientOp(RunClients(ops, maxFlows), op, maxFlows)
    ensures IssuedIn(ops + [op], maxFlows) == IssuedIn(ops, maxFlows) + IssuedBy(RunClients(ops, maxFlows), op, maxFlows)
  {
    assert (ops + [op])[..|ops|] == ops;
  }

  lemma IssueOneMore(ops: seq<ClientOp>, n: nat, now: Instant, idle: nat, client: SocketAddr, maxFlows: nat)
    returns (more: seq<ClientOp>)
    requires n < U32_MAX && maxFlows > 0 && RunClients(ops, maxFlows) == ClientTable(map[], map[], n)
    ensures RunClients(more, maxFlows) == ClientTable(map[], map[], n + 1)
    ensures |IssuedIn(more, maxFlows)| == |IssuedIn(ops, maxFlows)| + 1
  {
    var touched := ops + [DoTouch(client, now)];
    more := touched + [DoExpire(now + idle, idle)];
    RunsOn(ops, DoTouch(client, now), maxFlows);
    OneFlowIssued(client, n, now, maxFlows);
    RunsOn(touched, DoExpire(now + idle, idle), maxFlows);
    OneFlowExpires(client, n, now, idle);
  }

  // ----------------------------------------------------------------- Serve

  datatype Live<T> = Live(upstream: T, seen: Instant)

  datatype PeerTable<T> = PeerTable(live: map<FlowId, Live<T>>, highest: Option<FlowId>)

  datatype Admission = AdmitLive | AdmitNew | AdmitUnknown

  function EmptyPeer<T>(): PeerTable<T> {
    PeerTable(map[], None)
  }

  function Admit<T>(t: PeerTable<T>, flow: FlowId, now: Instant): (Admission, PeerTable<T>) {
    if flow in t.live then (AdmitLive, Refresh(t, flow, now))
    else if t.highest.Some? && flow <= t.highest.value then (AdmitUnknown, t)
    else (AdmitNew, t)
  }

  function Refresh<T>(t: PeerTable<T>, flow: FlowId, now: Instant): PeerTable<T> {
    if flow in t.live then t.(live := t.live[flow := t.live[flow].(seen := now)]) else t
  }

  function Raise(highest: Option<FlowId>, flow: FlowId): Option<FlowId> {
    match highest
    case None => Some(flow)
    case Some(mark) => Some(if mark < flow then flow else mark)
  }

  function Refuse<T>(t: PeerTable<T>, flow: FlowId): PeerTable<T> {
    t.(highest := Raise(t.highest, flow))
  }

  function Insert<T>(t: PeerTable<T>, flow: FlowId, upstream: T, now: Instant): PeerTable<T> {
    PeerTable(t.live[flow := Live(upstream, now)], Raise(t.highest, flow))
  }

  function IdlePeers<T>(t: PeerTable<T>, now: Instant, idle: nat): set<FlowId> {
    set f | f in t.live && Elapsed(now, t.live[f].seen) >= idle
  }

  function ExpirePeers<T>(t: PeerTable<T>, now: Instant, idle: nat): PeerTable<T> {
    t.(live := t.live - IdlePeers(t, now, idle))
  }

  function Drained<T>(t: PeerTable<T>): PeerTable<T> {
    t.(live := map[])
  }

  /** What one iteration of Serve's receive loop, or a reply relay, does to the
      table of its connection. `Arrive` carries what the outside decides: whether
      the service had a free slot and whether a socket could be socketOpen. */
  datatype PeerOp =
    | Arrive(flow: FlowId, now: Instant, slotFree: bool, socketOpen: bool)
    | ReplyTraffic(flow: FlowId, now: Instant)
    | Sweep(now: Instant, idle: nat)
    | Close

  datatype PeerTrace = PeerTrace(bound: seq<FlowId>, refused: set<FlowId>)

  function ApplyPeerOp<T>(t: PeerTable<T>, op: PeerOp, upstream: T, maxPerPeer: nat): PeerTable<T> {
    match op
    case Arrive(flow, now, slotFree, socketOpen) =>
      var (verdict, u) := Admit(t, flow, now);
      if !verdict.AdmitNew? then u
      else if |u.live| >= maxPerPeer || !slotFree || !socketOpen then Refuse(u, flow)
      else Insert(u, flow, upstream, now)
    case ReplyTraffic(flow, now) => Refresh(t, flow, now)
    case Sweep(now, idle) => ExpirePeers(t, now, idle)
    case Close => Drained(t)
  }

  function TracePeerOp<T>(t: PeerTable<T>, op: PeerOp, trace: PeerTrace, maxPerPeer: nat): PeerTrace {
    match op
    case Arrive(flow, now, slotFree, socketOpen) =>
      if !Admit(t, flow, now).0.AdmitNew? then trace
      else if |t.live| >= maxPerPeer || !slotFree || !socketOpen then trace.(refused := trace.refused + {flow})
      else trace.(bound := trace.bound + [flow])
    case _ => trace
  }

  /** The table and its history after `ops`; upstream `i` is the one socketOpen for
      the i-th operation. */
  function RunPeer(ops: seq<PeerOp>, maxPerPeer: nat): (PeerTable<nat>, PeerTrace) {
    if ops == [] then (EmptyPeer(), PeerTrace([], {}))
    else
      var (t, trace) := RunPeer(ops[..|ops| - 1], maxPerPeer);
      var op := ops[|ops| - 1];
      (ApplyPeerOp(t, op, |ops| - 1, maxPerPeer), TracePeerOp(t, op, trace, maxPerPeer))
  }

  /** `f` was bound or refused at some point of the history. */
  ghost predicate Spent(trace: PeerTrace, f: FlowId) {
    f in trace.bound || f in trace.refused
  }

  ghost predicate PeerRunOk<T>(t: PeerTable<T>, trace: PeerTrace, maxPerPeer: nat) {
    && |t.live| <= maxPerPeer
    && (t.highest.None? ==> forall f: FlowId :: !Spent(trace, f))
    && (t.highest.Some? ==> Spent(trace, t.highest.value) && forall f: FlowId :: Spent(trace, f) ==> f <= t.highest.value)
    && (forall f :: f in t.live ==> f in trace.bound)
    && (forall i, j :: 0 <= i < j < |trace.bound| ==> trace.bound[i] < trace.bound[j])
    && (forall f :: f in trace.refused ==> f !in trace.bound)
  }

  /** Over a whole connection: `highest` is the largest identifier ever bound or
      refused, every live flow was bound, identifiers are bound at most once (in
      increasing order, and never after a refusal), and the per-peer cap holds. */
  lemma {:induction false} PeerRunInvariant(ops: seq<PeerOp>, maxPerPeer: nat)
    ensures var (t, trace) := RunPeer(ops, maxPerPeer); PeerRunOk(t, trace, maxPerPeer)
  {
    if ops != [] {
      var (t, trace) := RunPeer(ops[..|ops| - 1], maxPerPeer);
      PeerRunInvariant(ops[..|ops| - 1], maxPerPeer);
      PeerStepKeepsOk(t, ops[|ops| - 1], |ops| - 1, trace, maxPerPeer);
    }
  }

  lemma PeerStepKeepsOk<T>(t: PeerTable<T>, op: PeerOp, upstream: T, trace: PeerTrace, maxPerPeer: nat)
    requires PeerRunOk(t, trace, maxPerPeer)
    ensures PeerRunOk(ApplyPeerOp(t, op, upstream, maxPerPeer), TracePeerOp(t, op, trace, maxPerPeer), maxPerPeer)
  {
    match op {
      case Arrive(flow, now, slotFree, socketOpen) =>
        if Admit(t, flow, now).0.AdmitNew? {
          if |t.live| >= maxPerPeer || !slotFree || !socketOpen {
            RefuseKeepsOk(t, flow, trace, maxPerPeer);
          } else {
            InsertKeepsOk(t, flow, upstream, now, trace, maxPerPeer);
          }
        } else {
          RefreshKeepsKeys(t, flow, now);
        }
      case ReplyTraffic(flow, now) =>
        RefreshKeepsKeys(t, flow, now);
      case Sweep(now, idle) =>
        SubmapSize(t.live, IdlePeers(t, now, idle));
      case Close =>
    }
  }

  lemma RefuseKeepsOk<T>(t: PeerTable<T>, flow: FlowId, trace: PeerTrace, maxPerPeer: nat)
    requires PeerRunOk(t, trace, maxPerPeer)
    requires t.highest.Some? ==> t.highest.value < flow
    ensures PeerRunOk(Refuse(t, flow), trace.(refused := trace.refused + {flow}), maxPerPeer)
  {
    var after := trace.(refused := trace.refused + {flow});
    assert !Spent(trace, flow);
    assert forall f: FlowId :: Spent(after, f) <==> Spent(trace, f) || f == flow;
  }

  lemma InsertKeepsOk<T>(t: PeerTable<T>, flow: FlowId, upstream: T, now: Instant, trace: PeerTrace, maxPerPeer: nat)
    requires PeerRunOk(t, trace, maxPerPeer)
    requires t.highest.Some? ==> t.highest.value < flow
    requires |t.live| < maxPerPeer
    ensures PeerRunOk(Insert(t, flow, upstream, now), trace.(bound := trace.bound + [flow]), maxPerPeer)
  {
    var after := trace.(bound := trace.bound + [flow]);
    forall i | 0 <= i < |trace.bound| ensures trace.bound[i] < flow {
      assert Spent(trace, trace.bound[i]);
    }
    assert !Spent(trace, flow);
    assert forall f: FlowId :: Spent(after, f) <==> Spent(trace, f) || f == flow;
    assert flow !in t.live;
    assert |Insert(t, flow, upstream, now).live| == |t.live| + 1;
  }

  lemma RefreshKeepsKeys<T>(t: PeerTable<T>, flow: FlowId, now: Instant)
    ensures Refresh(t, flow, now).live.Keys == t.live.Keys
    ensures |Refresh(t, flow, now).live| == |t.live|
    ensures Refresh(t, flow, now).highest == t.highest
  {
    var u := Refresh(t, flow, now);
    assert u.live.Keys == t.live.Keys;
    assert |u.live.Keys| == |t.live.Keys|;
  }

  /** The verdict on an identifier after any run, in terms of the history alone:
      live flows are recognised, an identifier is new exactly when it is higher
      than every one ever bound or refused, and an insertion that follows `New`
      overwrites nothing. */
  lemma AdmissionAnswer(ops: seq<PeerOp>, maxPerPeer: nat, flow: FlowId, now: Instant)
    ensures var (t, trace) := RunPeer(ops, maxPerPeer);
            var verdict := Admit(t, flow, now).0;
            && (verdict == AdmitLive <==> flow in t.live)
            && (verdict == AdmitNew <==> forall f: FlowId :: Spent(trace, f) ==> f < flow)
            && (verdict == AdmitNew ==> flow !in t.live && !Spent(trace, flow))
  {
    PeerRunInvariant(ops, maxPerPeer);
    var (t, trace) := RunPeer(ops, maxPerPeer);
    forall f | f in t.live ensures Spent(trace, f) {
    }
  }

  /** An identifier that was ever bound or refused is never admitted as new again,
      whatever happens afterwards. */
  lemma {:induction false} SpentForever(ops: seq<PeerOp>, more: seq<PeerOp>, maxPerPeer: nat, flow: FlowId, now: Instant)
    requires Spent(RunPeer(ops, maxPerPeer).1, flow)
    ensures Spent(RunPeer(ops + more, maxPerPeer).1, flow)
    ensures Admit(RunPeer(ops + more, maxPerPeer).0, flow, now).0 != AdmitNew
  {
    if more == [] {
      assert ops + more == ops;
    } else {
      SpentForever(ops, more[..|more| - 1], maxPerPeer, flow, now);
      assert (ops + more)[..|ops + more| - 1] == ops + more[..|more| - 1];
    }
    AdmissionAnswer(ops + more, maxPerPeer, flow, now);
  }

  // ------------------------------------------------------ per-flow queue

  datatype Push = Queued | Full | Closed

  /** The bounded queue between Serve's receive loop and one flow's writer:
      `accepted` is everything ever queued, `handed` what the writer took out. */
  datatype Queue<D> = Queue(capacity: nat, pending: seq<D>, accepted: seq<D>, handed: seq<D>, writerGone: bool)

  function NewQueue<D>(depth: nat): Queue<D> {
    Queue(Max(depth, 1), [], [], [], false)
  }

  /** Offering never waits; when full, the newest datagram is the one dropped. */
  function Offer<D>(q: Queue<D>, datagram: D): (Push, Queue<D>) {
    if q.writerGone then (Closed, q)
    else if |q.pending| >= q.capacity then (Full, q)
    else (Queued, q.(pending := q.pending + [datagram], accepted := q.accepted + [datagram]))
  }

  function Take<D>(q: Queue<D>): (Option<D>, Queue<D>) {
    if q.pending == [] || q.writerGone then (None, q)
    else (Some(q.pending[0]), q.(pending := q.pending[1..], handed := q.handed + [q.pending[0]]))
  }

  /** Bounded, first in first out, and nothing but what was accepted: the writer
      always holds a prefix of what was queued. */
  ghost predicate QueueOk<D>(q: Queue<D>, depth: nat) {
    && q.capacity == Max(depth, 1)
    && |q.pending| <= q.capacity
    && q.accepted == q.handed + q.pending
  }

  datatype QueueOp<D> = Put(datagram: D) | Get | EndWriter

  function RunQueue<D>(ops: seq<QueueOp<D>>, depth: nat): Queue<D> {
    if ops == [] then NewQueue(depth)
    else
      var q := RunQueue(ops[..|ops| - 1], depth);
      match ops[|ops| - 1]
      case Put(d) => Offer(q, d).1
      case Get => Take(q).1
      case EndWriter => q.(writerGone := true)
  }

  lemma {:induction false} QueueRunInvariant<D>(ops: seq<QueueOp<D>>, depth: nat)
    ensures QueueOk(RunQueue(ops, depth), depth)
    ensures RunQueue(ops, depth).handed <= RunQueue(ops, depth).accepted
  {
    if ops != [] {
      QueueRunInvariant(ops[..|ops| - 1], depth);
    }
  }
}
