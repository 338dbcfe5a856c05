/** Serve's receive loop for one peer connection: what becomes of each datagram
    it reads, and what the loop leaves behind when it ends. The outside decides
    which event comes next and how an attempt to open a socket ends.

    The counter block is the service's: other connections, relays, writers and sinks
    use it between the loop's own steps, also while the loop waits for a socket. */
module ServeReceive {
  import opened Common
  import opened Wire
  import opened Flows
  import opened FlowClasses

  datatype Limits = Limits(maxFlows: nat, maxFlowsPerPeer: nat, queueDepth: nat, idle: nat)

  /** How the wait for an upstream socket ended. */
  datatype Opening = SocketOpened | SocketFailed | StoppedMeanwhile

  /** What became of one datagram. */
  datatype Fate = Accepted(flow: FlowId, payload: seq<Byte>) | Dropped(reason: DropReason) | Stopped

  /** What another task may do at any moment; what is not possible does nothing. */
  datatype Act =
    | Counts(reason: DropReason)                  // a relay, a writer or another loop drops a datagram
    | Reserves                                    // another connection opens a flow
    | Returns                                     // and gives its slot back
    | Marks                                       // or quarantines it
    | SinkEnds                                    // a sink, of whichever connection, gives its slot back
    | Replies(flow: FlowId, replied: Instant)     // a relay of this connection saw a reply
    | Takes(queue: nat)                           // a writer of this connection takes its oldest payload

  /** `meanwhile` happens while the loop waits for a socket, or, for a live flow, between
      the admission and the push, for which the table is locked anew, or right after a
      drop. */
  datatype Event =
    | Datagram(bytes: seq<Byte>, now: Instant, opening: Opening, meanwhile: seq<Act>)
    | Elsewhere(act: Act)
    | SweepTick(now: Instant)
    | Ended

  /** The fate the protocol assigns to a datagram, from the state it meets. */
  function FateOf(bytes: seq<Byte>, verdict: Admission, liveFlows: nat, heldFlows: nat, limits: Limits,
                  opening: Opening, queueFull: bool): Fate
  {
    match Decode(bytes)
    case Err(_) => Dropped(DropReason.Malformed)
    case Ok(d) =>
      match verdict
      case AdmitUnknown => Dropped(UnknownFlow)
      case AdmitLive => if queueFull then Dropped(QueueFull) else Accepted(d.flow, d.payload)
      case AdmitNew =>
        if liveFlows >= limits.maxFlowsPerPeer || heldFlows >= limits.maxFlows then Dropped(CapReached)
        else OpeningFate(d.flow, d.payload, opening)
  }

  /** The fate of a new flow's first datagram within the caps. */
  function OpeningFate(flow: FlowId, payload: seq<Byte>, opening: Opening): Fate {
    match opening
    case StoppedMeanwhile => Stopped
    case SocketFailed => Dropped(CapReached)
    case SocketOpened => Accepted(flow, payload)
  }

  lemma KnownFate(bytes: seq<Byte>, verdict: Admission, liveFlows: nat, heldFlows: nat, limits: Limits, opening: Opening, full: bool)
    requires verdict != AdmitNew
    ensures FateOf(bytes, verdict, liveFlows, heldFlows, limits, opening, full) == FateOf(bytes, verdict, 0, 0, limits, SocketOpened, full)
  {
  }

  function Tally(fates: seq<Fate>, reason: DropReason): nat {
    if fates == [] then 0
    else Tally(fates[..|fates| - 1], reason) + if fates[|fates| - 1] == Dropped(reason) then 1 else 0
  }

  /** The drops that other tasks counted. */
  function OtherDrops(acts: seq<Act>, reason: DropReason): nat {
    if acts == [] then 0
    else OtherDrops(acts[..|acts| - 1], reason) + if acts[|acts| - 1] == Counts(reason) then 1 else 0
  }

  lemma {:induction false} OtherDropsAdd(a: seq<Act>, b: seq<Act>, reason: DropReason)
    ensures OtherDrops(a + b, reason) == OtherDrops(a, reason) + OtherDrops(b, reason)
  {
    if b == [] {
      assert a + b == a;
    } else {
      OtherDropsAdd(a, b[..|b| - 1], reason);
      assert (a + b)[..|a + b| - 1] == a + b[..|b| - 1];
    }
  }

  /** The slots of the service that are not live flows of this connection. */
  datatype Pool = Pool(elsewhere: nat, quarantined: nat)

  /** `mine` is the number of slots this connection holds. */
  function PoolAct(p: Pool, a: Act, mine: nat, max: nat): Pool {
    match a
    case Reserves => if mine + p.elsewhere + p.quarantined < max then p.(elsewhere := p.elsewhere + 1) else p
    case Returns => if p.elsewhere > 0 then p.(elsewhere := p.elsewhere - 1) else p
    case Marks => if p.elsewhere > 0 then Pool(p.elsewhere - 1, p.quarantined + 1) else p
    case SinkEnds => if p.quarantined > 0 then p.(quarantined := p.quarantined - 1) else p
    case _ => p
  }

  function PoolActs(p: Pool, acts: seq<Act>, mine: nat, max: nat): Pool {
    if acts == [] then p else PoolAct(PoolActs(p, acts[..|acts| - 1], mine, max), acts[|acts| - 1], mine, max)
  }

  function FlowActs(flows: PeerTable<nat>, acts: seq<Act>): PeerTable<nat> {
    if acts == [] then flows
    else
      var before, a := FlowActs(flows, acts[..|acts| - 1]), acts[|acts| - 1];
      if a.Replies? then Refresh(before, a.flow, a.replied) else before
  }

  function QueueActs(queues: seq<Queue<seq<Byte>>>, acts: seq<Act>): (r: seq<Queue<seq<Byte>>>)
    ensures |r| == |queues|
  {
    if acts == [] then queues
    else
      var before, a := QueueActs(queues, acts[..|acts| - 1]), acts[|acts| - 1];
      if a.Takes? && a.queue < |before| then before[a.queue := Take(before[a.queue]).1] else before
  }

  ghost predicate TableOk(flows: PeerTable<nat>, queues: seq<Queue<seq<Byte>>>, owners: seq<FlowId>, limits: Limits) {
    && |flows.live| <= limits.maxFlowsPerPeer
    && |owners| == |queues|
    && (forall f :: f in flows.live ==> flows.highest.Some? && f <= flows.highest.value)
    && (forall f :: f in flows.live ==>
          && flows.live[f].upstream < |queues|
          && owners[flows.live[f].upstream] == f
          && !queues[flows.live[f].upstream].writerGone)
    && (forall i :: 0 <= i < |queues| ==> QueueOk(queues[i], limits.queueDepth))
  }

  /** The queues after `payload` was accepted for queue `u`, opened if need be. */
  function Enqueued(queues: seq<Queue<seq<Byte>>>, u: nat, payload: seq<Byte>, depth: nat): seq<Queue<seq<Byte>>> {
    if u < |queues| then queues[u := Offer(queues[u], payload).1]
    else queues + [Offer(NewQueue(depth), payload).1]
  }

  lemma InsertKeepsTable(flows: PeerTable<nat>, queues: seq<Queue<seq<Byte>>>, owners: seq<FlowId>, limits: Limits,
                         flow: FlowId, queue: Queue<seq<Byte>>, now: Instant)
    requires TableOk(flows, queues, owners, limits)
    requires |flows.live| < limits.maxFlowsPerPeer && Admit(flows, flow, now).0 == AdmitNew
    requires QueueOk(queue, limits.queueDepth) && !queue.writerGone
    ensures TableOk(Insert(flows, flow, |queues|, now), queues + [queue], owners + [flow], limits)
    ensures |Insert(flows, flow, |queues|, now).live| == |flows.live| + 1
  {
    assert Insert(flows, flow, |queues|, now).live.Keys == flows.live.Keys + {flow};
  }

  lemma EndOneKeepsTable(flows: PeerTable<nat>, queues: seq<Queue<seq<Byte>>>, owners: seq<FlowId>, limits: Limits,
                         flow: FlowId)
    requires TableOk(flows, queues, owners, limits) && flow in flows.live
    ensures var u := flows.live[flow].upstream;
            TableOk(flows.(live := flows.live - {flow}), queues[u := queues[u].(writerGone := true)], owners, limits)
    ensures |flows.live - {flow}| == |flows.live| - 1
  {
    assert (flows.live - {flow}).Keys == flows.live.Keys - {flow};
    assert |(flows.live - {flow}).Keys| == |flows.live.Keys| - 1;
  }

  lemma RefreshKeepsTable(flows: PeerTable<nat>, queues: seq<Queue<seq<Byte>>>, owners: seq<FlowId>, limits: Limits,
                          flow: FlowId, now: Instant)
    requires TableOk(flows, queues, owners, limits)
    ensures TableOk(Refresh(flows, flow, now), queues, owners, limits)
    ensures |Refresh(flows, flow, now).live| == |flows.live|
    ensures flow in flows.live ==>
              && flow in Refresh(flows, flow, now).live
              && Refresh(flows, flow, now).live[flow].upstream == flows.live[flow].upstream
  {
    RefreshKeepsKeys(flows, flow, now);
  }

  lemma OfferKeepsQueue<D>(q: Queue<D>, datagram: D, depth: nat)
    requires QueueOk(q, depth)
    ensures QueueOk(Offer(q, datagram).1, depth)
  {
  }

  lemma TakeKeepsTable(flows: PeerTable<nat>, queues: seq<Queue<seq<Byte>>>, owners: seq<FlowId>, limits: Limits, u: nat)
    requires TableOk(flows, queues, owners, limits) && u < |queues|
    ensures TableOk(flows, queues[u := Take(queues[u]).1], owners, limits)
  {
  }

  /** Every counter grew by exactly the drops among `fates` that name it and those that
      others counted. */
  ghost predicate Accounted(before: Drops, after: Drops, fates: seq<Fate>, others: seq<Act>) {
    forall reason :: Count(after, reason) == Count(before, reason) + Tally(fates, reason) + OtherDrops(others, reason)
  }

  lemma AccountMore(before: Drops, during: Drops, after: Drops, fates: seq<Fate>, others: seq<Act>, fate: Option<Fate>, more: seq<Act>)
    requires Accounted(before, during, fates, others)
    requires Accounted(during, after, if fate.Some? then [fate.value] else [], more)
    ensures Accounted(before, after, if fate.Some? then fates + [fate.value] else fates, others + more)
  {
    forall reason
      ensures Tally(if fate.Some? then fates + [fate.value] else fates, reason)
           == Tally(fates, reason) + Tally(if fate.Some? then [fate.value] else [], reason)
    {
      if fate.Some? {
        assert (fates + [fate.value])[..|fates|] == fates && [fate.value][..0] == [];
      }
    }
    forall reason ensures OtherDrops(others + more, reason) == OtherDrops(others, reason) + OtherDrops(more, reason) {
      OtherDropsAdd(others, more, reason);
    }
  }

  lemma NothingAccounted(drops: Drops)
    ensures Accounted(drops, drops, [], [])
  {
  }

  lemma AccountFate(before: Drops, after: Drops, fate: Fate)
    requires fate.Dropped? ==> CountedOne(before, after, fate.reason)
    requires !fate.Dropped? ==> after == before
    ensures Accounted(before, after, [fate], [])
  {
    assert [fate][..0] == [];
  }

  lemma AccountAct(before: Drops, during: Drops, after: Drops, acts: seq<Act>, a: Act)
    requires Accounted(before, during, [], acts)
    requires if a.Counts? then CountedOne(during, after, a.reason) else after == during
    ensures Accounted(before, after, [], acts + [a])
  {
    assert (acts + [a])[..|acts|] == acts;
  }

  lemma OneMoreAct(acts: seq<Act>, i: nat)
    requires i < |acts|
    ensures acts[..i + 1] == acts[..i] + [acts[i]] && acts[..i + 1][..i] == acts[..i]
    ensures forall flows :: FlowActs(flows, acts[..i + 1]) == FlowActs(FlowActs(flows, acts[..i]), [acts[i]])
    ensures forall queues :: QueueActs(queues, acts[..i + 1]) == QueueActs(QueueActs(queues, acts[..i]), [acts[i]])
  {
    assert acts[..i + 1][..i] == acts[..i] && [acts[i]][..0] == [];
  }

  /** The same flows with the same upstreams; only when they were seen may differ. */
  ghost predicate SameFlows(a: PeerTable<nat>, b: PeerTable<nat>) {
    && a.highest == b.highest && a.live.Keys == b.live.Keys
    && forall f :: f in a.live ==> a.live[f].upstream == b.live[f].upstream
  }

  /** The table a datagram leaves behind, by its fate; `upstream` is the number of the
      queue it may open. */
  function TableAfter(flows: PeerTable<nat>, bytes: seq<Byte>, now: Instant, fate: Fate, upstream: nat): PeerTable<nat> {
    match Decode(bytes)
    case Err(_) => flows
    case Ok(d) =>
      var (verdict, table) := Admit(flows, d.flow, now);
      if verdict != AdmitNew then table else NewFlowTable(flows, d.flow, now, fate, upstream)
  }

  function NewFlowTable(flows: PeerTable<nat>, flow: FlowId, now: Instant, fate: Fate, upstream: nat): PeerTable<nat> {
    match fate
    case Dropped(_) => Refuse(flows, flow)
    case Stopped => flows
    case Accepted(_, _) => Insert(flows, flow, upstream, now)
  }

  /** Refreshing live flows does not change what is new. */
  lemma {:induction false} RefreshesAdmit(flows: PeerTable<nat>, acts: seq<Act>, flow: FlowId, now: Instant)
    ensures SameFlows(FlowActs(flows, acts), flows)
    ensures Admit(FlowActs(flows, acts), flow, now).0 == Admit(flows, flow, now).0
  {
    if acts != [] {
      RefreshesAdmit(flows, acts[..|acts| - 1], flow, now);
    }
  }

  /** `flows` is `table`, but for the refreshes among `acts`. */
  ghost predicate Settled(flows: PeerTable<nat>, table: PeerTable<nat>, acts: seq<Act>) {
    SameFlows(flows, table) && (acts == [] ==> flows == table)
  }

  /** Refreshes before a new flow is settled do not change what it leaves. */
  lemma NewFlowSettled(flows: PeerTable<nat>, flow: FlowId, now: Instant, fate: Fate, upstream: nat, acts: seq<Act>)
    ensures Settled(NewFlowTable(FlowActs(flows, acts), flow, now, fate, upstream), NewFlowTable(flows, flow, now, fate, upstream), acts)
  {
    RefreshesAdmit(flows, acts, flow, now);
  }

  lemma RefreshesSettled(flows: PeerTable<nat>, acts: seq<Act>)
    ensures Settled(FlowActs(flows, acts), flows, acts)
  {
    RefreshesAdmit(flows, acts, 0, 0);
  }

  /** That is what the arrival of the datagram does in the histories of `Flows`. */
  lemma TableIsArrive(flows: PeerTable<nat>, bytes: seq<Byte>, now: Instant, held: nat, limits: Limits, opening: Opening,
                      full: bool, upstream: nat)
    requires Decode(bytes).Ok?
    ensures var flow := Decode(bytes).value.flow;
            var fate := FateOf(bytes, Admit(flows, flow, now).0, |flows.live|, held, limits, opening, full);
            fate != Stopped ==>
              TableAfter(flows, bytes, now, fate, upstream)
              == ApplyPeerOp(flows, Arrive(flow, now, held < limits.maxFlows, opening == SocketOpened), upstream, limits.maxFlowsPerPeer)
  {
  }

  lemma NothingEnded(flows: PeerTable<nat>, queues: seq<Queue<seq<Byte>>>, gone: set<FlowId>)
    ensures gone - gone == {} && flows == flows.(live := flows.live - {}) && WritersEnded(flows, {}, queues)
  {
    assert flows.live - {} == flows.live;
  }

  lemma OneFewer<X>(all: set<X>, todo: set<X>, x: X)
    requires todo <= all && x in todo
    ensures all - (todo - {x}) == all - todo + {x} && todo - {x} < todo
  {
  }

  lemma RemovedTogether<X, Y>(m: map<X, Y>, gone: set<X>, x: X)
    ensures m - gone - {x} == m - (gone + {x})
  {
  }

  /** The writers of the flows in `gone` have ended. */
  ghost predicate WritersEnded(flows: PeerTable<nat>, gone: set<FlowId>, queues: seq<Queue<seq<Byte>>>) {
    forall f :: f in gone && f in flows.live && flows.live[f].upstream < |queues| ==>
                  queues[flows.live[f].upstream].writerGone
  }

  lemma OneMoreEnded(flows: PeerTable<nat>, gone: set<FlowId>, queues: seq<Queue<seq<Byte>>>, flow: FlowId)
    requires WritersEnded(flows, gone, queues) && flow in flows.live && flows.live[flow].upstream < |queues|
    ensures var u := flows.live[flow].upstream;
            WritersEnded(flows, gone + {flow}, queues[u := queues[u].(writerGone := true)])
  {
  }

  /** The datagrams among `events`. */
  function DatagramsIn(events: seq<Event>): nat {
    if events == [] then 0
    else DatagramsIn(events[..|events| - 1]) + if events[|events| - 1].Datagram? then 1 else 0
  }

  function ActsOf(event: Event): seq<Act> {
    match event
    case Datagram(_, _, _, meanwhile) => meanwhile
    case Elsewhere(act) => [act]
    case _ => []
  }

  /** What others did during `events`, in order. */
  function ActsIn(events: seq<Event>): seq<Act> {
    if events == [] then [] else ActsIn(events[..|events| - 1]) + ActsOf(events[|events| - 1])
  }

  lemma OneMoreEvent(events: seq<Event>, read: nat)
    requires read < |events|
    ensures DatagramsIn(events[..read + 1]) == DatagramsIn(events[..read]) + if events[read].Datagram? then 1 else 0
    ensures ActsIn(events[..read + 1]) == ActsIn(events[..read]) + ActsOf(events[read])
  {
    assert events[..read + 1][..read] == events[..read];
  }

  /** Nothing is read after a stop. */
  ghost predicate StopsLast(fates: seq<Fate>, running: bool) {
    && (forall i :: 0 <= i < |fates| - 1 ==> fates[i] != Stopped)
    && (running && fates != [] ==> fates[|fates| - 1] != Stopped)
  }

  lemma StopsLastGrows(fates: seq<Fate>, fate: Fate, running: bool)
    requires StopsLast(fates, true) && (running ==> fate != Stopped)
    ensures StopsLast(fates + [fate], running)
  {
  }

  /** One connection's loop state: its flow table (an upstream is the number of
      its queue), the queues it ever opened, and the service's counter block. */
  class UdpConnection {
    const stats: UdpStats
    const limits: Limits
    var flows: PeerTable<nat>
    var queues: seq<Queue<seq<Byte>>>

    /** The flow each queue was opened for. */
    ghost var owners: seq<FlowId>

    /** Slots of other connections that no sink has taken over: the state of those who
        act beside this loop. */
    var elsewhere: nat

    ghost function Others(): Pool
      reads this, stats
    {
      Pool(elsewhere, stats.quarantinedFlows)
    }

    /** Every live flow owns one queue, whose writer still runs; the slots in use are
        `mine`, those of other connections and the quarantined ones, within the cap. */
    ghost predicate Balanced(mine: nat)
      reads this, stats
    {
      && TableOk(flows, queues, owners, limits)
      && stats.heldFlows == mine + elsewhere + stats.quarantinedFlows <= limits.maxFlows
    }

    ghost predicate Valid()
      reads this, stats
    {
      Balanced(|flows.live|)
    }

    constructor (stats: UdpStats, limits: Limits)
      requires stats.quarantinedFlows <= stats.heldFlows <= limits.maxFlows
      ensures Valid() && this.stats == stats && this.limits == limits
      ensures flows == EmptyPeer() && queues == []
    {
      this.stats := stats;
      this.limits := limits;
      flows, queues, owners := EmptyPeer(), [], [];
      elsewhere := stats.heldFlows - stats.quarantinedFlows;
    }

    /** The verdict on a datagram's flow; irrelevant when it does not decode. */
    ghost function Verdict(bytes: seq<Byte>, now: Instant): Admission
      reads this
    {
      if Decode(bytes).Ok? then Admit(flows, Decode(bytes).value.flow, now).0 else AdmitUnknown
    }

    /** It is of a live flow whose queue is full once `meanwhile` has happened. */
    ghost predicate MeetsFullQueue(bytes: seq<Byte>, meanwhile: seq<Act>)
      requires Valid()
      reads this, stats
    {
      Decode(bytes).Ok? && Decode(bytes).value.flow in flows.live && FullFor(Decode(bytes).value.flow, meanwhile)
    }

    ghost predicate FullFor(flow: FlowId, meanwhile: seq<Act>)
      requires Valid() && flow in flows.live
      reads this, stats
    {
      var q := QueueActs(queues, meanwhile)[flows.live[flow].upstream];
      |q.pending| == q.capacity
    }

    /** The datagram is of a new flow that passes both caps, so the loop reserves a
        slot and waits for a socket. */
    ghost predicate Waits(bytes: seq<Byte>, now: Instant)
      reads this, stats
    {
      Verdict(bytes, now) == AdmitNew && |flows.live| < limits.maxFlowsPerPeer && stats.heldFlows < limits.maxFlows
    }

    /** Another task acts while this connection holds `mine` slots. */
    method Perform(a: Act, ghost mine: nat)
      requires Balanced(mine)
      modifies this`flows, this`queues, this`elsewhere, stats
      ensures Balanced(mine) && |flows.live| == old(|flows.live|)
      ensures Others() == PoolAct(old(Others()), a, mine, limits.maxFlows)
      ensures flows == FlowActs(old(flows), [a]) && queues == QueueActs(old(queues), [a])
      ensures if a.Counts? then CountedOne(old(stats.drops), stats.drops, a.reason) else stats.drops == old(stats.drops)
    {
      assert [a][..0] == [] && FlowActs(flows, []) == flows && QueueActs(queues, []) == queues;
      match a {
        case Counts(reason) =>
          stats.RecordDrop(reason);
        case Replies(flow, replied) =>
          RefreshKeepsTable(flows, queues, owners, limits, flow, replied);
          flows := Refresh(flows, flow, replied);
        case Takes(u) =>
          if u < |queues| {
            TakeKeepsTable(flows, queues, owners, limits, u);
            queues := queues[u := Take(queues[u]).1];
          }
        case _ =>
          MoveSlot(a, mine);
      }
    }

    /** A slot of the service is reserved, given back, or passes to a sink. */
    method MoveSlot(a: Act, ghost mine: nat)
      requires Balanced(mine) && (a.Reserves? || a.Returns? || a.Marks? || a.SinkEnds?)
      modifies this`elsewhere, stats`heldFlows, stats`quarantinedFlows
      ensures Balanced(mine)
      ensures Others() == PoolAct(old(Others()), a, mine, limits.maxFlows)
    {
      match a {
        case Reserves =>
          var reserved := stats.TryOpenFlow(limits.maxFlows);
          elsewhere := if reserved then elsewhere + 1 else elsewhere;
        case Returns =>
          if elsewhere > 0 {
            stats.FlowsClosed(1);
            elsewhere := elsewhere - 1;
          }
        case Marks =>
          if elsewhere > 0 {
            stats.QuarantineStarted();
            elsewhere := elsewhere - 1;
          }
        case SinkEnds =>
          if stats.quarantinedFlows > 0 {
            stats.QuarantineEnded();
          }
      }
    }

    /** Other tasks act one after the other. */
    method Meanwhile(acts: seq<Act>, ghost mine: nat)
      requires Balanced(mine)
      modifies this`flows, this`queues, this`elsewhere, stats
      ensures Balanced(mine) && |flows.live| == old(|flows.live|)
      ensures Others() == PoolActs(old(Others()), acts, mine, limits.maxFlows)
      ensures flows == FlowActs(old(flows), acts) && queues == QueueActs(old(queues), acts)
      ensures Accounted(old(stats.drops), stats.drops, [], acts)
    {
      for i := 0 to |acts|
        invariant Balanced(mine) && |flows.live| == old(|flows.live|)
        invariant Others() == PoolActs(old(Others()), acts[..i], mine, limits.maxFlows)
        invariant flows == FlowActs(old(flows), acts[..i]) && queues == QueueActs(old(queues), acts[..i])
        invariant Accounted(old(stats.drops), stats.drops, [], acts[..i])
      {
        ghost var drops := stats.drops;
        OneMoreAct(acts, i);
        Perform(acts[i], mine);
        AccountAct(old(stats.drops), drops, stats.drops, acts[..i], acts[i]);
      }
      assert acts[..|acts|] == acts;
    }

    /** Offer to the queue of a live flow. Its writer still runs, so the queue is
        never found closed. */
    method Enqueue(flow: FlowId, payload: seq<Byte>) returns (fate: Fate)
      requires Valid() && flow in flows.live
      modifies this`queues, stats`drops
      ensures Valid()
      ensures var u := flows.live[flow].upstream;
              && fate == (if |old(queues)[u].pending| == old(queues)[u].capacity then Dropped(QueueFull) else Accepted(flow, payload))
              && queues == if fate.Accepted? then Enqueued(old(queues), u, payload, limits.queueDepth) else old(queues)
      ensures Accounted(old(stats.drops), stats.drops, [fate], [])
    {
      var u := flows.live[flow].upstream;
      var (pushed, queue) := Offer(queues[u], payload);
      OfferKeepsQueue(queues[u], payload, limits.queueDepth);
      queues := queues[u := queue];
      ghost var drops := stats.drops;
      match pushed {
        case Queued =>
          fate := Accepted(flow, payload);
        case Full =>
          stats.RecordDrop(QueueFull);
          fate := Dropped(QueueFull);
        case Closed =>
          assert false;
      }
      AccountFate(drops, stats.drops, fate);
    }

    /** A new flow within its caps: the slot is reserved, others act while the socket
        opens, and then the flow is in the table with its first datagram, or the slot
        is given back. */
    method OpenFlow(flow: FlowId, payload: seq<Byte>, now: Instant, opening: Opening, meanwhile: seq<Act>) returns (fate: Fate)
      requires Valid() && Admit(flows, flow, now).0 == AdmitNew
      requires |flows.live| < limits.maxFlowsPerPeer && stats.heldFlows < limits.maxFlows
      modifies this, stats
      ensures Valid()
      ensures fate == OpeningFate(flow, payload, opening)
      ensures Others() == PoolActs(old(Others()), meanwhile, old(|flows.live|) + 1, limits.maxFlows)
      ensures Accounted(old(stats.drops), stats.drops, [fate], meanwhile)
      ensures Settled(flows, NewFlowTable(old(flows), flow, now, fate, |old(queues)|), meanwhile)
      ensures queues == if fate.Accepted? then Enqueued(QueueActs(old(queues), meanwhile), |old(queues)|, payload, limits.queueDepth)
                        else QueueActs(old(queues), meanwhile)
    {
      ghost var before := stats.drops;
      AwaitSocket(flow, now, meanwhile);
      ghost var during := stats.drops;
      fate := Settle(flow, payload, now, opening);
      NewFlowSettled(old(flows), flow, now, fate, |old(queues)|, meanwhile);
      AccountMore(before, during, stats.drops, [], meanwhile, Some(fate), []);
      assert meanwhile + [] == meanwhile;
    }

    /** The slot is reserved, and others act. */
    method AwaitSocket(flow: FlowId, now: Instant, meanwhile: seq<Act>)
      requires Valid() && Admit(flows, flow, now).0 == AdmitNew && stats.heldFlows < limits.maxFlows
      modifies this`flows, this`queues, this`elsewhere, stats
      ensures Balanced(|flows.live| + 1) && Admit(flows, flow, now).0 == AdmitNew && |flows.live| == old(|flows.live|)
      ensures Others() == PoolActs(old(Others()), meanwhile, old(|flows.live|) + 1, limits.maxFlows)
      ensures flows == FlowActs(old(flows), meanwhile) && queues == QueueActs(old(queues), meanwhile)
      ensures Accounted(old(stats.drops), stats.drops, [], meanwhile)
    {
      RefreshesAdmit(flows, meanwhile, flow, now);
      var reserved := stats.TryOpenFlow(limits.maxFlows);
      Meanwhile(meanwhile, |flows.live| + 1);
    }

    /** The wait for the socket is over: keep the reserved slot or give it back. */
    method Settle(flow: FlowId, payload: seq<Byte>, now: Instant, opening: Opening) returns (fate: Fate)
      requires Balanced(|flows.live| + 1) && Admit(flows, flow, now).0 == AdmitNew && |flows.live| < limits.maxFlowsPerPeer
      modifies this`flows, this`queues, this`owners, stats`heldFlows, stats`drops
      ensures Valid()
      ensures fate == OpeningFate(flow, payload, opening)
      ensures Accounted(old(stats.drops), stats.drops, [fate], [])
      ensures flows == NewFlowTable(old(flows), flow, now, fate, |old(queues)|)
      ensures queues == if fate.Accepted? then Enqueued(old(queues), |old(queues)|, payload, limits.queueDepth) else old(queues)
    {
      ghost var drops := stats.drops;
      match opening {
        case StoppedMeanwhile =>
          stats.FlowsClosed(1);
          fate := Stopped;
        case SocketFailed =>
          stats.FlowsClosed(1);
          flows := Refuse(flows, flow);
          stats.RecordDrop(CapReached);
          fate := Dropped(CapReached);
        case SocketOpened =>
          Register(flow, payload, now);
          fate := Accepted(flow, payload);
      }
      AccountFate(drops, stats.drops, fate);
    }

    /** The flow enters the table with a queue that holds its first datagram. */
    method Register(flow: FlowId, payload: seq<Byte>, now: Instant)
      requires Balanced(|flows.live| + 1) && Admit(flows, flow, now).0 == AdmitNew && |flows.live| < limits.maxFlowsPerPeer
      modifies this`flows, this`queues, this`owners
      ensures Valid()
      ensures flows == Insert(old(flows), flow, |old(queues)|, now)
      ensures queues == Enqueued(old(queues), |old(queues)|, payload, limits.queueDepth)
    {
      var (pushed, queue) := Offer(NewQueue(limits.queueDepth), payload);
      OfferKeepsQueue(NewQueue(limits.queueDepth), payload, limits.queueDepth);
      InsertKeepsTable(flows, queues, owners, limits, flow, queue, now);
      flows, queues, owners := Insert(flows, flow, |queues|, now), queues + [queue], owners + [flow];
    }

    /** One datagram, one fate: it joins the queue of its flow, or exactly one
        counter goes up by one for it, or the role stopped while a socket was opening.
        Whatever others did in the meantime, they alone did. The table is the one that
        the arrival leaves in the histories of `Flows` (`TableIsArrive`). */
    method Receive(bytes: seq<Byte>, now: Instant, opening: Opening, meanwhile: seq<Act>) returns (fate: Fate)
      requires Valid()
      modifies this, stats
      ensures Valid()
      ensures fate == FateOf(bytes, old(Verdict(bytes, now)), old(|flows.live|), old(stats.heldFlows), limits,
                             opening, old(MeetsFullQueue(bytes, meanwhile)))
      ensures Accounted(old(stats.drops), stats.drops, [fate], meanwhile)
      ensures Others() == PoolActs(old(Others()), meanwhile, old(|flows.live|) + (if old(Waits(bytes, now)) then 1 else 0), limits.maxFlows)
      ensures fate.Accepted? ==>
                && fate.flow in flows.live
                && queues == Enqueued(QueueActs(old(queues), meanwhile), flows.live[fate.flow].upstream, fate.payload, limits.queueDepth)
      ensures !fate.Accepted? ==> queues == QueueActs(old(queues), meanwhile)
      ensures Settled(flows, TableAfter(old(flows), bytes, now, fate, |old(queues)|), meanwhile)
    {
      if Decode(bytes).Err? || Admit(flows, Decode(bytes).value.flow, now).0 != AdmitNew {
        KnownFate(bytes, Verdict(bytes, now), |flows.live|, stats.heldFlows, limits, opening, MeetsFullQueue(bytes, meanwhile));
        fate := ReceiveKnown(bytes, now, meanwhile);
      } else {
        fate := ReceiveNew(Decode(bytes).value.flow, Decode(bytes).value.payload, now, opening, meanwhile);
      }
    }

    /** The caps first: the connection's own, then the service's. */
    method ReceiveNew(flow: FlowId, payload: seq<Byte>, now: Instant, opening: Opening, meanwhile: seq<Act>) returns (fate: Fate)
      requires Valid() && Admit(flows, flow, now).0 == AdmitNew
      modifies this, stats
      ensures Valid()
      ensures var refused := old(|flows.live|) >= limits.maxFlowsPerPeer || old(stats.heldFlows) >= limits.maxFlows;
              && fate == (if refused then Dropped(CapReached) else OpeningFate(flow, payload, opening))
              && Others() == PoolActs(old(Others()), meanwhile, old(|flows.live|) + (if refused then 0 else 1), limits.maxFlows)
      ensures Accounted(old(stats.drops), stats.drops, [fate], meanwhile)
      ensures Settled(flows, NewFlowTable(old(flows), flow, now, fate, |old(queues)|), meanwhile)
      ensures queues == if fate.Accepted? then Enqueued(QueueActs(old(queues), meanwhile), |old(queues)|, payload, limits.queueDepth)
                        else QueueActs(old(queues), meanwhile)
    {
      if |flows.live| < limits.maxFlowsPerPeer && stats.heldFlows < limits.maxFlows {
        fate := OpenFlow(flow, payload, now, opening, meanwhile);
      } else {
        fate := RefuseFlow(flow, meanwhile);
      }
    }

    method RefuseFlow(flow: FlowId, meanwhile: seq<Act>) returns (fate: Fate)
      requires Valid()
      modifies this, stats
      ensures Valid() && fate == Dropped(CapReached)
      ensures Others() == PoolActs(old(Others()), meanwhile, old(|flows.live|), limits.maxFlows)
      ensures Accounted(old(stats.drops), stats.drops, [fate], meanwhile)
      ensures Settled(flows, Refuse(old(flows), flow), meanwhile) && queues == QueueActs(old(queues), meanwhile)
    {
      flows := Refuse(flows, flow);
      fate := Discard(CapReached, meanwhile);
    }

    /** One drop is counted, and then others act. */
    method Discard(reason: DropReason, meanwhile: seq<Act>) returns (fate: Fate)
      requires Valid()
      modifies this`flows, this`queues, this`elsewhere, stats
      ensures Valid() && fate == Dropped(reason)
      ensures Others() == PoolActs(old(Others()), meanwhile, old(|flows.live|), limits.maxFlows)
      ensures Accounted(old(stats.drops), stats.drops, [fate], meanwhile)
      ensures Settled(flows, old(flows), meanwhile) && queues == QueueActs(old(queues), meanwhile)
    {
      ghost var drops := stats.drops;
      stats.RecordDrop(reason);
      fate := Dropped(reason);
      ghost var during := stats.drops;
      AccountFate(drops, during, fate);
      RefreshesSettled(flows, meanwhile);
      Meanwhile(meanwhile, |flows.live|);
      AccountMore(drops, during, stats.drops, [fate], [], None, meanwhile);
      assert [] + meanwhile == meanwhile;
    }

    /** A datagram that is malformed, of a live flow, or of a spent one. */
    method ReceiveKnown(bytes: seq<Byte>, now: Instant, meanwhile: seq<Act>) returns (fate: Fate)
      requires Valid() && Verdict(bytes, now) != AdmitNew
      modifies this, stats
      ensures Valid()
      ensures fate == FateOf(bytes, old(Verdict(bytes, now)), 0, 0, limits, SocketOpened, old(MeetsFullQueue(bytes, meanwhile)))
      ensures Accounted(old(stats.drops), stats.drops, [fate], meanwhile)
      ensures Others() == PoolActs(old(Others()), meanwhile, old(|flows.live|), limits.maxFlows)
      ensures Settled(flows, TableAfter(old(flows), bytes, now, fate, |old(queues)|), meanwhile)
      ensures fate.Accepted? ==>
                && fate.flow in flows.live
                && queues == Enqueued(QueueActs(old(queues), meanwhile), flows.live[fate.flow].upstream, fate.payload, limits.queueDepth)
      ensures !fate.Accepted? ==> queues == QueueActs(old(queues), meanwhile)
    {
      var decoded := Decode(bytes);
      if decoded.Err? {
        fate := Discard(DropReason.Malformed, meanwhile);
      } else {
        var (verdict, _) := Admit(flows, decoded.value.flow, now);
        if verdict == AdmitUnknown {
          fate := Discard(UnknownFlow, meanwhile);
        } else {
          fate := ReceiveLive(decoded.value.flow, decoded.value.payload, now, meanwhile);
        }
      }
    }

    /** The admission refreshes a live flow, and then others act. */
    method AdmitAgain(flow: FlowId, now: Instant, meanwhile: seq<Act>)
      requires Valid() && flow in flows.live
      modifies this`flows, this`queues, this`elsewhere, stats
      ensures Valid() && flow in flows.live && flows.live[flow].upstream == old(flows).live[flow].upstream
      ensures Accounted(old(stats.drops), stats.drops, [], meanwhile)
      ensures Others() == PoolActs(old(Others()), meanwhile, old(|flows.live|), limits.maxFlows)
      ensures Settled(flows, Admit(old(flows), flow, now).1, meanwhile) && queues == QueueActs(old(queues), meanwhile)
    {
      RefreshKeepsTable(flows, queues, owners, limits, flow, now);
      flows := Admit(flows, flow, now).1;
      RefreshesSettled(flows, meanwhile);
      Meanwhile(meanwhile, |flows.live|);
    }

    /** The admission refreshes the flow; the lookup locks the table anew, after others
        have acted, and still finds the flow's queue. */
    method ReceiveLive(flow: FlowId, payload: seq<Byte>, now: Instant, meanwhile: seq<Act>) returns (fate: Fate)
      requires Valid() && flow in flows.live
      modifies this, stats
      ensures Valid()
      ensures fate == if old(FullFor(flow, meanwhile)) then Dropped(QueueFull) else Accepted(flow, payload)
      ensures Accounted(old(stats.drops), stats.drops, [fate], meanwhile)
      ensures Others() == PoolActs(old(Others()), meanwhile, old(|flows.live|), limits.maxFlows)
      ensures Settled(flows, Admit(old(flows), flow, now).1, meanwhile)
      ensures fate.Accepted? ==>
                && flow in flows.live
                && queues == Enqueued(QueueActs(old(queues), meanwhile), flows.live[flow].upstream, payload, limits.queueDepth)
      ensures !fate.Accepted? ==> queues == QueueActs(old(queues), meanwhile)
    {
      ghost var before := stats.drops;
      AdmitAgain(flow, now, meanwhile);
      ghost var during := stats.drops;
      fate := Enqueue(flow, payload);
      AccountMore(before, during, stats.drops, [], meanwhile, Some(fate), []);
      assert meanwhile + [] == meanwhile;
    }

    /** End the flows in `gone`: their writers stop and each slot passes to a sink. */
    method Quarantine(gone: set<FlowId>)
      requires Valid() && gone <= flows.live.Keys
      modifies this`flows, this`queues, stats`quarantinedFlows
      ensures Quarantined(old(flows), gone, old(stats.quarantinedFlows)) && |queues| == |old(queues)|
    {
      ghost var start, marks := flows, stats.quarantinedFlows;
      var todo := gone;
      NothingEnded(flows, queues, gone);
      while todo != {}
        invariant todo <= gone && |queues| == |old(queues)|
        invariant Quarantined(start, gone - todo, marks)
        decreases todo
      {
        todo := EndOneOf(todo, gone, start, marks);
      }
      assert gone - {} == gone;
    }

    /** Exactly the flows in `done` have left the table, each with its writer ended and
        its slot passed to a sink; the slots in use still add up. */
    ghost predicate Quarantined(start: PeerTable<nat>, done: set<FlowId>, marks: nat)
      reads this, stats
    {
      && Valid()
      && flows == start.(live := start.live - done)
      && |flows.live| == |start.live| - |done|
      && stats.quarantinedFlows == marks + |done|
      && WritersEnded(start, done, queues)
    }

    method EndOneOf(todo: set<FlowId>, ghost gone: set<FlowId>, ghost start: PeerTable<nat>, ghost marks: nat)
      returns (rest: set<FlowId>)
      requires todo != {} && todo <= gone <= start.live.Keys && Quarantined(start, gone - todo, marks)
      modifies this`flows, this`queues, stats`quarantinedFlows
      ensures rest < todo && Quarantined(start, gone - rest, marks) && |queues| == |old(queues)|
    {
      var flow :| flow in todo;
      rest := todo - {flow};
      EndOneMore(flow, start, gone - todo, marks);
      OneFewer(gone, todo, flow);
    }

    method EndOneMore(flow: FlowId, ghost start: PeerTable<nat>, ghost done: set<FlowId>, ghost marks: nat)
      requires Quarantined(start, done, marks) && flow in start.live && flow !in done
      modifies this`flows, this`queues, stats`quarantinedFlows
      ensures Quarantined(start, done + {flow}, marks) && |queues| == |old(queues)|
    {
      assert flow in flows.live && flows.live[flow] == start.live[flow];
      OneMoreEnded(start, done, queues, flow);
      RemovedTogether(start.live, done, flow);
      EndFlow(flow);
    }

    method EndFlow(flow: FlowId)
      requires Valid() && flow in flows.live
      modifies this`flows, this`queues, stats`quarantinedFlows
      ensures Valid()
      ensures flows == old(flows).(live := old(flows.live) - {flow})
      ensures |flows.live| == old(|flows.live|) - 1
      ensures queues == old(queues)[old(flows.live)[flow].upstream := old(queues)[old(flows.live)[flow].upstream].(writerGone := true)]
      ensures stats.quarantinedFlows == old(stats.quarantinedFlows) + 1
    {
      var u := flows.live[flow].upstream;
      EndOneKeepsTable(flows, queues, owners, limits, flow);
      flows := flows.(live := flows.live - {flow});
      queues := queues[u := queues[u].(writerGone := true)];
      stats.QuarantineStarted();
    }

    /** One turn of the loop. */
    method Turn(event: Event) returns (fate: Option<Fate>, running: bool)
      requires Valid()
      modifies this, stats
      ensures Valid()
      ensures fate.Some? <==> event.Datagram?
      ensures running <==> !event.Ended? && fate != Some(Stopped)
      ensures Accounted(old(stats.drops), stats.drops, if fate.Some? then [fate.value] else [], ActsOf(event))
      ensures ActsOf(event) == [] ==> elsewhere == old(elsewhere)
      ensures event.Elsewhere? ==> Others() == PoolAct(old(Others()), event.act, old(|flows.live|), limits.maxFlows)
      ensures event.SweepTick? ==>
                Others() == Pool(old(elsewhere), old(stats.quarantinedFlows) + |IdlePeers(old(flows), event.now, limits.idle)|)
    {
      fate, running := None, true;
      match event {
        case Datagram(bytes, now, opening, meanwhile) =>
          var f := Receive(bytes, now, opening, meanwhile);
          fate, running := Some(f), f != Stopped;
        case Elsewhere(act) =>
          TurnElsewhere(act);
        case SweepTick(now) =>
          Quarantine(IdlePeers(flows, now, limits.idle));
          NothingAccounted(stats.drops);
        case Ended =>
          running := false;
          NothingAccounted(stats.drops);
      }
    }

    /** A turn, with its fate put on the list and everything accounted for. */
    method TurnOnce(event: Event, fates: seq<Fate>, ghost start: Drops, ghost acts: seq<Act>) returns (more: seq<Fate>, running: bool)
      requires Valid() && Accounted(start, stats.drops, fates, acts) && StopsLast(fates, true)
      modifies this, stats
      ensures Valid() && Accounted(start, stats.drops, more, acts + ActsOf(event)) && StopsLast(more, running)
      ensures |more| == |fates| + if event.Datagram? then 1 else 0
      ensures ActsOf(event) == [] ==> elsewhere == old(elsewhere)
    {
      ghost var drops := stats.drops;
      var fate;
      fate, running := Turn(event);
      AccountMore(start, drops, stats.drops, fates, acts, fate, ActsOf(event));
      more := fates;
      if fate.Some? {
        StopsLastGrows(fates, fate.value, running);
        more := fates + [fate.value];
      }
    }

    method TurnElsewhere(act: Act)
      requires Valid()
      modifies this, stats
      ensures Valid()
      ensures Accounted(old(stats.drops), stats.drops, [], [act])
      ensures Others() == PoolAct(old(Others()), act, old(|flows.live|), limits.maxFlows)
    {
      NothingAccounted(stats.drops);
      ghost var drops := stats.drops;
      Perform(act, |flows.live|);
      AccountAct(drops, drops, stats.drops, [], act);
      assert [] + [act] == [act];
    }

    /** The whole loop, to its end by stop or connection loss, among whatever others do
        with the service's counters: one fate for every datagram read, the counters grew
        by exactly the drops among these and those others counted, and at the end this
        connection holds no slot that is not a sink's. Others' slots are theirs to move. */
    method Loop(events: seq<Event>) returns (fates: seq<Fate>, read: nat)
      requires Valid()
      modifies this, stats
      ensures Valid() && flows.live == map[]
      ensures stats.heldFlows == elsewhere + stats.quarantinedFlows
      ensures read <= |events| && |fates| == DatagramsIn(events[..read])
      ensures Accounted(old(stats.drops), stats.drops, fates, ActsIn(events[..read]))
      ensures forall i :: 0 <= i < |fates| - 1 ==> fates[i] != Stopped
      ensures ActsIn(events[..read]) == [] ==> elsewhere == old(elsewhere)
    {
      fates, read := [], 0;
      var running := true;
      NothingAccounted(stats.drops);
      assert events[..0] == [];
      while running && read < |events|
        invariant Valid()
        invariant read <= |events| && |fates| == DatagramsIn(events[..read])
        invariant Accounted(old(stats.drops), stats.drops, fates, ActsIn(events[..read]))
        invariant StopsLast(fates, running)
        invariant ActsIn(events[..read]) == [] ==> elsewhere == old(elsewhere)
      {
        OneMoreEvent(events, read);
        fates, running := TurnOnce(events[read], fates, old(stats.drops), ActsIn(events[..read]));
        read := read + 1;
      }
      Quarantine(flows.live.Keys);
    }
  }
}
