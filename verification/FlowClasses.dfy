/** The flow tables, the counter block and the per-flow queue as the objects the
    program updates in place. Each method is proved against the value-level
    function of `Flows` (or states its whole new state). */
module FlowClasses {
  import opened Common
  import opened Wire
  import opened Flows

  /** Access's table while one connection lasts: which client owns which live flow. */
  class ClientFlows {
    var byClient: map<SocketAddr, FlowId>
    var byFlow: map<FlowId, ClientEntry>
    var next: FlowId

    function Table(): ClientTable
      reads this
    {
      ClientTable(byClient, byFlow, next)
    }

    constructor ()
      ensures Table() == EMPTY_CLIENTS
    {
      byClient, byFlow, next := map[], map[], 0;
    }

    method Touch(client: SocketAddr, now: Instant, maxFlows: nat) returns (r: Result<FlowId, Refused>)
      requires ClientsValid(Table())
      modifies this
      ensures (r, Table()) == Flows.Touch(old(Table()), client, now, maxFlows)
      ensures ClientsValid(Table())
    {
      TouchKeepsValid(Table(), client, now, maxFlows);
      var flow;
      if client in byClient {
        flow := byClient[client];
      } else {
        if |byFlow| >= maxFlows {
          return Err(Cap);
        }
        flow := next;
        if next == U32_MAX {
          return Err(Exhausted);
        }
        next := next + 1;
        byClient := byClient[client := flow];
      }
      byFlow := byFlow[flow := ClientEntry(client, now)];
      r := Ok(flow);
    }

    method ClientOf(flow: FlowId, now: Instant) returns (client: Option<SocketAddr>)
      requires ClientsValid(Table())
      modifies this
      ensures (client, Table()) == Flows.ClientOf(old(Table()), flow, now)
      ensures ClientsValid(Table())
    {
      ClientOfKeepsValid(Table(), flow, now);
      if flow !in byFlow {
        return None;
      }
      byFlow := byFlow[flow := byFlow[flow].(seen := now)];
      client := Some(byFlow[flow].client);
    }

    /** Collect the idle flows, then remove each from both maps. */
    method Expire(now: Instant, idle: nat) returns (ended: nat)
      requires ClientsValid(Table())
      modifies this
      ensures Table() == ExpireClients(old(Table()), now, idle)
      ensures ended == |IdleFlows(old(Table()), now, idle)|
      ensures ClientsValid(Table())
    {
      ghost var before := Table();
      ExpireKeepsValid(before, now, idle);
      var expired := IdleFlows(Table(), now, idle);
      var todo := expired;
      while todo != {}
        invariant todo <= expired <= before.byFlow.Keys
        invariant Table() == RemoveFlows(before, expired - todo)
        decreases todo
      {
        var flow :| flow in todo;
        RemoveOneMore(before, expired - todo, flow);
        byClient := byClient - {byFlow[flow].client};
        byFlow := byFlow - {flow};
        assert expired - todo + {flow} == expired - (todo - {flow});
        todo := todo - {flow};
      }
      assert expired - todo == expired;
      ended := |expired|;
    }
  }

  /** `order` lists each flow of `flows` once. */
  ghost predicate Lists(order: seq<FlowId>, flows: set<FlowId>) {
    && (forall i, j :: 0 <= i < j < |order| ==> order[i] != order[j])
    && (forall f :: f in order <==> f in flows)
  }

  /** Serve's live flows of one peer connection, one upstream per flow. */
  class PeerFlows<T> {
    var live: map<FlowId, Live<T>>
    var highest: Option<FlowId>

    function Table(): PeerTable<T>
      reads this
    {
      PeerTable(live, highest)
    }

    constructor ()
      ensures Table() == EmptyPeer()
    {
      live, highest := map[], None;
    }

    method Admit(flow: FlowId, now: Instant) returns (verdict: Admission)
      modifies this
      ensures (verdict, Table()) == Flows.Admit(old(Table()), flow, now)
    {
      if flow in live {
        live := live[flow := live[flow].(seen := now)];
        return AdmitLive;
      }
      if highest.Some? && flow <= highest.value {
        return AdmitUnknown;
      }
      verdict := AdmitNew;
    }

    method Refuse(flow: FlowId)
      modifies this
      ensures Table() == Flows.Refuse(old(Table()), flow)
    {
      highest := if highest.Some? then Some(Max(highest.value, flow)) else Some(flow);
    }

    method Insert(flow: FlowId, upstream: T, now: Instant)
      modifies this
      ensures Table() == Flows.Insert(old(Table()), flow, upstream, now)
    {
      highest := if highest.Some? then Some(Max(highest.value, flow)) else Some(flow);
      live := live[flow := Live(upstream, now)];
    }

    method Refresh(flow: FlowId, now: Instant)
      modifies this
      ensures Table() == Flows.Refresh(old(Table()), flow, now)
    {
      if flow in live {
        live := live[flow := live[flow].(seen := now)];
      }
    }

    /** End every idle flow; its upstreams come back in an arbitrary order, each once. */
    method Expire(now: Instant, idle: nat) returns (ended: seq<T>, ghost order: seq<FlowId>)
      modifies this
      ensures Table() == ExpirePeers(old(Table()), now, idle)
      ensures Lists(order, IdlePeers(old(Table()), now, idle))
      ensures |ended| == |order|
      ensures forall i :: 0 <= i < |ended| ==> order[i] in old(live) && ended[i] == old(live)[order[i]].upstream
    {
      var expired := IdlePeers(Table(), now, idle);
      ended, order := RemoveAll(expired);
    }

    /** End every flow: the connection is gone. Spent identifiers stay spent. */
    method DrainAll() returns (ended: seq<T>, ghost order: seq<FlowId>)
      modifies this
      ensures Table() == Drained(old(Table()))
      ensures Lists(order, old(live).Keys)
      ensures |ended| == |order|
      ensures forall i :: 0 <= i < |ended| ==> order[i] in old(live) && ended[i] == old(live)[order[i]].upstream
    {
      ended, order := RemoveAll(live.Keys);
      assert live == map[];
    }

    method RemoveAll(gone: set<FlowId>) returns (ended: seq<T>, ghost order: seq<FlowId>)
      requires gone <= live.Keys
      modifies this
      ensures live == old(live) - gone && highest == old(highest)
      ensures Lists(order, gone)
      ensures |ended| == |order|
      ensures forall i :: 0 <= i < |ended| ==> order[i] in old(live) && ended[i] == old(live)[order[i]].upstream
    {
      ended, order := [], [];
      var todo := gone;
      while todo != {}
        invariant todo <= gone
        invariant highest == old(highest)
        invariant live == old(live) - (gone - todo)
        invariant Lists(order, gone - todo)
        invariant |ended| == |order|
        invariant forall i :: 0 <= i < |ended| ==> order[i] in old(live) && ended[i] == old(live)[order[i]].upstream
        decreases todo
      {
        var flow :| flow in todo;
        ended, order := ended + [live[flow].upstream], order + [flow];
        live := live - {flow};
        todo := todo - {flow};
      }
      assert gone - todo == gone;
    }
  }

  datatype DropReason =
    | Oversize
    | Malformed
    | UnknownFlow
    | UpstreamError
    | CapReached
    | QueueFull
    | LimitShrink
    | QuarantineReply
    | ForeignSource

  /** One counter per reason. */
  datatype Drops = Drops(
    oversize: nat, malformed: nat, unknownFlow: nat, upstreamError: nat, cap: nat,
    queueFull: nat, limitShrink: nat, quarantineReply: nat, foreignSource: nat)

  const NO_DROPS := Drops(0, 0, 0, 0, 0, 0, 0, 0, 0)

  function Count(d: Drops, reason: DropReason): nat {
    match reason
    case Oversize => d.oversize
    case Malformed => d.malformed
    case UnknownFlow => d.unknownFlow
    case UpstreamError => d.upstreamError
    case CapReached => d.cap
    case QueueFull => d.queueFull
    case LimitShrink => d.limitShrink
    case QuarantineReply => d.quarantineReply
    case ForeignSource => d.foreignSource
  }

  /** Exactly the counter of `reason` went up, by one. */
  ghost predicate CountedOne(before: Drops, after: Drops, reason: DropReason) {
    forall r :: Count(after, r) == Count(before, r) + if r == reason then 1 else 0
  }

  /** The counter block of one UDP service, each call taken as one step. `Slots`
      opens the calls up into single atomic operations and interleaves them. */
  class UdpStats {
    var heldFlows: nat
    var quarantinedFlows: nat
    var drops: Drops

    constructor ()
      ensures heldFlows == quarantinedFlows == 0 && drops == NO_DROPS
    {
      heldFlows, quarantinedFlows, drops := 0, 0, NO_DROPS;
    }

    method RecordDrop(reason: DropReason)
      modifies this`drops
      ensures CountedOne(old(drops), drops, reason)
    {
      match reason {
        case Oversize => drops := drops.(oversize := drops.oversize + 1);
        case Malformed => drops := drops.(malformed := drops.malformed + 1);
        case UnknownFlow => drops := drops.(unknownFlow := drops.unknownFlow + 1);
        case UpstreamError => drops := drops.(upstreamError := drops.upstreamError + 1);
        case CapReached => drops := drops.(cap := drops.cap + 1);
        case QueueFull => drops := drops.(queueFull := drops.queueFull + 1);
        case LimitShrink => drops := drops.(limitShrink := drops.limitShrink + 1);
        case QuarantineReply => drops := drops.(quarantineReply := drops.quarantineReply + 1);
        case ForeignSource => drops := drops.(foreignSource := drops.foreignSource + 1);
      }
    }

    method TryOpenFlow(max: nat) returns (reserved: bool)
      modifies this`heldFlows
      ensures reserved <==> old(heldFlows) < max
      ensures heldFlows == old(heldFlows) + if reserved then 1 else 0
    {
      if heldFlows >= max {
        return false;
      }
      heldFlows := heldFlows + 1;
      reserved := true;
    }

    method FlowsClosed(count: nat)
      modifies this`heldFlows
      ensures heldFlows == Max(old(heldFlows) - count, 0)
    {
      heldFlows := if heldFlows < count then 0 else heldFlows - count;
    }

    method QuarantineStarted()
      modifies this`quarantinedFlows
      ensures quarantinedFlows == old(quarantinedFlows) + 1
    {
      quarantinedFlows := quarantinedFlows + 1;
    }

    method QuarantineEnded()
      modifies this`quarantinedFlows, this`heldFlows
      ensures quarantinedFlows == Max(old(quarantinedFlows) - 1, 0)
      ensures heldFlows == Max(old(heldFlows) - 1, 0)
    {
      quarantinedFlows := if quarantinedFlows < 1 then 0 else quarantinedFlows - 1;
      heldFlows := if heldFlows < 1 then 0 else heldFlows - 1;
    }
  }

  /** The queue as the object the receive loop and the writer share. */
  class FlowQueue<D> {
    const capacity: nat
    var pending: seq<D>
    var writerGone: bool
    ghost var accepted: seq<D>
    ghost var handed: seq<D>

    ghost function Contents(): Queue<D>
      reads this
    {
      Queue(capacity, pending, accepted, handed, writerGone)
    }

    constructor (depth: nat)
      ensures Contents() == NewQueue(depth)
    {
      capacity := Max(depth, 1);
      pending, writerGone, accepted, handed := [], false, [], [];
    }

    method Push(datagram: D) returns (r: Push)
      modifies this
      ensures (r, Contents()) == Offer(old(Contents()), datagram)
    {
      if writerGone {
        return Closed;
      }
      if |pending| >= capacity {
        return Full;
      }
      pending, accepted := pending + [datagram], accepted + [datagram];
      r := Queued;
    }

    method Recv() returns (r: Option<D>)
      modifies this
      ensures (r, Contents()) == Take(old(Contents()))
    {
      if pending == [] || writerGone {
        return None;
      }
      r := Some(pending[0]);
      handed, pending := handed + [pending[0]], pending[1..];
    }
  }

  /** Whatever the receive loop offers next. */
  method PushAll<D>(queue: FlowQueue<D>, datagrams: seq<D>, depth: nat)
    requires QueueOk(queue.Contents(), depth)
    modifies queue
    ensures QueueOk(queue.Contents(), depth) && queue.writerGone == old(queue.writerGone)
    ensures queue.handed == old(queue.handed) && old(queue.accepted) <= queue.accepted
  {
    for i := 0 to |datagrams|
      invariant QueueOk(queue.Contents(), depth) && queue.writerGone == old(queue.writerGone)
      invariant queue.handed == old(queue.handed) && old(queue.accepted) <= queue.accepted
    {
      var pushed := queue.Push(datagrams[i]);
    }
  }

  /** `recv().await`: the producer goes on until there is something to take, and ends
      the stream only when it has nothing more to offer. */
  method NextDatagram<D>(queue: FlowQueue<D>, arrivals: seq<seq<D>>, from: nat, depth: nat) returns (to: nat, datagram: Option<D>)
    requires QueueOk(queue.Contents(), depth) && !queue.writerGone && from <= |arrivals|
    modifies queue
    ensures QueueOk(queue.Contents(), depth) && !queue.writerGone
    ensures from <= to <= |arrivals| && old(queue.accepted) <= queue.accepted
    ensures queue.handed == old(queue.handed) + if datagram.Some? then [datagram.value] else []
    ensures datagram.None? ==> to == |arrivals| && queue.pending == []
    ensures to == from ==> |queue.pending| == |old(queue.pending)| - if datagram.Some? then 1 else 0
  {
    to := from;
    if to < |arrivals| {
      PushAll(queue, arrivals[to], depth);
      to := to + 1;
    }
    while queue.pending == [] && to < |arrivals|
      invariant QueueOk(queue.Contents(), depth) && !queue.writerGone
      invariant from <= to <= |arrivals| && (to == from ==> to == |arrivals| && queue.pending == old(queue.pending))
      invariant queue.handed == old(queue.handed) && old(queue.accepted) <= queue.accepted
      decreases |arrivals| - to
    {
      PushAll(queue, arrivals[to], depth);
      to := to + 1;
    }
    datagram := queue.Recv();
  }

  /** One flow's writer beside the receive loop that feeds it, until the last sender is
      gone: everything accepted reaches the sink, each once, in order of acceptance. */
  method DrainQueue<D>(queue: FlowQueue<D>, arrivals: seq<seq<D>>, depth: nat) returns (sink: seq<D>)
    requires QueueOk(queue.Contents(), depth) && !queue.writerGone
    modifies queue
    ensures QueueOk(queue.Contents(), depth) && queue.pending == []
    ensures old(queue.accepted) <= queue.accepted
    ensures old(queue.handed) + sink == queue.accepted
  {
    sink := [];
    var at, datagram := NextDatagram(queue, arrivals, 0, depth);
    while datagram.Some?
      invariant QueueOk(queue.Contents(), depth) && !queue.writerGone
      invariant at <= |arrivals| && old(queue.accepted) <= queue.accepted
      invariant queue.handed == old(queue.handed) + sink + (if datagram.Some? then [datagram.value] else [])
      invariant datagram.None? ==> queue.pending == []
      decreases |arrivals| - at, |queue.pending|, datagram.Some?
    {
      sink := sink + [datagram.value];
      at, datagram := NextDatagram(queue, arrivals, at, depth);
    }
  }
}
