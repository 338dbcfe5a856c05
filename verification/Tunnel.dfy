/** The UDP flow tunnel end to end: Access's listen loop and reply reader, the
    lossy and reordering datagram channels of every connection, Serve's receive
    loops, flow sockets, writers and reply relays, and foreign peers of Serve that
    may send anything on connections of their own.

    An action is one atomic step; its parameters are what the outside decides
    (clocks, clients, targets, losses, socket failures, datagram limits). */
module Tunnel {
  import opened Common
  import opened Wire
  import opened Flows

  /** A flow identifier means something only within one connection. */
  datatype Key = Key(conn: nat, flow: FlowId)

  /** A payload on its way to the target, with the event that brought it in. */
  datatype Item = Item(event: nat, payload: seq<Byte>)

  datatype Event = FromClient(client: SocketAddr, payload: seq<Byte>) | FromStranger

  datatype Reply = Reply(socket: nat, payload: seq<Byte>)

  datatype Delivery = Delivery(reply: nat, client: SocketAddr, payload: seq<Byte>)

  // ------------------------------------------------------------------ state

  /** A datagram received from a local client, as event number `e`. */
  datatype Received = Received(e: nat, client: SocketAddr, payload: seq<Byte>)

  /** Where Access's listen loop stands with the datagram it holds. */
  datatype ListenPoint =
    | Listening
    | Connecting(held: Received)                  // in get_or_dial
    | Connected(held: Received, conn: nat)
    | ReadersJoined(held: Received, conn: nat)    // the old reply reader has ended
    | TableReset(held: Received, conn: nat)
    | Current(held: Received, conn: nat)
    | Sending(held: Received, conn: nat, flow: FlowId)

  datatype Reader =
    | NoReader
    | Reading(conn: nat)
    | Delivering(conn: nat, reply: nat, client: SocketAddr, payload: seq<Byte>)

  datatype Access = Access(at: ListenPoint, cached: Option<nat>, current: Option<nat>, clients: ClientTable, reader: Reader)

  datatype InFlight = InFlight(conn: nat, bytes: seq<Byte>)

  datatype Net = Net(up: map<nat, InFlight>, down: map<nat, InFlight>)

  datatype ReceivePoint =
    | Receiving
    | OpeningSocket(item: Item, flow: FlowId, now: Instant)
    | Inserting(item: Item, flow: FlowId, now: Instant, socket: nat)
    | Over

  datatype PeerConn = PeerConn(at: ReceivePoint, flows: PeerTable<nat>)

  datatype HeldReply = HeldReply(reply: nat, payload: seq<Byte>)

  /** `holds` is the reply the relay has read and not yet forwarded. */
  datatype Socket = Socket(key: Key, queue: Queue<Item>, holds: Option<HeldReply>, relayGone: bool)

  datatype Serve = Serve(conns: map<nat, PeerConn>, sockets: seq<Socket>)

  /** Where each client datagram is, or how it ended. */
  datatype Stage = AtAccess | OnTheWay | AtServe(conn: nat) | Accepted(socket: nat, position: nat) | Lost

  /** What entered the system: every datagram in order of arrival, the connections
      this Access dialled, and the client Access gave each flow to. */
  datatype Origins = Origins(events: seq<Event>, ours: set<nat>, owner: map<Key, SocketAddr>)

  /** `origins`, `stage`, `replies` and `delivered` record what happened; no step
      of the program looks at them. */
  datatype World = World(
    access: Access,
    net: Net,
    serve: Serve,
    nextConn: nat,
    origins: Origins,
    stage: map<nat, Stage>,
    replies: seq<Reply>,
    delivered: seq<Delivery>)

  datatype Config = Config(maxClients: nat, perPeer: nat, depth: nat, accessIdle: nat, serveIdle: nat)

  const INITIAL := World(
    Access(Listening, None, None, EMPTY_CLIENTS, NoReader),
    Net(map[], map[]),
    Serve(map[], []),
    0,
    Origins([], {}, map[]),
    map[], [], [])

  datatype Action =
    // Access's listen loop
    | ClientSends(client: SocketAddr, payload: seq<Byte>)
    | UseCached
    | Dial
    | DialFails
    | CheckIncarnation
    | ResetTable
    | SpawnReader
    | TouchFlow(now: Instant, maxDatagram: Option<nat>)
    | SendUp(sent: bool, connectionLost: bool)
    | SweepClients(now: Instant)
    // Access's reply reader
    | ReadReply(reply: nat, now: Instant)
    | DeliverReply(sent: bool)
    | ReaderEnds
    // the channels
    | LoseUp(e: nat)
    | LoseDown(reply: nat)
    // other peers of Serve
    | StrangerDials
    | StrangerSends(conn: nat, bytes: seq<Byte>)
    // Serve
    | AcceptConn(conn: nat)
    | ReceiveUp(e: nat, now: Instant, slotFree: bool)
    | SocketOpens(conn: nat)
    | SocketFails(conn: nat)
    | InsertFlow(conn: nat)
    | SweepPeer(conn: nat, now: Instant)
    | LoopEnds(conn: nat)
    | WriterTakes(socket: nat)
    | WriterEnds(socket: nat)
    | RelayReads(socket: nat, payload: seq<Byte>)
    | RelayForwards(socket: nat, now: Instant, maxDatagram: Option<nat>, sent: bool)
    | RelayEnds(socket: nat)

  predicate Enabled(w: World, a: Action) {
    match a
    case ClientSends(_, _) => w.access.at == Listening
    case UseCached => w.access.at.Connecting? && w.access.cached.Some?
    case Dial => w.access.at.Connecting? && w.access.cached.None?
    case DialFails => w.access.at.Connecting? && w.access.cached.None?
    case CheckIncarnation => w.access.at.Connected?
    case ResetTable => w.access.at.ReadersJoined?
    case SpawnReader => w.access.at.TableReset?
    case TouchFlow(_, _) => w.access.at.Current?
    case SendUp(_, _) => w.access.at.Sending?
    case SweepClients(_) => w.access.at == Listening
    case ReadReply(r, _) => w.access.reader.Reading? && r in w.net.down && w.net.down[r].conn == w.access.reader.conn
    case DeliverReply(_) => w.access.reader.Delivering?
    case ReaderEnds => w.access.reader.Reading?
    case LoseUp(e) => e in w.net.up
    case LoseDown(r) => r in w.net.down
    case StrangerDials => true
    case StrangerSends(c, _) => c in w.serve.conns && c !in w.origins.ours
    case AcceptConn(c) => c in w.origins.ours && c !in w.serve.conns
    case ReceiveUp(e, _, _) =>
      && e in w.net.up
      && w.net.up[e].conn in w.serve.conns
      && w.serve.conns[w.net.up[e].conn].at == Receiving
    case SocketOpens(c) => c in w.serve.conns && w.serve.conns[c].at.OpeningSocket?
    case SocketFails(c) => c in w.serve.conns && w.serve.conns[c].at.OpeningSocket?
    case InsertFlow(c) => c in w.serve.conns && w.serve.conns[c].at.Inserting?
    case SweepPeer(c, _) => c in w.serve.conns && w.serve.conns[c].at == Receiving
    case LoopEnds(c) => c in w.serve.conns && (w.serve.conns[c].at == Receiving || w.serve.conns[c].at.OpeningSocket?)
    case WriterTakes(s) => s < |w.serve.sockets|
    case WriterEnds(s) => s < |w.serve.sockets|
    case RelayReads(s, _) => s < |w.serve.sockets| && !w.serve.sockets[s].relayGone && w.serve.sockets[s].holds.None?
    case RelayForwards(s, _, _, _) => s < |w.serve.sockets| && w.serve.sockets[s].holds.Some?
    case RelayEnds(s) => s < |w.serve.sockets|
  }

  // ------------------------------------------------------------------ steps

  function SetStage(w: World, e: nat, stage: Stage): World {
    w.(stage := w.stage[e := stage])
  }

  function AccessAt(w: World, at: ListenPoint): World {
    w.(access := w.access.(at := at))
  }

  /** The datagram in hand is dropped and the loop goes back to listening. */
  function DropAtAccess(w: World, e: nat): World {
    SetStage(AccessAt(w, Listening), e, Lost)
  }

  function Invalidate(w: World, failed: nat): World {
    if w.access.cached == Some(failed) then w.(access := w.access.(cached := None)) else w
  }

  function StepClientSends(w: World, client: SocketAddr, payload: seq<Byte>): World {
    var e := |w.origins.events|;
    var v := SetStage(AccessAt(w, Connecting(Received(e, client, payload))), e, AtAccess);
    v.(origins := w.origins.(events := w.origins.events + [FromClient(client, payload)]))
  }

  function StepDial(w: World): World
    requires w.access.at.Connecting?
  {
    w.(access := w.access.(at := Connected(w.access.at.held, w.nextConn), cached := Some(w.nextConn)),
       nextConn := w.nextConn + 1,
       origins := w.origins.(ours := w.origins.ours + {w.nextConn}))
  }

  /** A different connection is a new incarnation: the old reader is joined first. */
  function StepCheckIncarnation(w: World): World
    requires w.access.at.Connected?
  {
    var p := w.access.at;
    if w.access.current == Some(p.conn) then AccessAt(w, Current(p.held, p.conn))
    else w.(access := w.access.(at := ReadersJoined(p.held, p.conn), reader := NoReader))
  }

  function StepTouch(w: World, now: Instant, maxDatagram: Option<nat>, cfg: Config): World
    requires w.access.at.Current?
  {
    var p := w.access.at;
    var limit := PayloadLimit(maxDatagram);
    if limit.None? || |p.held.payload| > limit.value then DropAtAccess(w, p.held.e)
    else
      var (r, clients) := Touch(w.access.clients, p.held.client, now, cfg.maxClients);
      match r
      case Ok(flow) =>
        w.(access := w.access.(at := Sending(p.held, p.conn, flow), clients := clients),
           origins := if p.held.client in w.access.clients.byClient then w.origins
                      else w.origins.(owner := w.origins.owner[Key(p.conn, flow) := p.held.client]))
      case Err(Cap) => DropAtAccess(w, p.held.e)
      case Err(Exhausted) => Invalidate(DropAtAccess(w, p.held.e), p.conn)
  }

  function StepSendUp(w: World, sent: bool, connectionLost: bool): World
    requires w.access.at.Sending?
  {
    var p := w.access.at;
    if sent then
      var v := SetStage(AccessAt(w, Listening), p.held.e, OnTheWay);
      v.(net := v.net.(up := v.net.up[p.held.e := InFlight(p.conn, Frame(p.flow, p.held.payload))]))
    else if connectionLost then Invalidate(DropAtAccess(w, p.held.e), p.conn)
    else DropAtAccess(w, p.held.e)
  }

  function StepReadReply(w: World, r: nat, now: Instant): World
    requires w.access.reader.Reading? && r in w.net.down
  {
    var v := w.(net := w.net.(down := w.net.down - {r}));
    match Decode(w.net.down[r].bytes)
    case Err(_) => v
    case Ok(d) =>
      var (client, clients) := ClientOf(w.access.clients, d.flow, now);
      match client
      case None => v
      case Some(addr) =>
        v.(access := w.access.(clients := clients, reader := Delivering(w.access.reader.conn, r, addr, d.payload)))
  }

  function StepDeliver(w: World, sent: bool): World
    requires w.access.reader.Delivering?
  {
    var d := w.access.reader;
    var v := w.(access := w.access.(reader := Reading(d.conn)));
    if sent then v.(delivered := w.delivered + [Delivery(d.reply, d.client, d.payload)]) else v
  }

  function SetConn(w: World, c: nat, conn: PeerConn): World {
    w.(serve := w.serve.(conns := w.serve.conns[c := conn]))
  }

  function SetSocket(w: World, s: nat, socket: Socket): World
    requires s < |w.serve.sockets|
  {
    w.(serve := w.serve.(sockets := w.serve.sockets[s := socket]))
  }

  /** Offer an item to a socket's queue; a full or closed queue drops it. */
  function PushItem(w: World, s: nat, item: Item): World {
    if s >= |w.serve.sockets| then SetStage(w, item.event, Lost)
    else
      var (pushed, queue) := Offer(w.serve.sockets[s].queue, item);
      SetStage(SetSocket(w, s, w.serve.sockets[s].(queue := queue)), item.event,
               if pushed == Queued then Accepted(s, |w.serve.sockets[s].queue.accepted|) else Lost)
  }

  function StepReceive(w: World, e: nat, now: Instant, slotFree: bool, cfg: Config): World
    requires e in w.net.up && w.net.up[e].conn in w.serve.conns
  {
    var c := w.net.up[e].conn;
    var conn := w.serve.conns[c];
    var v := w.(net := w.net.(up := w.net.up - {e}));
    match Decode(w.net.up[e].bytes)
    case Err(_) => SetStage(v, e, Lost)
    case Ok(d) =>
      var (verdict, flows) := Admit(conn.flows, d.flow, now);
      match verdict
      case AdmitUnknown => SetStage(v, e, Lost)
      case AdmitLive => PushItem(SetConn(v, c, conn.(flows := flows)), flows.live[d.flow].upstream, Item(e, d.payload))
      case AdmitNew =>
        if |conn.flows.live| >= cfg.perPeer || !slotFree
        then SetStage(SetConn(v, c, conn.(flows := Refuse(conn.flows, d.flow))), e, Lost)
        else SetStage(SetConn(v, c, conn.(at := OpeningSocket(Item(e, d.payload), d.flow, now))), e, AtServe(c))
  }

  /** The socket exists and its relay runs before the flow is in the table. */
  function StepSocketOpens(w: World, c: nat, cfg: Config): World
    requires c in w.serve.conns && w.serve.conns[c].at.OpeningSocket?
  {
    var p := w.serve.conns[c].at;
    var socket := Socket(Key(c, p.flow), NewQueue(cfg.depth), None, false);
    var v := w.(serve := w.serve.(sockets := w.serve.sockets + [socket]));
    SetConn(v, c, w.serve.conns[c].(at := Inserting(p.item, p.flow, p.now, |w.serve.sockets|)))
  }

  function StepSocketFails(w: World, c: nat): World
    requires c in w.serve.conns && w.serve.conns[c].at.OpeningSocket?
  {
    var p := w.serve.conns[c].at;
    SetStage(SetConn(w, c, PeerConn(Receiving, Refuse(w.serve.conns[c].flows, p.flow))), p.item.event, Lost)
  }

  function StepInsert(w: World, c: nat): World
    requires c in w.serve.conns && w.serve.conns[c].at.Inserting?
  {
    var p := w.serve.conns[c].at;
    PushItem(SetConn(w, c, PeerConn(Receiving, Insert(w.serve.conns[c].flows, p.flow, p.socket, p.now))), p.socket, p.item)
  }

  function StepLoopEnds(w: World, c: nat): World
    requires c in w.serve.conns
  {
    var v := SetConn(w, c, PeerConn(Over, Drained(w.serve.conns[c].flows)));
    if w.serve.conns[c].at.OpeningSocket? then SetStage(v, w.serve.conns[c].at.item.event, Lost) else v
  }

  function StepRelayReads(w: World, s: nat, payload: seq<Byte>): World
    requires s < |w.serve.sockets|
  {
    var v := SetSocket(w, s, w.serve.sockets[s].(holds := Some(HeldReply(|w.replies|, payload))));
    v.(replies := w.replies + [Reply(s, payload)])
  }

  function StepRelayForwards(w: World, s: nat, now: Instant, maxDatagram: Option<nat>, sent: bool): World
    requires s < |w.serve.sockets| && w.serve.sockets[s].holds.Some?
  {
    var socket := w.serve.sockets[s];
    var c, held := socket.key.conn, socket.holds.value;
    var u := SetSocket(w, s, socket.(holds := None));
    var v := if c in w.serve.conns
             then SetConn(u, c, w.serve.conns[c].(flows := Refresh(w.serve.conns[c].flows, socket.key.flow, now)))
             else u;
    var limit := PayloadLimit(maxDatagram);
    if limit.None? || |held.payload| > limit.value || !sent then v
    else v.(net := v.net.(down := v.net.down[held.reply := InFlight(c, Frame(socket.key.flow, held.payload))]))
  }

  function Apply(w: World, a: Action, cfg: Config): World
    requires Enabled(w, a)
  {
    match a
    case ClientSends(client, payload) => StepClientSends(w, client, payload)
    case UseCached => AccessAt(w, Connected(w.access.at.held, w.access.cached.value))
    case Dial => StepDial(w)
    case DialFails => DropAtAccess(w, w.access.at.held.e)
    case CheckIncarnation => StepCheckIncarnation(w)
    case ResetTable =>
      w.(access := w.access.(at := TableReset(w.access.at.held, w.access.at.conn), clients := EMPTY_CLIENTS))
    case SpawnReader =>
      var p := w.access.at;
      w.(access := w.access.(at := Current(p.held, p.conn), reader := Reading(p.conn), current := Some(p.conn)))
    case TouchFlow(now, maxDatagram) => StepTouch(w, now, maxDatagram, cfg)
    case SendUp(sent, connectionLost) => StepSendUp(w, sent, connectionLost)
    case SweepClients(now) => w.(access := w.access.(clients := ExpireClients(w.access.clients, now, cfg.accessIdle)))
    case ReadReply(r, now) => StepReadReply(w, r, now)
    case DeliverReply(sent) => StepDeliver(w, sent)
    case ReaderEnds => w.(access := w.access.(reader := NoReader))
    case LoseUp(e) => SetStage(w.(net := w.net.(up := w.net.up - {e})), e, Lost)
    case LoseDown(r) => w.(net := w.net.(down := w.net.down - {r}))
    case StrangerDials => SetConn(w, w.nextConn, PeerConn(Receiving, EmptyPeer())).(nextConn := w.nextConn + 1)
    case StrangerSends(c, bytes) =>
      var e := |w.origins.events|;
      SetStage(w, e, OnTheWay)
        .(net := w.net.(up := w.net.up[e := InFlight(c, bytes)]),
          origins := w.origins.(events := w.origins.events + [FromStranger]))
    case AcceptConn(c) => SetConn(w, c, PeerConn(Receiving, EmptyPeer()))
    case ReceiveUp(e, now, slotFree) => StepReceive(w, e, now, slotFree, cfg)
    case SocketOpens(c) => StepSocketOpens(w, c, cfg)
    case SocketFails(c) => StepSocketFails(w, c)
    case InsertFlow(c) => StepInsert(w, c)
    case SweepPeer(c, now) =>
      SetConn(w, c, w.serve.conns[c].(flows := ExpirePeers(w.serve.conns[c].flows, now, cfg.serveIdle)))
    case LoopEnds(c) => StepLoopEnds(w, c)
    case WriterTakes(s) => SetSocket(w, s, w.serve.sockets[s].(queue := Take(w.serve.sockets[s].queue).1))
    case WriterEnds(s) => SetSocket(w, s, w.serve.sockets[s].(queue := w.serve.sockets[s].queue.(writerGone := true)))
    case RelayReads(s, payload) => StepRelayReads(w, s, payload)
    case RelayForwards(s, now, maxDatagram, sent) => StepRelayForwards(w, s, now, maxDatagram, sent)
    case RelayEnds(s) => SetSocket(w, s, w.serve.sockets[s].(relayGone := true))
  }

  /** The world after `actions`, `None` when one of them was not possible. */
  function After(actions: seq<Action>, cfg: Config): Option<World> {
    if actions == [] then Some(INITIAL)
    else
      match After(actions[..|actions| - 1], cfg)
      case None => None
      case Some(w) =>
        var a := actions[|actions| - 1];
        if Enabled(w, a) then Some(Apply(w, a, cfg)) else None
  }
}
