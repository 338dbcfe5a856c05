/** What every run of the tunnel keeps, and the end-to-end theorems.

    The invariant is a conjunction of parts, each over the components it speaks of
    and no others, so a step has to be followed only through the parts it touches. */
module TunnelProofs {
  import opened Common
  import opened Wire
  import opened Flows
  import opened Tunnel

  // -------------------------------------------------------- invariant parts

  /** The connection Access's loop is working on, if any. */
  function LoopConn(at: ListenPoint): Option<nat> {
    if at.Listening? || at.Connecting? then None else Some(at.conn)
  }

  /** Connections are numbered in the order they were dialled, and Access works on
      the last one it dialled. The reply reader runs only for the current one, and
      not at all while the client table is being replaced. */
  ghost predicate ConnsOk(a: Access, conns: map<nat, PeerConn>, nextConn: nat, ours: set<nat>) {
    && (forall c :: c in ours ==> c < nextConn)
    && (forall c :: c in conns ==> c < nextConn)
    && (a.cached.Some? ==> a.cached.value in ours)
    && (a.current.Some? ==> a.current.value in ours)
    && (a.current.Some? && a.cached.Some? ==> a.current.value <= a.cached.value)
    && (LoopConn(a.at).Some? ==> a.cached == LoopConn(a.at))
    && (a.at.Current? || a.at.Sending? ==> a.current == LoopConn(a.at))
    && (a.at.ReadersJoined? || a.at.TableReset? ==> a.current != LoopConn(a.at) && a.reader == NoReader)
    && (a.reader != NoReader ==> a.current == Some(a.reader.conn))
  }

  /** The client table speaks of the current incarnation only, and a flow not yet
      issued in it has no owner. */
  ghost predicate OwnersOk(a: Access, o: Origins) {
    && ClientsValid(a.clients)
    && (a.at.TableReset? ==> a.clients == EMPTY_CLIENTS)
    && (forall f :: f in a.clients.byFlow ==>
          && a.current.Some?
          && Key(a.current.value, f) in o.owner
          && o.owner[Key(a.current.value, f)] == a.clients.byFlow[f].client)
    && (forall k :: k in o.owner ==>
          && k.conn in o.ours
          && a.current.Some? && k.conn <= a.current.value
          && (k.conn == a.current.value && !a.at.TableReset? ==> k.flow < a.clients.next))
  }

  // Every client datagram is in at most one place: `stage` says which.

  ghost predicate StageDomain(events: seq<Event>, stage: map<nat, Stage>) {
    forall e: nat :: e in stage <==> e < |events|
  }

  ghost predicate HeldStage(at: ListenPoint, stage: map<nat, Stage>) {
    at != Listening ==> at.held.e in stage && stage[at.held.e] == AtAccess
  }

  ghost predicate UpStage(up: map<nat, InFlight>, stage: map<nat, Stage>) {
    forall e :: e in up ==> e in stage && stage[e] == OnTheWay
  }

  predicate HasItem(at: ReceivePoint) {
    at.OpeningSocket? || at.Inserting?
  }

  ghost predicate OpeningStage(conns: map<nat, PeerConn>, stage: map<nat, Stage>) {
    forall c :: c in conns && HasItem(conns[c].at) ==>
                  conns[c].at.item.event in stage && stage[conns[c].at.item.event] == AtServe(c)
  }

  ghost predicate QueueStage(sockets: seq<Socket>, stage: map<nat, Stage>) {
    forall s, i :: 0 <= s < |sockets| && 0 <= i < |sockets[s].queue.accepted| ==>
                     && sockets[s].queue.accepted[i].event in stage
                     && stage[sockets[s].queue.accepted[i].event] == Accepted(s, i)
  }

  // Every client datagram still is what its client sent.

  /** `item` is exactly what the owner of `key` sent as that event. */
  ghost predicate Genuine(o: Origins, key: Key, item: Item) {
    && item.event < |o.events|
    && key in o.owner
    && o.events[item.event] == FromClient(o.owner[key], item.payload)
  }

  ghost predicate GenuineIfOurs(o: Origins, key: Key, item: Item) {
    key.conn in o.ours ==> Genuine(o, key, item)
  }

  ghost predicate HeldGenuine(at: ListenPoint, o: Origins) {
    && (at != Listening ==>
          && at.held.e < |o.events|
          && o.events[at.held.e] == FromClient(at.held.client, at.held.payload))
    && (at.Sending? ==> Genuine(o, Key(at.conn, at.flow), Item(at.held.e, at.held.payload)))
  }

  ghost predicate FrameGenuine(e: nat, m: InFlight, o: Origins) {
    m.conn in o.ours ==>
      && Decode(m.bytes).Ok?
      && Genuine(o, Key(m.conn, Decode(m.bytes).value.flow), Item(e, Decode(m.bytes).value.payload))
  }

  ghost predicate UpGenuine(up: map<nat, InFlight>, nextConn: nat, o: Origins) {
    forall e :: e in up ==> up[e].conn < nextConn && FrameGenuine(e, up[e], o)
  }

  ghost predicate OpeningGenuine(conns: map<nat, PeerConn>, o: Origins) {
    forall c :: c in conns && HasItem(conns[c].at) ==> GenuineIfOurs(o, Key(c, conns[c].at.flow), conns[c].at.item)
  }

  ghost predicate QueueGenuine(sockets: seq<Socket>, o: Origins) {
    forall s, i :: 0 <= s < |sockets| && 0 <= i < |sockets[s].queue.accepted| ==>
                     GenuineIfOurs(o, sockets[s].key, sockets[s].queue.accepted[i])
  }

  // Every flow of every connection has its own socket, opened once.

  ghost predicate SocketsOk(conns: map<nat, PeerConn>, sockets: seq<Socket>, depth: nat) {
    && (forall s :: 0 <= s < |sockets| ==>
          && QueueOk(sockets[s].queue, depth)
          && sockets[s].key.conn in conns
          && Bound(conns[sockets[s].key.conn], s, sockets[s].key.flow))
    && (forall s, t :: 0 <= s < t < |sockets| ==> sockets[s].key != sockets[t].key)
    && (forall c :: c in conns ==> PeerOk(conns[c], c, sockets))
  }

  /** The flow of socket `s` is spent, or its socket is about to be inserted. */
  ghost predicate Bound(conn: PeerConn, s: nat, flow: FlowId) {
    || (conn.flows.highest.Some? && flow <= conn.flows.highest.value)
    || (conn.at.Inserting? && conn.at.socket == s)
  }

  ghost predicate PeerOk(conn: PeerConn, c: nat, sockets: seq<Socket>) {
    && (forall f :: f in conn.flows.live ==>
          && conn.flows.live[f].upstream < |sockets|
          && sockets[conn.flows.live[f].upstream].key == Key(c, f)
          && conn.flows.highest.Some? && f <= conn.flows.highest.value)
    && (HasItem(conn.at) && conn.flows.highest.Some? ==> conn.flows.highest.value < conn.at.flow)
    && (conn.at.Inserting? ==> conn.at.socket < |sockets| && sockets[conn.at.socket].key == Key(c, conn.at.flow))
  }

  // Every reply stays tied to the socket it was read on.

  ghost predicate RelaysOk(sockets: seq<Socket>, replies: seq<Reply>) {
    && (forall r :: 0 <= r < |replies| ==> replies[r].socket < |sockets|)
    && (forall s :: 0 <= s < |sockets| && sockets[s].holds.Some? ==>
          && sockets[s].holds.value.reply < |replies|
          && replies[sockets[s].holds.value.reply] == Reply(s, sockets[s].holds.value.payload))
  }

  ghost predicate DownOk(down: map<nat, InFlight>, sockets: seq<Socket>, replies: seq<Reply>) {
    forall r :: r in down ==>
                  && r < |replies| && replies[r].socket < |sockets|
                  && var key := sockets[replies[r].socket].key;
                     && down[r].conn == key.conn
                     && Decode(down[r].bytes) == Ok(Decoded(key.flow, replies[r].payload))
  }

  /** A reply goes to the owner of the flow whose socket it was read on. */
  ghost predicate RightClient(d: Delivery, sockets: seq<Socket>, replies: seq<Reply>, owner: map<Key, SocketAddr>) {
    && d.reply < |replies|
    && replies[d.reply].socket < |sockets|
    && replies[d.reply].payload == d.payload
    && var key := sockets[replies[d.reply].socket].key;
       key in owner && owner[key] == d.client
  }

  ghost predicate ReaderOk(reader: Reader, sockets: seq<Socket>, replies: seq<Reply>, owner: map<Key, SocketAddr>) {
    reader.Delivering? ==> RightClient(Delivery(reader.reply, reader.client, reader.payload), sockets, replies, owner)
  }

  ghost predicate DeliveredOk(delivered: seq<Delivery>, sockets: seq<Socket>, replies: seq<Reply>, owner: map<Key, SocketAddr>) {
    forall i :: 0 <= i < |delivered| ==> RightClient(delivered[i], sockets, replies, owner)
  }

  ghost predicate StagesOk(w: World) {
    && StageDomain(w.origins.events, w.stage)
    && HeldStage(w.access.at, w.stage)
    && UpStage(w.net.up, w.stage)
    && OpeningStage(w.serve.conns, w.stage)
    && QueueStage(w.serve.sockets, w.stage)
  }

  ghost predicate PayloadsOk(w: World) {
    && HeldGenuine(w.access.at, w.origins)
    && UpGenuine(w.net.up, w.nextConn, w.origins)
    && OpeningGenuine(w.serve.conns, w.origins)
    && QueueGenuine(w.serve.sockets, w.origins)
  }

  ghost predicate RepliesOk(w: World) {
    && RelaysOk(w.serve.sockets, w.replies)
    && DownOk(w.net.down, w.serve.sockets, w.replies)
    && ReaderOk(w.access.reader, w.serve.sockets, w.replies, w.origins.owner)
    && DeliveredOk(w.delivered, w.serve.sockets, w.replies, w.origins.owner)
  }

  ghost predicate Inv(w: World, cfg: Config) {
    && ConnsOk(w.access, w.serve.conns, w.nextConn, w.origins.ours)
    && OwnersOk(w.access, w.origins)
    && StagesOk(w)
    && PayloadsOk(w)
    && SocketsOk(w.serve.conns, w.serve.sockets, cfg.depth)
    && RepliesOk(w)
  }

  // ------------------------------------------------------------ preservation

  /** A history with one more owner, on a flow nobody owned. */
  lemma NewOwnerCarries(w: World, key: Key, client: SocketAddr)
    requires PayloadsOk(w) && RepliesOk(w) && key !in w.origins.owner
    ensures var o := w.origins.(owner := w.origins.owner[key := client]);
            && UpGenuine(w.net.up, w.nextConn, o)
            && OpeningGenuine(w.serve.conns, o)
            && QueueGenuine(w.serve.sockets, o)
            && ReaderOk(w.access.reader, w.serve.sockets, w.replies, o.owner)
            && DeliveredOk(w.delivered, w.serve.sockets, w.replies, o.owner)
  {
  }

  /** Sockets may change anything but their keys, and sockets and replies may be
      added, without touching what is known of the replies under way. */
  lemma KeysCarry(w: World, sockets: seq<Socket>, replies: seq<Reply>)
    requires RepliesOk(w)
    requires |w.serve.sockets| <= |sockets| && w.replies <= replies
    requires forall s :: 0 <= s < |w.serve.sockets| ==> sockets[s].key == w.serve.sockets[s].key
    ensures DownOk(w.net.down, sockets, replies)
    ensures ReaderOk(w.access.reader, sockets, replies, w.origins.owner)
    ensures DeliveredOk(w.delivered, sockets, replies, w.origins.owner)
  {
  }

  lemma PeersCarry(conns: map<nat, PeerConn>, sockets: seq<Socket>, c: nat, more: seq<Socket>)
    requires c in conns && PeerOk(conns[c], c, sockets)
    requires |sockets| <= |more|
    requires forall s :: 0 <= s < |sockets| ==> more[s].key == sockets[s].key
    ensures PeerOk(conns[c], c, more)
  {
  }

  /** Replacing a socket by one with the same key and an intact queue. */
  lemma SocketCarries(w: World, s: nat, x: Socket, depth: nat)
    requires SocketsOk(w.serve.conns, w.serve.sockets, depth) && s < |w.serve.sockets|
    requires x.key == w.serve.sockets[s].key && QueueOk(x.queue, depth)
    ensures SocketsOk(w.serve.conns, w.serve.sockets[s := x], depth)
  {
    var t := w.serve.sockets[s := x];
    forall c | c in w.serve.conns ensures PeerOk(w.serve.conns[c], c, t) {
      PeersCarry(w.serve.conns, w.serve.sockets, c, t);
    }
  }

  lemma SameAcceptedCarries(w: World, s: nat, x: Socket)
    requires QueueStage(w.serve.sockets, w.stage) && QueueGenuine(w.serve.sockets, w.origins) && s < |w.serve.sockets|
    requires x.key == w.serve.sockets[s].key && x.queue.accepted == w.serve.sockets[s].queue.accepted
    ensures QueueStage(w.serve.sockets[s := x], w.stage)
    ensures QueueGenuine(w.serve.sockets[s := x], w.origins)
  {
  }

  /** A step that only changes socket `s`, keeping its key and what it accepted. */
  lemma SetSocketKeeps(w: World, cfg: Config, s: nat, x: Socket)
    requires Inv(w, cfg) && s < |w.serve.sockets|
    requires x.key == w.serve.sockets[s].key && QueueOk(x.queue, cfg.depth)
    requires x.queue.accepted == w.serve.sockets[s].queue.accepted
    requires x.holds.Some? ==> x.holds == w.serve.sockets[s].holds
    ensures Inv(SetSocket(w, s, x), cfg)
  {
    SocketCarries(w, s, x, cfg.depth);
    SameAcceptedCarries(w, s, x);
    KeysCarry(w, w.serve.sockets[s := x], w.replies);
    assert RelaysOk(w.serve.sockets[s := x], w.replies);
  }

  /** An item that is nowhere else joins the queue of socket `s`, or is lost. */
  lemma PushKeeps(w: World, s: nat, item: Item, depth: nat)
    requires s < |w.serve.sockets|
    requires SocketsOk(w.serve.conns, w.serve.sockets, depth) && RepliesOk(w)
    requires QueueStage(w.serve.sockets, w.stage) && QueueGenuine(w.serve.sockets, w.origins)
    requires item.event in w.stage && !w.stage[item.event].Accepted?
    requires GenuineIfOurs(w.origins, w.serve.sockets[s].key, item)
    ensures var u := PushItem(w, s, item);
            && SocketsOk(u.serve.conns, u.serve.sockets, depth) && RepliesOk(u)
            && QueueStage(u.serve.sockets, u.stage) && QueueGenuine(u.serve.sockets, u.origins)
  {
    var q := Offer(w.serve.sockets[s].queue, item).1;
    var x := w.serve.sockets[s].(queue := q);
    SocketCarries(w, s, x, depth);
    KeysCarry(w, w.serve.sockets[s := x], w.replies);
    var u := PushItem(w, s, item);
    assert u.serve.sockets == w.serve.sockets[s := x];
    forall t, i | 0 <= t < |u.serve.sockets| && 0 <= i < |u.serve.sockets[t].queue.accepted|
      ensures u.serve.sockets[t].queue.accepted[i].event in u.stage
      ensures u.stage[u.serve.sockets[t].queue.accepted[i].event] == Accepted(t, i)
      ensures GenuineIfOurs(u.origins, u.serve.sockets[t].key, u.serve.sockets[t].queue.accepted[i])
    {
      if t < |w.serve.sockets| && i < |w.serve.sockets[t].queue.accepted| {
        assert u.serve.sockets[t].queue.accepted[i] == w.serve.sockets[t].queue.accepted[i];
      }
    }
  }

  /** Event `e` is in no place, whatever its recorded stage. */
  ghost predicate Unplaced(w: World, e: nat) {
    && e in w.stage
    && match w.stage[e]
       case AtAccess => w.access.at == Listening || w.access.at.held.e != e
       case OnTheWay => e !in w.net.up
       case AtServe(c) => c in w.serve.conns ==> !HasItem(w.serve.conns[c].at)
       case Accepted(_, _) => false
       case Lost => true
  }

  lemma RestageKeeps(w: World, cfg: Config, e: nat, stage: Stage)
    requires Inv(w, cfg) && Unplaced(w, e)
    ensures Inv(SetStage(w, e, stage), cfg)
  {
  }

  /** A step that replaces connection `c`'s loop state. */
  lemma SetConnKeeps(w: World, cfg: Config, c: nat, conn: PeerConn)
    requires Inv(w, cfg) && c < w.nextConn
    requires PeerOk(conn, c, w.serve.sockets)
    requires c in w.serve.conns ==>
               forall s, f: FlowId :: 0 <= s < |w.serve.sockets| && Bound(w.serve.conns[c], s, f) && w.serve.sockets[s].key == Key(c, f) ==>
                 Bound(conn, s, f)
    requires HasItem(conn.at) ==>
               && conn.at.item.event in w.stage && w.stage[conn.at.item.event] == AtServe(c)
               && GenuineIfOurs(w.origins, Key(c, conn.at.flow), conn.at.item)
    ensures Inv(SetConn(w, c, conn), cfg)
  {
  }

  lemma RefreshPeerKeeps(w: World, cfg: Config, c: nat, flow: FlowId, now: Instant)
    requires Inv(w, cfg) && c in w.serve.conns
    ensures Inv(SetConn(w, c, w.serve.conns[c].(flows := Refresh(w.serve.conns[c].flows, flow, now))), cfg)
  {
    SetConnKeeps(w, cfg, c, w.serve.conns[c].(flows := Refresh(w.serve.conns[c].flows, flow, now)));
  }

  lemma RefusePeerKeeps(w: World, cfg: Config, c: nat, flow: FlowId)
    requires Inv(w, cfg) && c in w.serve.conns
    requires HasItem(w.serve.conns[c].at) ==> w.serve.conns[c].at.flow == flow
    requires !w.serve.conns[c].at.Inserting?
    ensures Inv(SetConn(w, c, PeerConn(Receiving, Refuse(w.serve.conns[c].flows, flow))), cfg)
  {
    SetConnKeeps(w, cfg, c, PeerConn(Receiving, Refuse(w.serve.conns[c].flows, flow)));
  }

  lemma UnplacedPushKeeps(w: World, cfg: Config, s: nat, item: Item)
    requires Inv(w, cfg) && s < |w.serve.sockets| && Unplaced(w, item.event)
    requires GenuineIfOurs(w.origins, w.serve.sockets[s].key, item)
    ensures Inv(PushItem(w, s, item), cfg)
  {
    PushKeeps(w, s, item, cfg.depth);
    var u := PushItem(w, s, item);
    RestageKeeps(w, cfg, item.event, u.stage[item.event]);
    assert u.stage == w.stage[item.event := u.stage[item.event]];
    assert u.serve.conns == w.serve.conns && u.access == w.access && u.net == w.net && u.origins == w.origins;
  }

  lemma ListenKeeps(w: World, cfg: Config)
    requires Inv(w, cfg)
    requires !w.access.at.TableReset?
    ensures Inv(AccessAt(w, Listening), cfg)
  {
  }

  lemma InvalidateKeeps(w: World, cfg: Config, failed: nat)
    requires Inv(w, cfg) && w.access.at == Listening
    ensures Inv(Invalidate(w, failed), cfg)
  {
  }

  lemma DropKeeps(w: World, cfg: Config)
    requires Inv(w, cfg) && w.access.at != Listening && !w.access.at.TableReset?
    ensures Inv(DropAtAccess(w, w.access.at.held.e), cfg)
  {
    ListenKeeps(w, cfg);
    RestageKeeps(AccessAt(w, Listening), cfg, w.access.at.held.e, Lost);
  }

  /** Touch found the client's flow: only its timer moves. */
  lemma TouchKnownKeeps(w: World, cfg: Config, now: Instant)
    requires Inv(w, cfg) && w.access.at.Current?
    requires w.access.at.held.client in w.access.clients.byClient
    ensures var p := w.access.at;
            var flow := w.access.clients.byClient[p.held.client];
            var clients := Touch(w.access.clients, p.held.client, now, cfg.maxClients).1;
            Inv(w.(access := w.access.(at := Sending(p.held, p.conn, flow), clients := clients)), cfg)
  {
    TouchKeepsValid(w.access.clients, w.access.at.held.client, now, cfg.maxClients);
  }

  /** Touch issued a new flow: nobody owned it, and its client does from now on. */
  lemma TouchNewKeeps(w: World, cfg: Config, now: Instant)
    requires Inv(w, cfg) && w.access.at.Current?
    requires w.access.at.held.client !in w.access.clients.byClient
    requires Touch(w.access.clients, w.access.at.held.client, now, cfg.maxClients).0.Ok?
    ensures var p := w.access.at;
            var flow := w.access.clients.next;
            var clients := Touch(w.access.clients, p.held.client, now, cfg.maxClients).1;
            Inv(w.(access := w.access.(at := Sending(p.held, p.conn, flow), clients := clients),
                   origins := w.origins.(owner := w.origins.owner[Key(p.conn, flow) := p.held.client])), cfg)
  {
    var p := w.access.at;
    var key := Key(p.conn, w.access.clients.next);
    TouchKeepsValid(w.access.clients, p.held.client, now, cfg.maxClients);
    assert key !in w.origins.owner;
    NewOwnerCarries(w, key, p.held.client);
    var clients := Touch(w.access.clients, p.held.client, now, cfg.maxClients).1;
    var o := w.origins.(owner := w.origins.owner[key := p.held.client]);
    assert OwnersOk(w.access.(at := Sending(p.held, p.conn, key.flow), clients := clients), o);
  }

  lemma ReaderTakesKeeps(w: World, cfg: Config, reply: nat, now: Instant, flow: FlowId, payload: seq<Byte>)
    requires Inv(w, cfg) && w.access.reader.Reading?
    requires reply in w.net.down && w.net.down[reply].conn == w.access.reader.conn
    requires Decode(w.net.down[reply].bytes) == Ok(Decoded(flow, payload)) && flow in w.access.clients.byFlow
    ensures var (client, clients) := ClientOf(w.access.clients, flow, now);
            Inv(w.(net := w.net.(down := w.net.down - {reply}),
                   access := w.access.(clients := clients,
                                       reader := Delivering(w.access.reader.conn, reply, client.value, payload))), cfg)
  {
    ClientOfKeepsValid(w.access.clients, flow, now);
    var (client, clients) := ClientOf(w.access.clients, flow, now);
    assert clients.byFlow.Keys == w.access.clients.byFlow.Keys;
    var key := w.serve.sockets[w.replies[reply].socket].key;
    assert key == Key(w.access.current.value, flow);
    assert w.origins.owner[key] == client.value;
  }

  /** A datagram leaves the channel; its stage is settled next. */
  lemma TakeUpKeeps(w: World, cfg: Config, e: nat)
    requires Inv(w, cfg) && e in w.net.up
    ensures var v := w.(net := w.net.(up := w.net.up - {e})); Inv(v, cfg) && Unplaced(v, e)
  {
  }

  /** A new socket for the flow whose opening succeeded. */
  lemma AddSocketKeeps(w: World, cfg: Config, c: nat, socket: Socket)
    requires SocketsOk(w.serve.conns, w.serve.sockets, cfg.depth)
    requires c in w.serve.conns && w.serve.conns[c].at.OpeningSocket?
    requires socket.key == Key(c, w.serve.conns[c].at.flow) && QueueOk(socket.queue, cfg.depth)
    ensures var p := w.serve.conns[c].at;
            SocketsOk(w.serve.conns[c := w.serve.conns[c].(at := Inserting(p.item, p.flow, p.now, |w.serve.sockets|))],
                      w.serve.sockets + [socket], cfg.depth)
  {
    var p := w.serve.conns[c].at;
    var conns := w.serve.conns[c := w.serve.conns[c].(at := Inserting(p.item, p.flow, p.now, |w.serve.sockets|))];
    var more := w.serve.sockets + [socket];
    forall d | d in conns ensures PeerOk(conns[d], d, more) {
      PeersCarry(w.serve.conns, w.serve.sockets, d, more);
    }
    forall s | 0 <= s < |w.serve.sockets| ensures w.serve.sockets[s].key != socket.key {
      assert Bound(w.serve.conns[w.serve.sockets[s].key.conn], s, w.serve.sockets[s].key.flow);
    }
  }

  /** A new flow is refused, or its socket is being opened. */
  lemma AdmitNewKeeps(w: World, cfg: Config, c: nat, flow: FlowId, item: Item, now: Instant)
    requires Inv(w, cfg) && Unplaced(w, item.event)
    requires c in w.serve.conns && w.serve.conns[c].at == Receiving
    requires Admit(w.serve.conns[c].flows, flow, now).0 == AdmitNew
    requires GenuineIfOurs(w.origins, Key(c, flow), item)
    ensures Inv(SetStage(SetConn(w, c, w.serve.conns[c].(flows := Refuse(w.serve.conns[c].flows, flow))), item.event, Lost), cfg)
    ensures Inv(SetStage(SetConn(w, c, w.serve.conns[c].(at := OpeningSocket(item, flow, now))), item.event, AtServe(c)), cfg)
  {
    RefusePeerKeeps(w, cfg, c, flow);
    RestageKeeps(SetConn(w, c, w.serve.conns[c].(flows := Refuse(w.serve.conns[c].flows, flow))), cfg, item.event, Lost);
    RestageKeeps(w, cfg, item.event, AtServe(c));
    SetConnKeeps(SetStage(w, item.event, AtServe(c)), cfg, c, w.serve.conns[c].(at := OpeningSocket(item, flow, now)));
  }

  /** A datagram of a live flow refreshes it and joins its queue. */
  lemma AdmitLiveKeeps(w: World, cfg: Config, c: nat, flow: FlowId, item: Item, now: Instant)
    requires Inv(w, cfg) && Unplaced(w, item.event)
    requires c in w.serve.conns && flow in w.serve.conns[c].flows.live
    requires GenuineIfOurs(w.origins, Key(c, flow), item)
    ensures var flows := Refresh(w.serve.conns[c].flows, flow, now);
            Inv(PushItem(SetConn(w, c, w.serve.conns[c].(flows := flows)), flows.live[flow].upstream, item), cfg)
  {
    var flows := Refresh(w.serve.conns[c].flows, flow, now);
    RefreshPeerKeeps(w, cfg, c, flow, now);
    assert flows.live[flow].upstream == w.serve.conns[c].flows.live[flow].upstream;
    UnplacedPushKeeps(SetConn(w, c, w.serve.conns[c].(flows := flows)), cfg, flows.live[flow].upstream, item);
  }

  lemma TakeDownKeeps(w: World, cfg: Config, reply: nat)
    requires Inv(w, cfg) && reply in w.net.down
    ensures Inv(w.(net := w.net.(down := w.net.down - {reply})), cfg)
  {
  }

  /** What a stranger sends is a new event, on a connection that is not ours. */
  lemma StrangerStageKeeps(w: World, conn: nat, bytes: seq<Byte>)
    requires StagesOk(w) && PayloadsOk(w)
    requires conn < w.nextConn && conn !in w.origins.ours
    ensures var e := |w.origins.events|;
            var u := SetStage(w, e, OnTheWay)
                       .(net := w.net.(up := w.net.up[e := InFlight(conn, bytes)]),
                         origins := w.origins.(events := w.origins.events + [FromStranger]));
            StagesOk(u) && PayloadsOk(u)
  {
  }

  lemma ClientSendsKeeps(w: World, cfg: Config, client: SocketAddr, payload: seq<Byte>)
    requires Inv(w, cfg) && Enabled(w, Action.ClientSends(client, payload))
    ensures Inv(Apply(w, Action.ClientSends(client, payload), cfg), cfg)
  {
  }

  lemma UseCachedKeeps(w: World, cfg: Config)
    requires Inv(w, cfg) && Enabled(w, Action.UseCached)
    ensures Inv(Apply(w, Action.UseCached, cfg), cfg)
  {
  }

  lemma DialKeeps(w: World, cfg: Config)
    requires Inv(w, cfg) && Enabled(w, Action.Dial)
    ensures Inv(StepDial(w), cfg)
  {
  }

  lemma DialFailsKeeps(w: World, cfg: Config)
    requires Inv(w, cfg) && Enabled(w, Action.DialFails)
    ensures Inv(Apply(w, Action.DialFails, cfg), cfg)
  {
    DropKeeps(w, cfg);
  }

  lemma CheckIncarnationKeeps(w: World, cfg: Config)
    requires Inv(w, cfg) && Enabled(w, Action.CheckIncarnation)
    ensures Inv(StepCheckIncarnation(w), cfg)
  {
  }

  lemma ResetTableKeeps(w: World, cfg: Config)
    requires Inv(w, cfg) && Enabled(w, Action.ResetTable)
    ensures Inv(Apply(w, Action.ResetTable, cfg), cfg)
  {
  }

  lemma SpawnReaderKeeps(w: World, cfg: Config)
    requires Inv(w, cfg) && Enabled(w, Action.SpawnReader)
    ensures Inv(Apply(w, Action.SpawnReader, cfg), cfg)
  {
  }

  /** The datagram in hand is refused: it may be the connection that is given up. */
  lemma TouchRefusedKeeps(w: World, cfg: Config)
    requires Inv(w, cfg) && w.access.at.Current?
    ensures var p := w.access.at;
            Inv(DropAtAccess(w, p.held.e), cfg) && Inv(Invalidate(DropAtAccess(w, p.held.e), p.conn), cfg)
  {
    DropKeeps(w, cfg);
    InvalidateKeeps(DropAtAccess(w, w.access.at.held.e), cfg, w.access.at.conn);
  }

  /** The client is known, or new and given a flow. */
  predicate TouchSucceeds(w: World, maxDatagram: Option<nat>, cfg: Config)
    requires w.access.at.Current?
  {
    && PayloadLimit(maxDatagram).Some? && |w.access.at.held.payload| <= PayloadLimit(maxDatagram).value
    && Touch(w.access.clients, w.access.at.held.client, 0, cfg.maxClients).0.Ok?
  }

  lemma TouchRefusedIs(w: World, cfg: Config, now: Instant, maxDatagram: Option<nat>)
    requires w.access.at.Current? && !TouchSucceeds(w, maxDatagram, cfg)
    ensures var dropped := DropAtAccess(w, w.access.at.held.e);
            StepTouch(w, now, maxDatagram, cfg) == dropped
            || StepTouch(w, now, maxDatagram, cfg) == Invalidate(dropped, w.access.at.conn)
  {
  }

  lemma TouchKnownIs(w: World, cfg: Config, now: Instant, maxDatagram: Option<nat>)
    requires w.access.at.Current? && TouchSucceeds(w, maxDatagram, cfg)
    requires w.access.at.held.client in w.access.clients.byClient
    ensures var p := w.access.at;
            var flow := w.access.clients.byClient[p.held.client];
            var clients := Touch(w.access.clients, p.held.client, now, cfg.maxClients).1;
            StepTouch(w, now, maxDatagram, cfg)
            == w.(access := w.access.(at := Sending(p.held, p.conn, flow), clients := clients))
  {
  }

  lemma TouchNewIs(w: World, cfg: Config, now: Instant, maxDatagram: Option<nat>)
    requires w.access.at.Current? && TouchSucceeds(w, maxDatagram, cfg)
    requires w.access.at.held.client !in w.access.clients.byClient
    ensures var p := w.access.at;
            var flow := w.access.clients.next;
            var clients := Touch(w.access.clients, p.held.client, now, cfg.maxClients).1;
            && Touch(w.access.clients, p.held.client, now, cfg.maxClients).0.Ok?
            && StepTouch(w, now, maxDatagram, cfg)
               == w.(access := w.access.(at := Sending(p.held, p.conn, flow), clients := clients),
                     origins := w.origins.(owner := w.origins.owner[Key(p.conn, flow) := p.held.client]))
  {
  }

  lemma TouchFlowKeeps(w: World, cfg: Config, now: Instant, maxDatagram: Option<nat>)
    requires Inv(w, cfg) && Enabled(w, Action.TouchFlow(now, maxDatagram))
    ensures Inv(StepTouch(w, now, maxDatagram, cfg), cfg)
  {
    if !TouchSucceeds(w, maxDatagram, cfg) {
      TouchRefusedKeeps(w, cfg);
      TouchRefusedIs(w, cfg, now, maxDatagram);
    } else if w.access.at.held.client in w.access.clients.byClient {
      TouchKnownKeeps(w, cfg, now);
      TouchKnownIs(w, cfg, now, maxDatagram);
    } else {
      TouchNewIs(w, cfg, now, maxDatagram);
      TouchNewKeeps(w, cfg, now);
    }
  }

  lemma SendUpKeeps(w: World, cfg: Config, sent: bool, connectionLost: bool)
    requires Inv(w, cfg) && Enabled(w, Action.SendUp(sent, connectionLost))
    ensures Inv(StepSendUp(w, sent, connectionLost), cfg)
  {
    DropKeeps(w, cfg);
    InvalidateKeeps(DropAtAccess(w, w.access.at.held.e), cfg, w.access.at.conn);
    DecodeInvertsFrame(w.access.at.flow, w.access.at.held.payload);
  }

  lemma SweepClientsKeeps(w: World, cfg: Config, now: Instant)
    requires Inv(w, cfg) && Enabled(w, Action.SweepClients(now))
    ensures Inv(Apply(w, Action.SweepClients(now), cfg), cfg)
  {
    ExpireKeepsValid(w.access.clients, now, cfg.accessIdle);
  }

  /** The flow of a reply frame that the reader can deliver. */
  predicate ReaderKnows(w: World, reply: nat)
    requires reply in w.net.down
  {
    Decode(w.net.down[reply].bytes).Ok? && Decode(w.net.down[reply].bytes).value.flow in w.access.clients.byFlow
  }

  lemma ReadReplyIs(w: World, reply: nat, now: Instant)
    requires w.access.reader.Reading? && reply in w.net.down
    ensures var v := w.(net := w.net.(down := w.net.down - {reply}));
            if ReaderKnows(w, reply) then
              var d := Decode(w.net.down[reply].bytes).value;
              var (client, clients) := ClientOf(w.access.clients, d.flow, now);
              client.Some? &&
              StepReadReply(w, reply, now)
              == w.(net := w.net.(down := w.net.down - {reply}),
                    access := w.access.(clients := clients,
                                        reader := Delivering(w.access.reader.conn, reply, client.value, d.payload)))
            else StepReadReply(w, reply, now) == v
  {
  }

  lemma ReadReplyKeeps(w: World, cfg: Config, reply: nat, now: Instant)
    requires Inv(w, cfg) && Enabled(w, Action.ReadReply(reply, now))
    ensures Inv(StepReadReply(w, reply, now), cfg)
  {
    ReadReplyIs(w, reply, now);
    if ReaderKnows(w, reply) {
      var d := Decode(w.net.down[reply].bytes).value;
      ReaderTakesKeeps(w, cfg, reply, now, d.flow, d.payload);
    } else {
      TakeDownKeeps(w, cfg, reply);
    }
  }

  lemma DeliverReplyKeeps(w: World, cfg: Config, sent: bool)
    requires Inv(w, cfg) && Enabled(w, Action.DeliverReply(sent))
    ensures Inv(Apply(w, Action.DeliverReply(sent), cfg), cfg)
  {
  }

  lemma ReaderEndsKeeps(w: World, cfg: Config)
    requires Inv(w, cfg) && Enabled(w, Action.ReaderEnds)
    ensures Inv(Apply(w, Action.ReaderEnds, cfg), cfg)
  {
  }

  lemma LoseUpKeeps(w: World, cfg: Config, e: nat)
    requires Inv(w, cfg) && Enabled(w, Action.LoseUp(e))
    ensures Inv(Apply(w, Action.LoseUp(e), cfg), cfg)
  {
    TakeUpKeeps(w, cfg, e);
    RestageKeeps(w.(net := w.net.(up := w.net.up - {e})), cfg, e, Lost);
  }

  lemma LoseDownKeeps(w: World, cfg: Config, reply: nat)
    requires Inv(w, cfg) && Enabled(w, Action.LoseDown(reply))
    ensures Inv(Apply(w, Action.LoseDown(reply), cfg), cfg)
  {
    TakeDownKeeps(w, cfg, reply);
  }

  lemma StrangerDialsKeeps(w: World, cfg: Config)
    requires Inv(w, cfg) && Enabled(w, Action.StrangerDials)
    ensures Inv(Apply(w, Action.StrangerDials, cfg), cfg)
  {
  }

  lemma StrangerSendsKeeps(w: World, cfg: Config, conn: nat, bytes: seq<Byte>)
    requires Inv(w, cfg) && Enabled(w, Action.StrangerSends(conn, bytes))
    ensures Inv(Apply(w, Action.StrangerSends(conn, bytes), cfg), cfg)
  {
    StrangerStageKeeps(w, conn, bytes);
  }

  lemma AcceptConnKeeps(w: World, cfg: Config, conn: nat)
    requires Inv(w, cfg) && Enabled(w, Action.AcceptConn(conn))
    ensures Inv(Apply(w, Action.AcceptConn(conn), cfg), cfg)
  {
    SetConnKeeps(w, cfg, conn, PeerConn(Receiving, EmptyPeer()));
  }

  /** The verdict on a datagram that decodes. */
  function VerdictOn(w: World, e: nat, now: Instant): Admission
    requires e in w.net.up && w.net.up[e].conn in w.serve.conns
  {
    if Decode(w.net.up[e].bytes).Ok?
    then Admit(w.serve.conns[w.net.up[e].conn].flows, Decode(w.net.up[e].bytes).value.flow, now).0
    else AdmitUnknown
  }

  lemma ReceiveUnknownIs(w: World, cfg: Config, e: nat, now: Instant, slotFree: bool)
    requires e in w.net.up && w.net.up[e].conn in w.serve.conns && VerdictOn(w, e, now) == AdmitUnknown
    ensures StepReceive(w, e, now, slotFree, cfg) == SetStage(w.(net := w.net.(up := w.net.up - {e})), e, Lost)
  {
  }

  lemma ReceiveLiveIs(w: World, cfg: Config, e: nat, now: Instant, slotFree: bool)
    requires e in w.net.up && w.net.up[e].conn in w.serve.conns && VerdictOn(w, e, now) == AdmitLive
    ensures var v := w.(net := w.net.(up := w.net.up - {e}));
            var c := w.net.up[e].conn;
            var d := Decode(w.net.up[e].bytes).value;
            var flows := Refresh(w.serve.conns[c].flows, d.flow, now);
            && d.flow in w.serve.conns[c].flows.live
            && StepReceive(w, e, now, slotFree, cfg)
               == PushItem(SetConn(v, c, v.serve.conns[c].(flows := flows)), flows.live[d.flow].upstream, Item(e, d.payload))
  {
  }

  lemma ReceiveNewIs(w: World, cfg: Config, e: nat, now: Instant, slotFree: bool)
    requires e in w.net.up && w.net.up[e].conn in w.serve.conns && VerdictOn(w, e, now) == AdmitNew
    ensures var v := w.(net := w.net.(up := w.net.up - {e}));
            var c := w.net.up[e].conn;
            var d := Decode(w.net.up[e].bytes).value;
            var conn := v.serve.conns[c];
            var t := StepReceive(w, e, now, slotFree, cfg);
            && Admit(conn.flows, d.flow, now).0 == AdmitNew
            && (t == SetStage(SetConn(v, c, conn.(flows := Refuse(conn.flows, d.flow))), e, Lost)
                || t == SetStage(SetConn(v, c, conn.(at := OpeningSocket(Item(e, d.payload), d.flow, now))), e, AtServe(c)))
  {
  }

  lemma ReceiveUpKeeps(w: World, cfg: Config, e: nat, now: Instant, slotFree: bool)
    requires Inv(w, cfg) && Enabled(w, Action.ReceiveUp(e, now, slotFree))
    ensures Inv(StepReceive(w, e, now, slotFree, cfg), cfg)
  {
    var c := w.net.up[e].conn;
    var v := w.(net := w.net.(up := w.net.up - {e}));
    TakeUpKeeps(w, cfg, e);
    if VerdictOn(w, e, now) == AdmitUnknown {
      ReceiveUnknownIs(w, cfg, e, now, slotFree);
      RestageKeeps(v, cfg, e, Lost);
    } else {
      var d := Decode(w.net.up[e].bytes).value;
      ArrivalGenuine(w, cfg, e);
      if VerdictOn(w, e, now) == AdmitLive {
        ReceiveLiveIs(w, cfg, e, now, slotFree);
        AdmitLiveKeeps(v, cfg, c, d.flow, Item(e, d.payload), now);
      } else {
        ReceiveNewIs(w, cfg, e, now, slotFree);
        AdmitNewKeeps(v, cfg, c, d.flow, Item(e, d.payload), now);
      }
    }
  }

  lemma ArrivalGenuine(w: World, cfg: Config, e: nat)
    requires Inv(w, cfg) && e in w.net.up && Decode(w.net.up[e].bytes).Ok?
    ensures var d := Decode(w.net.up[e].bytes).value;
            GenuineIfOurs(w.origins, Key(w.net.up[e].conn, d.flow), Item(e, d.payload))
  {
  }

  lemma SocketOpensKeeps(w: World, cfg: Config, conn: nat)
    requires Inv(w, cfg) && Enabled(w, Action.SocketOpens(conn))
    ensures Inv(StepSocketOpens(w, conn, cfg), cfg)
  {
    var p := w.serve.conns[conn].at;
    var socket := Socket(Key(conn, p.flow), NewQueue(cfg.depth), None, false);
    AddSocketKeeps(w, cfg, conn, socket);
    KeysCarry(w, w.serve.sockets + [socket], w.replies);
    assert QueueStage(w.serve.sockets + [socket], w.stage);
    assert QueueGenuine(w.serve.sockets + [socket], w.origins);
  }

  lemma SocketFailsKeeps(w: World, cfg: Config, conn: nat)
    requires Inv(w, cfg) && Enabled(w, Action.SocketFails(conn))
    ensures Inv(Apply(w, Action.SocketFails(conn), cfg), cfg)
  {
    var p := w.serve.conns[conn].at;
    RefusePeerKeeps(w, cfg, conn, p.flow);
    RestageKeeps(SetConn(w, conn, PeerConn(Receiving, Refuse(w.serve.conns[conn].flows, p.flow))), cfg, p.item.event, Lost);
  }

  lemma InsertFlowKeeps(w: World, cfg: Config, conn: nat)
    requires Inv(w, cfg) && Enabled(w, Action.InsertFlow(conn))
    ensures Inv(StepInsert(w, conn), cfg)
  {
    var p := w.serve.conns[conn].at;
    var after := PeerConn(Receiving, Insert(w.serve.conns[conn].flows, p.flow, p.socket, p.now));
    SetConnKeeps(w, cfg, conn, after);
    UnplacedPushKeeps(SetConn(w, conn, after), cfg, p.socket, p.item);
  }

  lemma SweepPeerKeeps(w: World, cfg: Config, conn: nat, now: Instant)
    requires Inv(w, cfg) && Enabled(w, Action.SweepPeer(conn, now))
    ensures Inv(Apply(w, Action.SweepPeer(conn, now), cfg), cfg)
  {
    SetConnKeeps(w, cfg, conn, w.serve.conns[conn].(flows := ExpirePeers(w.serve.conns[conn].flows, now, cfg.serveIdle)));
  }

  lemma LoopEndsKeeps(w: World, cfg: Config, conn: nat)
    requires Inv(w, cfg) && Enabled(w, Action.LoopEnds(conn))
    ensures Inv(Apply(w, Action.LoopEnds(conn), cfg), cfg)
  {
    var v := SetConn(w, conn, PeerConn(Over, Drained(w.serve.conns[conn].flows)));
    SetConnKeeps(w, cfg, conn, PeerConn(Over, Drained(w.serve.conns[conn].flows)));
    if w.serve.conns[conn].at.OpeningSocket? {
      RestageKeeps(v, cfg, w.serve.conns[conn].at.item.event, Lost);
    }
  }

  lemma WriterTakesKeeps(w: World, cfg: Config, socket: nat)
    requires Inv(w, cfg) && Enabled(w, Action.WriterTakes(socket))
    ensures Inv(Apply(w, Action.WriterTakes(socket), cfg), cfg)
  {
    SetSocketKeeps(w, cfg, socket, w.serve.sockets[socket].(queue := Take(w.serve.sockets[socket].queue).1));
  }

  lemma WriterEndsKeeps(w: World, cfg: Config, socket: nat)
    requires Inv(w, cfg) && Enabled(w, Action.WriterEnds(socket))
    ensures Inv(Apply(w, Action.WriterEnds(socket), cfg), cfg)
  {
    SetSocketKeeps(w, cfg, socket, w.serve.sockets[socket].(queue := w.serve.sockets[socket].queue.(writerGone := true)));
  }

  lemma RelayReadsKeeps(w: World, cfg: Config, socket: nat, payload: seq<Byte>)
    requires Inv(w, cfg) && Enabled(w, Action.RelayReads(socket, payload))
    ensures Inv(StepRelayReads(w, socket, payload), cfg)
  {
    var x := w.serve.sockets[socket].(holds := Some(HeldReply(|w.replies|, payload)));
    SocketCarries(w, socket, x, cfg.depth);
    SameAcceptedCarries(w, socket, x);
    KeysCarry(w, w.serve.sockets[socket := x], w.replies + [Reply(socket, payload)]);
  }

  /** A frame of a reply read on a socket may travel down that socket's connection. */
  lemma AddDownKeeps(w: World, cfg: Config, reply: nat, bytes: seq<Byte>)
    requires Inv(w, cfg) && reply < |w.replies| && w.replies[reply].socket < |w.serve.sockets|
    requires Decode(bytes) == Ok(Decoded(w.serve.sockets[w.replies[reply].socket].key.flow, w.replies[reply].payload))
    ensures var c := w.serve.sockets[w.replies[reply].socket].key.conn;
            Inv(w.(net := w.net.(down := w.net.down[reply := InFlight(c, bytes)])), cfg)
  {
  }

  /** Forwarding before the frame leaves: the relay is free again, its flow refreshed. */
  function Released(w: World, socket: nat, now: Instant): World
    requires socket < |w.serve.sockets|
  {
    var s := w.serve.sockets[socket];
    var u := SetSocket(w, socket, s.(holds := None));
    if s.key.conn in w.serve.conns
    then SetConn(u, s.key.conn, w.serve.conns[s.key.conn].(flows := Refresh(w.serve.conns[s.key.conn].flows, s.key.flow, now)))
    else u
  }

  lemma RelayForwardsIs(w: World, socket: nat, now: Instant, maxDatagram: Option<nat>, sent: bool)
    requires socket < |w.serve.sockets| && w.serve.sockets[socket].holds.Some?
    ensures var s := w.serve.sockets[socket];
            var v := Released(w, socket, now);
            var frame := InFlight(s.key.conn, Frame(s.key.flow, s.holds.value.payload));
            var t := StepRelayForwards(w, socket, now, maxDatagram, sent);
            t == v || t == v.(net := v.net.(down := v.net.down[s.holds.value.reply := frame]))
  {
  }

  lemma ReleasedKeeps(w: World, cfg: Config, socket: nat, now: Instant)
    requires Inv(w, cfg) && socket < |w.serve.sockets|
    ensures Inv(Released(w, socket, now), cfg)
  {
    var s := w.serve.sockets[socket];
    SetSocketKeeps(w, cfg, socket, s.(holds := None));
    if s.key.conn in w.serve.conns {
      RefreshPeerKeeps(SetSocket(w, socket, s.(holds := None)), cfg, s.key.conn, s.key.flow, now);
    }
  }

  lemma HeldIsRecorded(w: World, cfg: Config, socket: nat)
    requires Inv(w, cfg) && socket < |w.serve.sockets| && w.serve.sockets[socket].holds.Some?
    ensures var held := w.serve.sockets[socket].holds.value;
            held.reply < |w.replies| && w.replies[held.reply] == Reply(socket, held.payload)
  {
  }

  lemma RelayForwardsKeeps(w: World, cfg: Config, socket: nat, now: Instant, maxDatagram: Option<nat>, sent: bool)
    requires Inv(w, cfg) && Enabled(w, Action.RelayForwards(socket, now, maxDatagram, sent))
    ensures Inv(StepRelayForwards(w, socket, now, maxDatagram, sent), cfg)
  {
    var s := w.serve.sockets[socket];
    var v := Released(w, socket, now);
    HeldIsRecorded(w, cfg, socket);
    ReleasedKeeps(w, cfg, socket, now);
    DecodeInvertsFrame(s.key.flow, s.holds.value.payload);
    assert v.replies == w.replies && v.serve.sockets[socket].key == s.key;
    AddDownKeeps(v, cfg, s.holds.value.reply, Frame(s.key.flow, s.holds.value.payload));
    RelayForwardsIs(w, socket, now, maxDatagram, sent);
  }

  lemma RelayEndsKeeps(w: World, cfg: Config, socket: nat)
    requires Inv(w, cfg) && Enabled(w, Action.RelayEnds(socket))
    ensures Inv(Apply(w, Action.RelayEnds(socket), cfg), cfg)
  {
    SetSocketKeeps(w, cfg, socket, w.serve.sockets[socket].(relayGone := true));
  }

  /** The steps of Access's two loops. */
  predicate OfAccess(a: Action) {
    || a.ClientSends? || a.UseCached? || a.Dial? || a.DialFails? || a.CheckIncarnation? || a.ResetTable? || a.SpawnReader?
    || a.TouchFlow? || a.SendUp? || a.SweepClients? || a.ReadReply? || a.DeliverReply? || a.ReaderEnds?
  }

  lemma AccessStepKeeps(w: World, a: Action, cfg: Config)
    requires Inv(w, cfg) && Enabled(w, a) && OfAccess(a)
    ensures Inv(Apply(w, a, cfg), cfg)
  {
    match a {
      case ClientSends(client, payload) => ClientSendsKeeps(w, cfg, client, payload);
      case UseCached => UseCachedKeeps(w, cfg);
      case Dial => DialKeeps(w, cfg);
      case DialFails => DialFailsKeeps(w, cfg);
      case CheckIncarnation => CheckIncarnationKeeps(w, cfg);
      case ResetTable => ResetTableKeeps(w, cfg);
      case SpawnReader => SpawnReaderKeeps(w, cfg);
      case TouchFlow(now, maxDatagram) => TouchFlowKeeps(w, cfg, now, maxDatagram);
      case SendUp(sent, connectionLost) => SendUpKeeps(w, cfg, sent, connectionLost);
      case SweepClients(now) => SweepClientsKeeps(w, cfg, now);
      case ReadReply(reply, now) => ReadReplyKeeps(w, cfg, reply, now);
      case DeliverReply(sent) => DeliverReplyKeeps(w, cfg, sent);
      case ReaderEnds => ReaderEndsKeeps(w, cfg);
    }
  }

  /** The steps of an upstream socket's tasks. */
  predicate OfSocket(a: Action) {
    a.WriterTakes? || a.WriterEnds? || a.RelayReads? || a.RelayForwards? || a.RelayEnds?
  }

  lemma SocketStepKeeps(w: World, a: Action, cfg: Config)
    requires Inv(w, cfg) && Enabled(w, a) && OfSocket(a)
    ensures Inv(Apply(w, a, cfg), cfg)
  {
    match a {
      case WriterTakes(socket) => WriterTakesKeeps(w, cfg, socket);
      case WriterEnds(socket) => WriterEndsKeeps(w, cfg, socket);
      case RelayReads(socket, payload) => RelayReadsKeeps(w, cfg, socket, payload);
      case RelayForwards(socket, now, maxDatagram, sent) => RelayForwardsKeeps(w, cfg, socket, now, maxDatagram, sent);
      case RelayEnds(socket) => RelayEndsKeeps(w, cfg, socket);
    }
  }

  lemma ServeStepKeeps(w: World, a: Action, cfg: Config)
    requires Inv(w, cfg) && Enabled(w, a) && !OfAccess(a) && !OfSocket(a)
    ensures Inv(Apply(w, a, cfg), cfg)
  {
    match a {
      case LoseUp(e) => LoseUpKeeps(w, cfg, e);
      case LoseDown(reply) => LoseDownKeeps(w, cfg, reply);
      case StrangerDials => StrangerDialsKeeps(w, cfg);
      case StrangerSends(conn, bytes) => StrangerSendsKeeps(w, cfg, conn, bytes);
      case AcceptConn(conn) => AcceptConnKeeps(w, cfg, conn);
      case ReceiveUp(e, now, slotFree) => ReceiveUpKeeps(w, cfg, e, now, slotFree);
      case SocketOpens(conn) => SocketOpensKeeps(w, cfg, conn);
      case SocketFails(conn) => SocketFailsKeeps(w, cfg, conn);
      case InsertFlow(conn) => InsertFlowKeeps(w, cfg, conn);
      case SweepPeer(conn, now) => SweepPeerKeeps(w, cfg, conn, now);
      case LoopEnds(conn) => LoopEndsKeeps(w, cfg, conn);
    }
  }

  lemma InitialOk(cfg: Config)
    ensures Inv(INITIAL, cfg)
  {
    var w := INITIAL;
    assert StagesOk(w) && PayloadsOk(w) && RepliesOk(w);
    assert SocketsOk(w.serve.conns, w.serve.sockets, cfg.depth);
  }

  lemma {:induction false} RunKeeps(actions: seq<Action>, cfg: Config)
    requires After(actions, cfg).Some?
    ensures Inv(After(actions, cfg).value, cfg)
  {
    if actions == [] {
      InitialOk(cfg);
    } else {
      RunKeeps(actions[..|actions| - 1], cfg);
      var w, a := After(actions[..|actions| - 1], cfg).value, actions[|actions| - 1];
      if OfAccess(a) {
        AccessStepKeeps(w, a, cfg);
      } else if OfSocket(a) {
        SocketStepKeeps(w, a, cfg);
      } else {
        ServeStepKeeps(w, a, cfg);
      }
    }
  }

  // ---------------------------------------------------------------- theorems

  /** Requests. In every run, whatever a flow's writer handed to the upstream
      socket of a flow of this Access is a payload that the one client owning the
      flow sent, as that event, and it is handed over in the order of acceptance. */
  lemma {:induction false} RequestsComeFromTheirClient(actions: seq<Action>, cfg: Config, s: nat, i: nat)
    requires After(actions, cfg).Some?
    requires var sockets := After(actions, cfg).value.serve.sockets; s < |sockets| && i < |sockets[s].queue.handed|
    ensures var w := After(actions, cfg).value;
            var socket := w.serve.sockets[s];
            var item := socket.queue.handed[i];
            && socket.queue.handed <= socket.queue.accepted
            && (socket.key.conn in w.origins.ours ==>
                  && socket.key in w.origins.owner
                  && item.event < |w.origins.events|
                  && w.origins.events[item.event] == FromClient(w.origins.owner[socket.key], item.payload))
  {
    RunKeeps(actions, cfg);
    var w := After(actions, cfg).value;
    assert QueueOk(w.serve.sockets[s].queue, cfg.depth);
    assert GenuineIfOurs(w.origins, w.serve.sockets[s].key, w.serve.sockets[s].queue.accepted[i]);
  }

  /** No client datagram is handed over twice, on any sockets of any connections. */
  lemma {:induction false} RequestsHandedOverOnce(actions: seq<Action>, cfg: Config, s: nat, i: nat, t: nat, j: nat)
    requires After(actions, cfg).Some?
    requires var sockets := After(actions, cfg).value.serve.sockets;
             && s < |sockets| && i < |sockets[s].queue.handed|
             && t < |sockets| && j < |sockets[t].queue.handed|
             && sockets[s].queue.handed[i].event == sockets[t].queue.handed[j].event
    ensures s == t && i == j
  {
    RunKeeps(actions, cfg);
    var w := After(actions, cfg).value;
    assert QueueOk(w.serve.sockets[s].queue, cfg.depth) && QueueOk(w.serve.sockets[t].queue, cfg.depth);
    assert w.stage[w.serve.sockets[s].queue.accepted[i].event] == Accepted(s, i);
    assert w.stage[w.serve.sockets[t].queue.accepted[j].event] == Accepted(t, j);
  }

  /** Replies. In every run, a reply that reached a local client was read, with that
      payload, on the socket of a flow of this Access, and the client is the one
      that owns the flow. */
  lemma {:induction false} RepliesReachTheirClient(actions: seq<Action>, cfg: Config)
    requires After(actions, cfg).Some?
    ensures var w := After(actions, cfg).value;
            forall i :: 0 <= i < |w.delivered| ==>
              var d := w.delivered[i];
              && d.reply < |w.replies| && w.replies[d.reply].socket < |w.serve.sockets|
              && w.replies[d.reply].payload == d.payload
              && var key := w.serve.sockets[w.replies[d.reply].socket].key;
                 && key.conn in w.origins.ours
                 && key in w.origins.owner
                 && w.origins.owner[key] == d.client
  {
    RunKeeps(actions, cfg);
    var w := After(actions, cfg).value;
    forall i | 0 <= i < |w.delivered|
      ensures RightClient(w.delivered[i], w.serve.sockets, w.replies, w.origins.owner)
      ensures w.serve.sockets[w.replies[w.delivered[i].reply].socket].key.conn in w.origins.ours
    {
      assert w.serve.sockets[w.replies[w.delivered[i].reply].socket].key in w.origins.owner;
    }
  }

  /** A flow of a connection is given one socket, once: no flow is bound again
      after it ended, so a socket's traffic is the traffic of one flow. */
  lemma {:induction false} OneSocketPerFlow(actions: seq<Action>, cfg: Config, s: nat, t: nat)
    requires After(actions, cfg).Some?
    requires s < |After(actions, cfg).value.serve.sockets| && t < |After(actions, cfg).value.serve.sockets|
    requires After(actions, cfg).value.serve.sockets[s].key == After(actions, cfg).value.serve.sockets[t].key
    ensures s == t
  {
    RunKeeps(actions, cfg);
  }

  ghost predicate OriginsExtend(o: Origins, m: Origins) {
    && (forall k :: k in o.owner ==> k in m.owner && m.owner[k] == o.owner[k])
    && o.events <= m.events
  }

  ghost predicate SocketsExtend(before: seq<Socket>, after: seq<Socket>) {
    && |before| <= |after|
    && (forall s :: 0 <= s < |before| ==> after[s].key == before[s].key)
  }

  /** Nothing recorded changes later: owners, sockets' flows and events stay. */
  ghost predicate Extends(w: World, v: World) {
    OriginsExtend(w.origins, v.origins) && SocketsExtend(w.serve.sockets, v.serve.sockets)
  }

  lemma TouchExtends(w: World, cfg: Config, now: Instant, maxDatagram: Option<nat>)
    requires Inv(w, cfg) && w.access.at.Current?
    ensures OriginsExtend(w.origins, StepTouch(w, now, maxDatagram, cfg).origins)
  {
    assert Key(w.access.at.conn, w.access.clients.next) !in w.origins.owner;
  }

  lemma AccessStepOrigins(w: World, a: Action, cfg: Config)
    requires Inv(w, cfg) && Enabled(w, a) && OfAccess(a)
    ensures OriginsExtend(w.origins, Apply(w, a, cfg).origins)
  {
    if a.TouchFlow? {
      TouchExtends(w, cfg, a.now, a.maxDatagram);
    }
  }

  lemma AccessStepSockets(w: World, a: Action, cfg: Config)
    requires Enabled(w, a) && OfAccess(a)
    ensures Apply(w, a, cfg).serve.sockets == w.serve.sockets
  {
  }

  lemma ServeStepOrigins(w: World, a: Action, cfg: Config)
    requires Enabled(w, a) && !OfAccess(a)
    ensures OriginsExtend(w.origins, Apply(w, a, cfg).origins)
  {
  }

  lemma SocketStepSockets(w: World, a: Action, cfg: Config)
    requires Enabled(w, a) && OfSocket(a)
    ensures SocketsExtend(w.serve.sockets, Apply(w, a, cfg).serve.sockets)
  {
    match a {
      case WriterTakes(s) =>
      case WriterEnds(s) =>
      case RelayReads(s, payload) =>
      case RelayForwards(s, now, maxDatagram, sent) =>
      case RelayEnds(s) =>
    }
  }

  lemma ServeStepSockets(w: World, a: Action, cfg: Config)
    requires Enabled(w, a) && !OfAccess(a) && !OfSocket(a)
    ensures SocketsExtend(w.serve.sockets, Apply(w, a, cfg).serve.sockets)
  {
    match a {
      case LoseUp(e) =>
      case LoseDown(reply) =>
      case StrangerDials =>
      case StrangerSends(conn, bytes) =>
      case AcceptConn(conn) =>
      case ReceiveUp(e, now, slotFree) =>
      case SocketOpens(c) =>
      case SocketFails(c) =>
      case InsertFlow(c) =>
      case SweepPeer(conn, now) =>
      case LoopEnds(conn) =>
    }
  }

  /** What the theorems say of a flow and a socket they say of one client for good. */
  lemma {:induction false} OwnersArePermanent(actions: seq<Action>, more: seq<Action>, cfg: Config)
    requires After(actions + more, cfg).Some?
    ensures After(actions, cfg).Some?
    ensures Extends(After(actions, cfg).value, After(actions + more, cfg).value)
  {
    if more == [] {
      assert actions + more == actions;
    } else {
      var shorter := more[..|more| - 1];
      assert (actions + more)[..|actions + more| - 1] == actions + shorter;
      OwnersArePermanent(actions, shorter, cfg);
      RunKeeps(actions + shorter, cfg);
      var w, a := After(actions + shorter, cfg).value, more[|more| - 1];
      if OfAccess(a) {
        AccessStepOrigins(w, a, cfg);
        AccessStepSockets(w, a, cfg);
      } else {
        ServeStepOrigins(w, a, cfg);
        if OfSocket(a) {
          SocketStepSockets(w, a, cfg);
        } else {
          ServeStepSockets(w, a, cfg);
        }
      }
    }
  }
}
