/** A run the tunnel's theorems speak of: traffic does get through. */
module TunnelRuns {
  import opened Common
  import opened Wire
  import opened Flows
  import opened Tunnel

  /** Extend a concrete run by one step. */
  lemma Extend(actions: seq<Action>, w: World, a: Action, cfg: Config) returns (longer: seq<Action>, v: World)
    requires After(actions, cfg) == Some(w) && Enabled(w, a)
    ensures v == Apply(w, a, cfg) && After(longer, cfg) == Some(v)
  {
    longer, v := actions + [a], Apply(w, a, cfg);
    assert longer[..|actions|] == actions;
  }

  function Room(payload: seq<Byte>): Option<nat> {
    Some(|payload| + HEADER_LEN + 1)
  }

  /** Access dials its first connection for a client's first datagram, resets its
      table and starts the reply reader. */
  lemma FirstDialRun(client: SocketAddr, payload: seq<Byte>, cfg: Config) returns (run: seq<Action>, w: World)
    ensures After(run, cfg) == Some(w)
    ensures w == INITIAL.(
                   access := Access(Current(Received(0, client, payload), 0), Some(0), Some(0), EMPTY_CLIENTS, Reading(0)),
                   nextConn := 1,
                   origins := Origins([FromClient(client, payload)], {0}, map[]),
                   stage := map[0 := AtAccess])
  {
    run, w := Extend([], INITIAL, ClientSends(client, payload), cfg);
    run, w := Extend(run, w, Dial, cfg);
    run, w := Extend(run, w, CheckIncarnation, cfg);
    run, w := Extend(run, w, ResetTable, cfg);
    run, w := Extend(run, w, SpawnReader, cfg);
  }

  /** The datagram has been given the first flow and sent, and Serve has accepted the
      connection. */
  function Sent(client: SocketAddr, payload: seq<Byte>, flow: FlowId, cfg: Config): World {
    World(
      Access(Listening, Some(0), Some(0), Touch(EMPTY_CLIENTS, client, 0, cfg.maxClients).1, Reading(0)),
      Net(map[0 := InFlight(0, Frame(flow, payload))], map[]),
      Serve(map[0 := PeerConn(Receiving, EmptyPeer())], []),
      1,
      Origins([FromClient(client, payload)], {0}, map[Key(0, flow) := client]),
      map[0 := OnTheWay], [], [])
  }

  lemma SentRun(client: SocketAddr, payload: seq<Byte>, flow: FlowId, cfg: Config) returns (run: seq<Action>, w: World)
    requires cfg.maxClients > 0 && flow == EMPTY_CLIENTS.next
    ensures After(run, cfg) == Some(w) && w == Sent(client, payload, flow, cfg)
  {
    run, w := FirstDialRun(client, payload, cfg);
    run, w := Extend(run, w, TouchFlow(0, Room(payload)), cfg);
    run, w := Extend(run, w, SendUp(true, false), cfg);
    run, w := Extend(run, w, AcceptConn(0), cfg);
  }

  /** Serve has decided to open a socket for it. */
  function Opening(client: SocketAddr, payload: seq<Byte>, flow: FlowId, cfg: Config): World {
    Sent(client, payload, flow, cfg)
      .(net := Net(map[], map[]),
        serve := Serve(map[0 := PeerConn(OpeningSocket(Item(0, payload), flow, 0), EmptyPeer())], []),
        stage := map[0 := AtServe(0)])
  }

  /** The first datagram of any flow on a fresh connection makes Serve open a socket. */
  lemma FirstDatagramOpens(w: World, e: nat, c: nat, flow: FlowId, payload: seq<Byte>, cfg: Config)
    requires cfg.perPeer > 0
    requires e in w.net.up && w.net.up[e] == InFlight(c, Frame(flow, payload))
    requires c in w.serve.conns && w.serve.conns[c] == PeerConn(Receiving, EmptyPeer())
    ensures StepReceive(w, e, 0, true, cfg) ==
            SetStage(SetConn(w.(net := w.net.(up := w.net.up - {e})), c,
                             PeerConn(OpeningSocket(Item(e, payload), flow, 0), EmptyPeer())), e, AtServe(c))
  {
    DecodeInvertsFrame(flow, payload);
  }

  lemma ReceiveOpens(client: SocketAddr, payload: seq<Byte>, flow: FlowId, cfg: Config)
    requires cfg.perPeer > 0
    ensures StepReceive(Sent(client, payload, flow, cfg), 0, 0, true, cfg) == Opening(client, payload, flow, cfg)
  {
    var w := Sent(client, payload, flow, cfg);
    FirstDatagramOpens(w, 0, 0, flow, payload, cfg);
    assert w.net.up - {0} == map[];
  }

  /** The flow is in the table, its socket is there and holds the payload. */
  function Admitted(client: SocketAddr, payload: seq<Byte>, flow: FlowId, cfg: Config): World {
    Opening(client, payload, flow, cfg)
      .(serve := Serve(map[0 := PeerConn(Receiving, Insert(EmptyPeer(), flow, 0, 0))],
                       [Socket(Key(0, flow), Offer(NewQueue(cfg.depth), Item(0, payload)).1, None, false)]),
        stage := map[0 := Accepted(0, 0)])
  }

  lemma InsertAdmits(client: SocketAddr, payload: seq<Byte>, flow: FlowId, cfg: Config)
    ensures StepSocketOpens(Opening(client, payload, flow, cfg), 0, cfg).serve.conns[0].at.Inserting?
    ensures StepInsert(StepSocketOpens(Opening(client, payload, flow, cfg), 0, cfg), 0) == Admitted(client, payload, flow, cfg)
  {
  }

  lemma AdmittedRun(client: SocketAddr, payload: seq<Byte>, flow: FlowId, cfg: Config) returns (run: seq<Action>, w: World)
    requires cfg.maxClients > 0 && cfg.perPeer > 0 && flow == EMPTY_CLIENTS.next
    ensures After(run, cfg) == Some(w) && w == Admitted(client, payload, flow, cfg)
  {
    run, w := SentRun(client, payload, flow, cfg);
    ReceiveOpens(client, payload, flow, cfg);
    run, w := Extend(run, w, ReceiveUp(0, 0, true), cfg);
    InsertAdmits(client, payload, flow, cfg);
    run, w := Extend(run, w, SocketOpens(0), cfg);
    run, w := Extend(run, w, InsertFlow(0), cfg);
  }

  /** The relay has read an answer, and forwarded it. */
  lemma ForwardedRun(client: SocketAddr, payload: seq<Byte>, answer: seq<Byte>, flow: FlowId, cfg: Config)
    returns (run: seq<Action>, w: World)
    requires cfg.maxClients > 0 && cfg.perPeer > 0 && flow == EMPTY_CLIENTS.next
    ensures After(run, cfg) == Some(w)
    ensures w.access == Admitted(client, payload, flow, cfg).access && w.delivered == []
    ensures w.serve.sockets == Admitted(client, payload, flow, cfg).serve.sockets
    ensures w.net.down == map[0 := InFlight(0, Frame(flow, answer))]
  {
    run, w := AdmittedRun(client, payload, flow, cfg);
    run, w := Extend(run, w, RelayReads(0, answer), cfg);
    run, w := Extend(run, w, RelayForwards(0, 0, Room(answer), true), cfg);
  }

  /** For every client, request and answer there is a run in which the request waits
      at its flow's socket and the answer read there is delivered to the client. */
  lemma {:induction false} RequestAndReplyRun(client: SocketAddr, payload: seq<Byte>, answer: seq<Byte>, flow: FlowId, cfg: Config)
    returns (run: seq<Action>, w: World)
    requires cfg.maxClients > 0 && cfg.perPeer > 0 && flow == EMPTY_CLIENTS.next
    ensures After(run, cfg) == Some(w)
    ensures w.serve.sockets == Admitted(client, payload, flow, cfg).serve.sockets
    ensures w.delivered == [Delivery(0, client, answer)]
  {
    run, w := ForwardedRun(client, payload, answer, flow, cfg);
    ReadsAnswer(w, 0, 0, flow, client, answer);
    run, w := Extend(run, w, ReadReply(0, 0), cfg);
    DeliversAnswer(w, 0, 0, client, answer);
    run, w := Extend(run, w, DeliverReply(true), cfg);
  }

  lemma DeliversAnswer(w: World, r: nat, c: nat, client: SocketAddr, answer: seq<Byte>)
    requires w.access.reader == Delivering(c, r, client, answer)
    ensures Enabled(w, DeliverReply(true)) && StepDeliver(w, true).serve == w.serve
    ensures StepDeliver(w, true).delivered == w.delivered + [Delivery(r, client, answer)]
  {
  }

  /** A reply frame of a live flow is on its way to the flow's client. */
  lemma ReadsAnswer(w: World, r: nat, c: nat, flow: FlowId, client: SocketAddr, answer: seq<Byte>)
    requires flow in w.access.clients.byFlow && w.access.clients.byFlow[flow].client == client
    requires w.access.reader == Reading(c) && r in w.net.down && w.net.down[r] == InFlight(c, Frame(flow, answer))
    ensures StepReadReply(w, r, 0).access.reader == Delivering(c, r, client, answer)
    ensures StepReadReply(w, r, 0).delivered == w.delivered && StepReadReply(w, r, 0).serve == w.serve
  {
    DecodeInvertsFrame(flow, answer);
  }
}
