/** Each reply read on a socket is in at most one place: held by its relay, on its way
    down, in the reader's hands, or delivered. So no reply reaches a client twice. */
module TunnelReplies {
  import opened Common
  import opened Wire
  import opened Flows
  import opened Tunnel

  /** The replies on their way or delivered are recorded ones, each in one place. */
  ghost predicate Once(sockets: seq<Socket>, down: map<nat, InFlight>, reader: Reader, delivered: seq<Delivery>, count: nat) {
    && HeldOnce(sockets, count)
    && (forall s :: 0 <= s < |sockets| && sockets[s].holds.Some? ==>
                      Gone(sockets[s].holds.value.reply, down, reader, delivered))
    && (forall r :: r in down ==> r < count && !Reads(reader, r) && NotDelivered(delivered, r))
    && (reader.Delivering? ==> reader.reply < count && NotDelivered(delivered, reader.reply))
    && (forall i :: 0 <= i < |delivered| ==> delivered[i].reply < count)
    && (forall i, j :: 0 <= i < j < |delivered| ==> delivered[i].reply != delivered[j].reply)
  }

  ghost predicate HeldOnce(sockets: seq<Socket>, count: nat) {
    && (forall s :: 0 <= s < |sockets| && sockets[s].holds.Some? ==> sockets[s].holds.value.reply < count)
    && (forall s, t :: 0 <= s < t < |sockets| && sockets[s].holds.Some? && sockets[t].holds.Some? ==>
                         sockets[s].holds.value.reply != sockets[t].holds.value.reply)
  }

  predicate Reads(reader: Reader, r: nat) {
    reader.Delivering? && reader.reply == r
  }

  ghost predicate NotDelivered(delivered: seq<Delivery>, r: nat) {
    forall i :: 0 <= i < |delivered| ==> delivered[i].reply != r
  }

  /** Neither on its way, nor being read, nor delivered. */
  ghost predicate Gone(r: nat, down: map<nat, InFlight>, reader: Reader, delivered: seq<Delivery>) {
    r !in down && !Reads(reader, r) && NotDelivered(delivered, r)
  }

  ghost predicate WorldOnce(w: World) {
    Once(w.serve.sockets, w.net.down, w.access.reader, w.delivered, |w.replies|)
  }

  /** The relays hold what they held; new sockets hold nothing. */
  ghost predicate SameHolds(before: seq<Socket>, after: seq<Socket>) {
    && |before| <= |after|
    && (forall s :: 0 <= s < |before| ==> after[s].holds == before[s].holds)
    && (forall s :: |before| <= s < |after| ==> after[s].holds.None?)
  }

  lemma SameHoldsKeeps(before: seq<Socket>, after: seq<Socket>, down: map<nat, InFlight>, reader: Reader,
                       delivered: seq<Delivery>, count: nat)
    requires Once(before, down, reader, delivered, count) && SameHolds(before, after)
    ensures Once(after, down, reader, delivered, count)
  {
  }

  predicate TouchesReplies(a: Action) {
    a.RelayReads? || a.RelayForwards? || a.LoseDown? || a.ReadReply? || a.DeliverReply?
  }

  /** Every other step leaves the replies where they are, or ends the reader. */
  ghost predicate LeavesReplies(w: World, v: World) {
    && SameHolds(w.serve.sockets, v.serve.sockets)
    && v.net.down == w.net.down
    && (v.access.reader == w.access.reader || !v.access.reader.Delivering?)
    && v.delivered == w.delivered
    && v.replies == w.replies
  }

  predicate LeavesServe(a: Action) {
    || a.ClientSends? || a.UseCached? || a.Dial? || a.DialFails? || a.CheckIncarnation? || a.ResetTable? || a.SpawnReader?
    || a.TouchFlow? || a.SendUp? || a.SweepClients? || a.ReaderEnds? || a.LoseUp?
  }

  lemma AccessLeaves(w: World, a: Action, cfg: Config)
    requires Enabled(w, a) && LeavesServe(a)
    ensures LeavesReplies(w, Apply(w, a, cfg))
  {
  }

  /** The steps of Serve's receive loops, and of other peers. */
  predicate OfLoop(a: Action) {
    a.ReceiveUp? || a.SocketOpens? || a.SocketFails? || a.InsertFlow?
  }

  lemma PushLeaves(w: World, s: nat, item: Item)
    ensures LeavesReplies(w, PushItem(w, s, item))
  {
  }

  lemma LoopLeaves(w: World, a: Action, cfg: Config)
    requires Enabled(w, a) && OfLoop(a)
    ensures LeavesReplies(w, Apply(w, a, cfg))
  {
    match a {
      case ReceiveUp(e, now, slotFree) => ReceiveLeaves(w, e, now, slotFree, cfg);
      case SocketOpens(c) =>
      case SocketFails(c) =>
      case InsertFlow(c) =>
    }
  }

  lemma ReceiveLeaves(w: World, e: nat, now: Instant, slotFree: bool, cfg: Config)
    requires e in w.net.up && w.net.up[e].conn in w.serve.conns
    ensures LeavesReplies(w, StepReceive(w, e, now, slotFree, cfg))
  {
    var c := w.net.up[e].conn;
    var v := w.(net := w.net.(up := w.net.up - {e}));
    if Decode(w.net.up[e].bytes).Ok? {
      var d := Decode(w.net.up[e].bytes).value;
      var (verdict, flows) := Admit(w.serve.conns[c].flows, d.flow, now);
      if verdict == AdmitLive {
        PushLeaves(SetConn(v, c, w.serve.conns[c].(flows := flows)), flows.live[d.flow].upstream, Item(e, d.payload));
      }
    }
  }

  lemma ServeLeaves(w: World, a: Action, cfg: Config)
    requires Enabled(w, a) && !LeavesServe(a) && !TouchesReplies(a) && !OfLoop(a)
    ensures LeavesReplies(w, Apply(w, a, cfg))
  {
    match a {
      case StrangerDials =>
      case StrangerSends(c, bytes) =>
      case AcceptConn(c) =>
      case SweepPeer(c, now) =>
      case LoopEnds(c) =>
      case WriterTakes(s) =>
      case WriterEnds(s) =>
      case RelayEnds(s) =>
    }
  }

  lemma LeavesKeeps(w: World, v: World)
    requires WorldOnce(w) && LeavesReplies(w, v)
    ensures WorldOnce(v)
  {
    SameHoldsKeeps(w.serve.sockets, v.serve.sockets, w.net.down, w.access.reader, w.delivered, |w.replies|);
  }

  lemma RelayReadsKeeps(w: World, s: nat, payload: seq<Byte>)
    requires WorldOnce(w) && Enabled(w, Action.RelayReads(s, payload))
    ensures WorldOnce(StepRelayReads(w, s, payload))
  {
  }

  /** A relay forwards the reply it holds, which was nowhere else. */
  lemma ForwardedKeeps(sockets: seq<Socket>, s: nat, down: map<nat, InFlight>, m: InFlight, reader: Reader,
                       delivered: seq<Delivery>, count: nat)
    requires Once(sockets, down, reader, delivered, count) && s < |sockets| && sockets[s].holds.Some?
    ensures var after := sockets[s := sockets[s].(holds := None)];
            && Once(after, down, reader, delivered, count)
            && Once(after, down[sockets[s].holds.value.reply := m], reader, delivered, count)
  {
    var after := sockets[s := sockets[s].(holds := None)];
    var r := sockets[s].holds.value.reply;
    assert Gone(r, down, reader, delivered);
    forall t | 0 <= t < |after| && after[t].holds.Some?
      ensures after[t].holds.value.reply != r && Gone(after[t].holds.value.reply, down, reader, delivered)
    {
      assert after[t] == sockets[t];
    }
  }

  lemma RelayForwardsKeeps(w: World, s: nat, now: Instant, maxDatagram: Option<nat>, sent: bool)
    requires WorldOnce(w) && Enabled(w, Action.RelayForwards(s, now, maxDatagram, sent))
    ensures WorldOnce(StepRelayForwards(w, s, now, maxDatagram, sent))
  {
    var socket := w.serve.sockets[s];
    var m := InFlight(socket.key.conn, Frame(socket.key.flow, socket.holds.value.payload));
    ForwardedKeeps(w.serve.sockets, s, w.net.down, m, w.access.reader, w.delivered, |w.replies|);
    var t := StepRelayForwards(w, s, now, maxDatagram, sent);
    assert t.serve.sockets == w.serve.sockets[s := socket.(holds := None)];
    assert t.net.down == w.net.down || t.net.down == w.net.down[socket.holds.value.reply := m];
  }

  lemma TakenDownKeeps(sockets: seq<Socket>, down: map<nat, InFlight>, r: nat, reader: Reader, next: Reader,
                       delivered: seq<Delivery>, count: nat)
    requires Once(sockets, down, reader, delivered, count) && r in down
    requires next == reader || (next.Delivering? && next.reply == r)
    ensures Once(sockets, down - {r}, next, delivered, count)
  {
  }

  lemma ReadReplyKeeps(w: World, r: nat, now: Instant)
    requires WorldOnce(w) && Enabled(w, Action.ReadReply(r, now))
    ensures WorldOnce(StepReadReply(w, r, now))
  {
    var t := StepReadReply(w, r, now);
    assert t.serve == w.serve && t.delivered == w.delivered && t.replies == w.replies && t.net.down == w.net.down - {r};
    TakenDownKeeps(w.serve.sockets, w.net.down, r, w.access.reader, t.access.reader, w.delivered, |w.replies|);
  }

  lemma DeliverKeeps(w: World, sent: bool)
    requires WorldOnce(w) && w.access.reader.Delivering?
    ensures WorldOnce(StepDeliver(w, sent))
  {
  }

  lemma StepKeepsOnce(w: World, a: Action, cfg: Config)
    requires WorldOnce(w) && Enabled(w, a)
    ensures WorldOnce(Apply(w, a, cfg))
  {
    if LeavesServe(a) {
      AccessLeaves(w, a, cfg);
      LeavesKeeps(w, Apply(w, a, cfg));
    } else if OfLoop(a) {
      LoopLeaves(w, a, cfg);
      LeavesKeeps(w, Apply(w, a, cfg));
    } else if !TouchesReplies(a) {
      ServeLeaves(w, a, cfg);
      LeavesKeeps(w, Apply(w, a, cfg));
    } else {
      ReplyStepKeeps(w, a, cfg);
    }
  }

  lemma ReplyStepKeeps(w: World, a: Action, cfg: Config)
    requires WorldOnce(w) && Enabled(w, a) && TouchesReplies(a)
    ensures WorldOnce(Apply(w, a, cfg))
  {
    match a {
      case RelayReads(s, payload) => RelayReadsKeeps(w, s, payload);
      case RelayForwards(s, now, maxDatagram, sent) => RelayForwardsKeeps(w, s, now, maxDatagram, sent);
      case LoseDown(r) =>
        TakenDownKeeps(w.serve.sockets, w.net.down, r, w.access.reader, w.access.reader, w.delivered, |w.replies|);
      case ReadReply(r, now) => ReadReplyKeeps(w, r, now);
      case DeliverReply(sent) => DeliverKeeps(w, sent);
    }
  }

  lemma {:induction false} RunKeepsOnce(actions: seq<Action>, cfg: Config)
    requires After(actions, cfg).Some?
    ensures WorldOnce(After(actions, cfg).value)
  {
    if actions != [] {
      var before := actions[..|actions| - 1];
      RunKeepsOnce(before, cfg);
      StepKeepsOnce(After(before, cfg).value, actions[|actions| - 1], cfg);
    }
  }

  /** No reply is delivered twice, in any run. */
  lemma {:induction false} RepliesDeliveredOnce(actions: seq<Action>, cfg: Config, i: nat, j: nat)
    requires After(actions, cfg).Some?
    requires i < |After(actions, cfg).value.delivered| && j < |After(actions, cfg).value.delivered|
    requires After(actions, cfg).value.delivered[i].reply == After(actions, cfg).value.delivered[j].reply
    ensures i == j
  {
    RunKeepsOnce(actions, cfg);
  }
}
