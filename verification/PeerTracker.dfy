/** Serve's registry of connected peers: one reference count per peer and service,
    raised when a connection is tracked and lowered when its guard drops. A peer is
    named by the text of its endpoint id. */
module PeerTracker {
  import opened Sorting

  type Registry = map<string, map<string, nat>>

  /** A live guard. */
  type Guard = (string, string)

  function CountOf(r: Registry, peer: string, service: string): nat {
    if peer in r && service in r[peer] then r[peer][service] else 0
  }

  /** The registry counts the live guards: no count is zero, no peer is empty. */
  ghost predicate Counts(r: Registry, guards: multiset<Guard>) {
    && (forall p :: p in r ==> r[p] != map[])
    && (forall p, s :: p in r && s in r[p] ==> r[p][s] > 0)
    && (forall p, s :: CountOf(r, p, s) == guards[(p, s)])
  }

  function Tracked(r: Registry, peer: string, service: string): Registry {
    var services := if peer in r then r[peer] else map[];
    r[peer := services[service := if service in services then services[service] + 1 else 1]]
  }

  function Untracked(r: Registry, peer: string, service: string): Registry
    requires peer in r && service in r[peer] ==> r[peer][service] > 0
  {
    if peer !in r || service !in r[peer] then r
    else if r[peer][service] > 1 then r[peer := r[peer][service := r[peer][service] - 1]]
    else if r[peer] - {service} == map[] then r - {peer}
    else r[peer := r[peer] - {service}]
  }

  lemma TrackCounts(r: Registry, guards: multiset<Guard>, peer: string, service: string)
    requires Counts(r, guards)
    ensures Counts(Tracked(r, peer, service), guards + multiset{(peer, service)})
  {
    var t, more := Tracked(r, peer, service), guards + multiset{(peer, service)};
    assert service in t[peer];
    forall p, s ensures CountOf(t, p, s) == more[(p, s)] {
      assert CountOf(t, p, s) == CountOf(r, p, s) + if (p, s) == (peer, service) then 1 else 0;
    }
  }

  /** Dropping a guard that does not exist changes nothing; the count of a live one
      is positive, so the decrement never underflows. */
  lemma UntrackCounts(r: Registry, guards: multiset<Guard>, peer: string, service: string)
    requires Counts(r, guards)
    ensures Counts(Untracked(r, peer, service), guards - multiset{(peer, service)})
  {
    var t, fewer := Untracked(r, peer, service), guards - multiset{(peer, service)};
    forall p, s ensures CountOf(t, p, s) == fewer[(p, s)] {
      UntrackedCount(r, peer, service, p, s);
    }
    UntrackedShape(r, peer, service);
  }

  lemma UntrackedCount(r: Registry, peer: string, service: string, p: string, s: string)
    requires CountOf(r, peer, service) > 0 || peer !in r || service !in r[peer]
    ensures
      var before := CountOf(r, p, s);
      CountOf(Untracked(r, peer, service), p, s) == if (p, s) == (peer, service) && before > 0 then before - 1 else before
  {
    if peer in r && service in r[peer] && p == peer && s != service && s in r[p] {
      assert s in r[peer] - {service};
    }
  }

  lemma UntrackedShape(r: Registry, peer: string, service: string)
    requires forall p :: p in r ==> r[p] != map[]
    requires forall p, s :: p in r && s in r[p] ==> r[p][s] > 0
    ensures
      var t := Untracked(r, peer, service);
      && (forall p :: p in t ==> t[p] != map[])
      && (forall p, s :: p in t && s in t[p] ==> t[p][s] > 0)
  {
    var t := Untracked(r, peer, service);
    forall p | p in t ensures t[p] != map[] && forall s :: s in t[p] ==> t[p][s] > 0 {
      if p == peer && service in r[peer] && r[peer][service] > 1 {
        assert service in t[p];
      }
    }
  }

  /** The live guards determine the registry. */
  lemma CountsDetermine(a: Registry, b: Registry, guards: multiset<Guard>)
    requires Counts(a, guards) && Counts(b, guards)
    ensures a == b
  {
    PeersWithin(a, b, guards);
    PeersWithin(b, a, guards);
    assert a.Keys == b.Keys;
    forall p | p in a ensures a[p] == b[p] {
      forall s ensures s in a[p] <==> s in b[p] {
        assert CountOf(a, p, s) == CountOf(b, p, s);
      }
      forall s | s in a[p] ensures a[p][s] == b[p][s] {
        assert CountOf(a, p, s) == CountOf(b, p, s);
      }
    }
  }

  lemma PeersWithin(a: Registry, b: Registry, guards: multiset<Guard>)
    requires Counts(a, guards) && Counts(b, guards)
    ensures a.Keys <= b.Keys
  {
    forall p | p in a ensures p in b {
      assert a[p].Keys != {} by {
        assert a[p] != map[];
      }
      var s :| s in a[p];
      assert CountOf(a, p, s) == CountOf(b, p, s);
    }
  }

  /** A connection that is tracked and gone leaves no trace. */
  lemma UntrackUndoesTrack(r: Registry, guards: multiset<Guard>, peer: string, service: string)
    requires Counts(r, guards)
    ensures Tracked(r, peer, service)[peer][service] > 0
    ensures Untracked(Tracked(r, peer, service), peer, service) == r
  {
    TrackCounts(r, guards, peer, service);
    UntrackCounts(Tracked(r, peer, service), guards + multiset{(peer, service)}, peer, service);
    assert guards + multiset{(peer, service)} - multiset{(peer, service)} == guards;
    CountsDetermine(Untracked(Tracked(r, peer, service), peer, service), r, guards);
  }

  // --------------------------------------------------------------- snapshots

  datatype Row = Row(peer: string, services: seq<string>)

  /** Each peer with a live guard once, in order, with its services in order. */
  ghost predicate SnapshotOf(rows: seq<Row>, guards: multiset<Guard>) {
    && (forall i, j :: 0 <= i < j < |rows| ==> TextLe(rows[i].peer, rows[j].peer) && rows[i].peer != rows[j].peer)
    && (forall i :: 0 <= i < |rows| ==> StrictlySorted(rows[i].services, TextLe) && rows[i].services != [])
    && (forall i, s :: 0 <= i < |rows| ==> (s in rows[i].services <==> (rows[i].peer, s) in guards))
    && (forall g :: g in guards ==> exists i :: 0 <= i < |rows| && rows[i].peer == g.0)
  }

  function Peers(rows: seq<Row>): seq<string> {
    seq(|rows|, i requires 0 <= i < |rows| => rows[i].peer)
  }

  /** So a snapshot depends on the live guards only, never on map iteration order. */
  lemma SnapshotIsDetermined(a: seq<Row>, b: seq<Row>, guards: multiset<Guard>)
    requires SnapshotOf(a, guards) && SnapshotOf(b, guards)
    ensures a == b
  {
    TextLeIsTotalOrder();
    forall p ensures p in Peers(a) <==> p in Peers(b) {
      PeersAreLive(a, guards, p);
      PeersAreLive(b, guards, p);
    }
    StrictIsUnique(Peers(a), Peers(b), TextLe);
    assert |a| == |Peers(a)| && |b| == |Peers(b)|;
    forall i | 0 <= i < |a| ensures a[i] == b[i] {
      assert Peers(a)[i] == Peers(b)[i];
      StrictIsUnique(a[i].services, b[i].services, TextLe);
    }
  }

  lemma PeersAreLive(rows: seq<Row>, guards: multiset<Guard>, p: string)
    requires SnapshotOf(rows, guards)
    ensures p in Peers(rows) <==> exists s :: (p, s) in guards
  {
    if p in Peers(rows) {
      var i :| 0 <= i < |Peers(rows)| && Peers(rows)[i] == p;
      assert rows[i].services[0] in rows[i].services;
      assert (p, rows[i].services[0]) in guards;
    }
    if s :| (p, s) in guards {
      var g := (p, s);
      var i :| 0 <= i < |rows| && rows[i].peer == g.0;
      assert Peers(rows)[i] == p;
    }
  }

  /** Keys in the map's own, arbitrary order. */
  method Listed(keys: set<string>) returns (names: seq<string>)
    ensures multiset(names) == multiset(keys)
  {
    names := [];
    var rest := keys;
    while rest != {}
      invariant multiset(names) + multiset(rest) == multiset(keys)
      decreases |rest|
    {
      var k :| k in rest;
      names, rest := names + [k], rest - {k};
    }
  }

  /** Distinct keys sort into a strict order. */
  lemma SortedKeys(keys: set<string>, names: seq<string>)
    requires multiset(names) == multiset(keys)
    ensures StrictlySorted(Sort(names, TextLe), TextLe)
    ensures forall s :: s in Sort(names, TextLe) <==> s in keys
    ensures |names| == |keys|
  {
    TextLeIsTotalOrder();
    SortSorts(names, TextLe);
    var sorted := Sort(names, TextLe);
    forall i, j | 0 <= i < j < |sorted| ensures sorted[i] != sorted[j] {
      if sorted[i] == sorted[j] {
        CountedTwice(sorted, i, j);
        assert false;
      }
    }
    forall s ensures s in sorted <==> s in keys {
      assert s in sorted <==> s in multiset(sorted);
    }
    assert |multiset(names)| == |names| && |multiset(keys)| == |keys|;
  }

  lemma CountedTwice(s: seq<string>, i: nat, j: nat)
    requires i < j < |s| && s[i] == s[j]
    ensures multiset(s)[s[i]] >= 2
  {
    assert s == s[..j] + s[j..] && s[i] in s[..j] && s[j..] == [s[j]] + s[j + 1..];
  }

  ghost predicate RowFor(row: Row, peer: string, peers: Registry) {
    && peer in peers
    && row.peer == peer
    && StrictlySorted(row.services, TextLe)
    && forall s :: s in row.services <==> s in peers[peer]
  }

  class Tracker {
    var peers: Registry
    ghost var guards: multiset<Guard>

    ghost predicate Valid()
      reads this
    {
      Counts(peers, guards)
    }

    constructor ()
      ensures Valid() && guards == multiset{} && peers == map[]
    {
      peers, guards := map[], multiset{};
    }

    method Track(peer: string, service: string)
      requires Valid()
      modifies this
      ensures Valid() && guards == old(guards) + multiset{(peer, service)}
      ensures peers == Tracked(old(peers), peer, service)
    {
      TrackCounts(peers, guards, peer, service);
      var services: map<string, nat> := if peer in peers then peers[peer] else map[];
      if service in services {
        services := services[service := services[service] + 1];
      } else {
        services := services[service := 1];
      }
      peers := peers[peer := services];
      guards := guards + multiset{(peer, service)};
      assert peers == Tracked(old(peers), peer, service);
    }

    /** What dropping the guard does. */
    method Untrack(peer: string, service: string)
      requires Valid()
      modifies this
      ensures Valid() && guards == old(guards) - multiset{(peer, service)}
      ensures peers == Untracked(old(peers), peer, service)
    {
      UntrackCounts(peers, guards, peer, service);
      guards := guards - multiset{(peer, service)};
      if peer !in peers || service !in peers[peer] {
        return;
      }
      var count: nat := peers[peer][service] - 1;
      if count == 0 {
        var services := peers[peer] - {service};
        if services == map[] {
          peers := peers - {peer};
        } else {
          peers := peers[peer := services];
        }
      } else {
        var services: map<string, nat> := peers[peer];
        services := services[service := count];
        peers := peers[peer := services];
      }
    }

    method Snapshot() returns (rows: seq<Row>)
      requires Valid()
      ensures SnapshotOf(rows, guards)
    {
      ghost var order;
      rows, order := RowsOf(peers);
      RowsAreASnapshot(rows, order, peers, guards);
    }
  }

  /** Peers are distinct, so ordering their ids orders the rows. */
  method RowsOf(peers: Registry) returns (rows: seq<Row>, ghost order: seq<string>)
    ensures StrictlySorted(order, TextLe) && forall p :: p in order <==> p in peers
    ensures |rows| == |order| && forall j :: 0 <= j < |rows| ==> RowFor(rows[j], order[j], peers)
  {
    var ids := Listed(peers.Keys);
    SortedKeys(peers.Keys, ids);
    var sorted := Sort(ids, TextLe);
    order := sorted;
    rows := [];
    for i := 0 to |sorted|
      invariant |rows| == i
      invariant forall j :: 0 <= j < i ==> RowFor(rows[j], order[j], peers)
    {
      assert sorted[i] in peers;
      var row := RowOf(sorted[i], peers);
      rows := rows + [row];
    }
  }

  method RowOf(peer: string, peers: Registry) returns (row: Row)
    requires peer in peers
    ensures RowFor(row, peer, peers)
  {
    var names := Listed(peers[peer].Keys);
    SortedKeys(peers[peer].Keys, names);
    row := Row(peer, Sort(names, TextLe));
  }

  lemma RowsAreASnapshot(rows: seq<Row>, order: seq<string>, peers: Registry, guards: multiset<Guard>)
    requires Counts(peers, guards)
    requires StrictlySorted(order, TextLe) && forall p :: p in order <==> p in peers
    requires |rows| == |order| && forall j :: 0 <= j < |rows| ==> RowFor(rows[j], order[j], peers)
    ensures SnapshotOf(rows, guards)
  {
    forall j | 0 <= j < |rows| ensures rows[j].services != [] && StrictlySorted(rows[j].services, TextLe) {
      assert order[j] in peers && RowFor(rows[j], order[j], peers);
      assert peers[order[j]].Keys != {} by {
        assert peers[order[j]] != map[];
      }
    }
    forall j, s | 0 <= j < |rows| ensures s in rows[j].services <==> (rows[j].peer, s) in guards {
      assert order[j] in peers && RowFor(rows[j], order[j], peers);
      assert CountOf(peers, order[j], s) == guards[(order[j], s)];
    }
    forall g | g in guards ensures exists i :: 0 <= i < |rows| && rows[i].peer == g.0 {
      assert CountOf(peers, g.0, g.1) > 0;
      assert g.0 in order;
      var i :| 0 <= i < |order| && order[i] == g.0;
      assert RowFor(rows[i], order[i], peers);
    }
    forall i, j | 0 <= i < j < |rows| ensures TextLe(rows[i].peer, rows[j].peer) && rows[i].peer != rows[j].peer {
      assert RowFor(rows[i], order[i], peers) && RowFor(rows[j], order[j], peers);
    }
  }
}
