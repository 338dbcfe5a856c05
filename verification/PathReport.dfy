/** The connection paths of a peer as they appear in the status file. */
module PathReport {
  import opened Common
  import opened Sorting

  datatype Kind = Relay | Direct

  datatype Row = Row(kind: Kind, addr: string, active: bool)

  /** What the endpoint knows of a remote address, already rendered as text. */
  datatype TransportAddr = RelayUrl(url: string) | Ip(addr: string) | Custom

  datatype Entry = Entry(addr: TransportAddr, active: bool)

  datatype Report = Report(transports: seq<Row>, localAddrs: seq<string>)

  function Classify(addr: TransportAddr): Option<(Kind, string)> {
    match addr
    case RelayUrl(url) => Some((Relay, url))
    case Ip(addr) => Some((Direct, addr))
    case Custom => None
  }

  /** The reportable rows, in the endpoint's order. */
  function Rows(entries: seq<Entry>): seq<Row> {
    if entries == [] then []
    else
      match Classify(entries[0].addr)
      case None => Rows(entries[1..])
      case Some(c) => [Row(c.0, c.1, entries[0].active)] + Rows(entries[1..])
  }

  /** Active before inactive, then relay before direct, then by address. */
  predicate RowLe(a: Row, b: Row) {
    if a.active != b.active then a.active
    else if a.kind != b.kind then a.kind == Relay
    else TextLe(a.addr, b.addr)
  }

  function PeerPathReport(entries: seq<Entry>, sockets: seq<string>): Report {
    Report(Canonical(Rows(entries), RowLe), Sort(sockets, TextLe))
  }

  lemma RowLeIsTotalOrder()
    ensures TotalOrder(RowLe)
  {
    TextLeIsTotalOrder();
    forall a, b | RowLe(a, b) && RowLe(b, a) ensures a == b {
      assert TextLe(a.addr, b.addr) && TextLe(b.addr, a.addr);
    }
    forall a, b, c | RowLe(a, b) && RowLe(b, c) ensures RowLe(a, c) {
      if a.active == b.active == c.active && a.kind == b.kind == c.kind {
        TextLeTransitive(a.addr, b.addr, c.addr);
      }
    }
    forall a, b ensures RowLe(a, b) || RowLe(b, a) {
      TextLeTotal(a.addr, b.addr);
    }
  }

  /** The address a row was made from. */
  function Source(r: Row): Entry {
    Entry(if r.kind == Relay then RelayUrl(r.addr) else Ip(r.addr), r.active)
  }

  /** Every relay and direct address becomes a row; a custom transport never does. */
  lemma {:induction false} RowsAreTheEntries(entries: seq<Entry>, r: Row)
    ensures r in Rows(entries) <==> Source(r) in entries
  {
    if entries != [] {
      RowsAreTheEntries(entries[1..], r);
      assert entries == [entries[0]] + entries[1..];
    }
  }

  /** A report lists each row once, active first, relay before direct, by address. */
  lemma ReportIsStrictlyOrdered(entries: seq<Entry>, sockets: seq<string>, r: Row)
    ensures StrictlySorted(PeerPathReport(entries, sockets).transports, RowLe)
    ensures Sorted(PeerPathReport(entries, sockets).localAddrs, TextLe)
    ensures r in PeerPathReport(entries, sockets).transports <==> Source(r) in entries
  {
    RowLeIsTotalOrder();
    TextLeIsTotalOrder();
    CanonicalIsStrict(Rows(entries), RowLe);
    SortSorts(sockets, TextLe);
    RowsAreTheEntries(entries, r);
  }

  /** Two snapshots give one report exactly when they have the same reportable
      addresses with the same usage, and the same local sockets counted with
      multiplicity. So neither order nor duplicate paths rewrite the status file,
      and any real change does. */
  lemma ReportsAgreeIff(e1: seq<Entry>, s1: seq<string>, e2: seq<Entry>, s2: seq<string>)
    ensures PeerPathReport(e1, s1) == PeerPathReport(e2, s2) <==>
            (forall r :: Source(r) in e1 <==> Source(r) in e2) && multiset(s1) == multiset(s2)
  {
    RowLeIsTotalOrder();
    TextLeIsTotalOrder();
    CanonicalAgreesIff(Rows(e1), Rows(e2), RowLe);
    SortsAgreeIff(s1, s2, TextLe);
    forall r ensures (r in Rows(e1) <==> Source(r) in e1) && (r in Rows(e2) <==> Source(r) in e2) {
      RowsAreTheEntries(e1, r);
      RowsAreTheEntries(e2, r);
    }
  }

  /** The local addresses are not collapsed: a repeated socket shows. */
  lemma DuplicateSocketsShow(socket: string)
    ensures PeerPathReport([], [socket, socket]) != PeerPathReport([], [socket])
  {
    assert multiset([socket, socket])[socket] == 2 && multiset([socket])[socket] == 1;
    ReportsAgreeIff([], [socket, socket], [], [socket]);
  }
}
