/**
 Configuring the routes of a tunnel and undoing it (windev/routing.go, over the row operations of
 winipcfg/luid.go). The operating system's table is a map from row keys to metrics; creating a row
 fails if the key exists, and any operation may fail for reasons of its own.
 */
module Routing {
  import opened Wrappers
  import opened Forwarding

  type Table = map<RouteKey, nat>

  datatype Row = Row(key: RouteKey, metric: nat)

  /** AllowedIPs as netip.ParsePrefix sees them. */
  datatype AllowedIP = Malformed | V6 | V4(prefix: Prefix)

  datatype Peer = Peer(allowedIPs: seq<AllowedIP>)

  /** Setting the interface address may replace the tunnel's own rows, here by onLink. */
  datatype Addressing = NoAddress | SetAddress(ok: bool, onLink: Table)

  /** endpoint is the resolved IPv4 address of the first peer endpoint that has one. */
  datatype Config = Config(addressing: Addressing, endpoint: Option<Address>, peers: seq<Peer>)

  // ---------------------------------------------------------------- tables

  function OffTunnel(rows: Table, tun: nat): Table {
    map k | k in rows && k.iface != tun :: rows[k]
  }

  /** The table with rows of metric 0 added where there were none. */
  function Added(rows: Table, keys: set<RouteKey>): Table {
    (map k | k in keys :: 0) + rows
  }

  function OneAllowed(a: AllowedIP): set<Prefix> {
    if a.V4? then {a.prefix} else {}
  }

  /** The IPv4 prefixes among the first n entries. */
  function AllowedPrefixes(allowed: seq<AllowedIP>, n: nat): set<Prefix>
    requires n <= |allowed|
  {
    if n == 0 then {} else AllowedPrefixes(allowed, n - 1) + OneAllowed(allowed[n - 1])
  }

  /** The IPv4 AllowedIPs of the first n peers. */
  function PeerPrefixes(peers: seq<Peer>, n: nat): set<Prefix>
    requires n <= |peers|
  {
    if n == 0 then {}
    else PeerPrefixes(peers, n - 1) + AllowedPrefixes(peers[n - 1].allowedIPs, |peers[n - 1].allowedIPs|)
  }

  /** Every IPv4 entry counts, wherever it stands, and nothing else does. */
  lemma {:induction false} AllowedPrefixesAre(allowed: seq<AllowedIP>, n: nat, p: Prefix)
    requires n <= |allowed|
    ensures p in AllowedPrefixes(allowed, n) <==> exists j :: 0 <= j < n && allowed[j] == V4(p)
  {
    if n > 0 {
      AllowedPrefixesAre(allowed, n - 1, p);
    }
  }

  lemma {:induction false} PeerPrefixesAre(peers: seq<Peer>, n: nat, p: Prefix)
    requires n <= |peers|
    ensures p in PeerPrefixes(peers, n)
       <==> exists i, j :: 0 <= i < n && 0 <= j < |peers[i].allowedIPs| && peers[i].allowedIPs[j] == V4(p)
  {
    if n > 0 {
      var last := peers[n - 1].allowedIPs;
      PeerPrefixesAre(peers, n - 1, p);
      AllowedPrefixesAre(last, |last|, p);
      if j :| 0 <= j < |last| && last[j] == V4(p) {
        assert peers[n - 1].allowedIPs[j] == V4(p);
      }
    }
  }

  /** A listing of the table, in whatever order the system gives it. */
  ghost predicate IsListing(list: seq<Row>, rows: Table) {
    && (forall i | 0 <= i < |list| :: list[i].key in rows && rows[list[i].key] == list[i].metric)
    && (forall k | k in rows :: IsListed(list, k))
    && NoRowTwice(list)
  }

  ghost predicate IsListed(list: seq<Row>, k: RouteKey) {
    exists i :: 0 <= i < |list| && list[i].key == k
  }

  lemma ListedAfter(list: seq<Row>, row: Row, keys: set<RouteKey>)
    requires forall k | k in keys :: IsListed(list, k)
    ensures forall k | k in keys + {row.key} :: IsListed(list + [row], k)
  {
    assert (list + [row])[|list|].key == row.key;
    forall k | k in keys ensures IsListed(list + [row], k) {
      var i :| 0 <= i < |list| && list[i].key == k;
      assert (list + [row])[i].key == k;
    }
  }

  ghost predicate NoRowTwice(list: seq<Row>) {
    forall i, j | 0 <= i < j < |list| :: list[i].key != list[j].key
  }

  predicate IsDefault(row: Row, exclude: nat) {
    row.key.prefix.bits == 0 && row.key.iface != exclude
  }

  /** Among the first n rows, row i is the first of the off-tunnel default routes of least metric. */
  ghost predicate IsFirstLeastOf(list: seq<Row>, n: nat, exclude: nat, i: nat)
    requires n <= |list|
  {
    && i < n && IsDefault(list[i], exclude)
    && (forall j | 0 <= j < n && IsDefault(list[j], exclude) :: list[i].metric <= list[j].metric)
    && (forall j | 0 <= j < i && IsDefault(list[j], exclude) :: list[i].metric < list[j].metric)
  }

  ghost predicate IsFirstLeast(list: seq<Row>, exclude: nat, i: nat) {
    IsFirstLeastOf(list, |list|, exclude, i)
  }

  /** k is an off-tunnel default route, and none has a smaller metric. */
  ghost predicate IsLeastDefault(rows: Table, exclude: nat, k: RouteKey) {
    && k in rows && k.prefix.bits == 0 && k.iface != exclude
    && forall j | j in rows && j.prefix.bits == 0 && j.iface != exclude :: rows[k] <= rows[j]
  }

  /** route leaves by the interface and next hop of such a default route. */
  ghost predicate ByLeastDefault(rows: Table, exclude: nat, route: RouteKey) {
    exists k: RouteKey :: IsLeastDefault(rows, exclude, k) && k.iface == route.iface && k.hop == route.hop
  }

  ghost predicate NoDefault(rows: Table, exclude: nat) {
    forall k | k in rows :: k.prefix.bits != 0 || k.iface == exclude
  }

  lemma NoneListed(list: seq<Row>, rows: Table, exclude: nat)
    requires IsListing(list, rows) && forall j | 0 <= j < |list| :: !IsDefault(list[j], exclude)
    ensures NoDefault(rows, exclude)
  {
    forall k | k in rows ensures k.prefix.bits != 0 || k.iface == exclude {
      var at :| 0 <= at < |list| && list[at].key == k;
      assert !IsDefault(list[at], exclude);
    }
  }

  lemma FirstLeastIsLeast(list: seq<Row>, rows: Table, exclude: nat, i: nat)
    requires IsListing(list, rows) && IsFirstLeast(list, exclude, i)
    ensures IsLeastDefault(rows, exclude, list[i].key)
  {
    forall j | j in rows && j.prefix.bits == 0 && j.iface != exclude ensures rows[list[i].key] <= rows[j] {
      var at :| 0 <= at < |list| && list[at].key == j;
      assert IsDefault(list[at], exclude);
    }
  }

  // ---------------------------------------------------------------- the operating system's table

  /** The record of refusals says on what occasions the system would not do as it was asked. */
  class RouteTable {
    var rows: Table
    ghost var barred: set<RouteKey>     // the keys whose creation it has refused
    ghost var kept: set<RouteKey>       // the keys whose deletion it has refused
    ghost var silent: bool              // it has refused to list the table

    constructor (rows: Table)
      ensures this.rows == rows && barred == {} && kept == {} && !silent
    {
      this.rows, barred, kept, silent := rows, {}, {}, false;
    }

    method Create(k: RouteKey, metric: nat) returns (ok: bool)
      modifies this`rows, this`barred
      ensures rows == if ok then old(rows)[k := metric] else old(rows)
      ensures ok ==> k !in old(rows)
      ensures !ok ==> k in old(rows) || k in barred
      ensures old(barred) <= barred <= old(barred) + {k}
    {
      var refused: bool := *;
      if k in rows {
        return false;
      }
      if refused {
        barred := barred + {k};
        return false;
      }
      rows := rows[k := metric];
      return true;
    }

    method Delete(k: RouteKey) returns (ok: bool)
      modifies this`rows, this`kept
      ensures rows == if ok then old(rows) - {k} else old(rows)
      ensures ok ==> k in old(rows)
      ensures !ok ==> k !in old(rows) || k in kept
      ensures old(kept) <= kept <= old(kept) + {k}
    {
      var refused: bool := *;
      if k !in rows {
        return false;
      }
      if refused {
        kept := kept + {k};
        return false;
      }
      rows := rows - {k};
      return true;
    }

    method List() returns (list: Option<seq<Row>>)
      modifies this`silent
      ensures list.Some? ==> IsListing(list.value, rows)
      ensures silent == (old(silent) || list.None?)
    {
      var refused: bool := *;
      if refused {
        silent := true;
        return None;
      }
      var found: seq<Row> := [];
      var todo := rows.Keys;
      while todo != {}
        invariant todo <= rows.Keys && silent == old(silent)
        invariant forall i | 0 <= i < |found| :: found[i].key in rows && rows[found[i].key] == found[i].metric
        invariant forall i | 0 <= i < |found| :: found[i].key !in todo
        invariant NoRowTwice(found)
        invariant forall k | k in rows && k !in todo :: IsListed(found, k)
        decreases todo
      {
        var k :| k in todo;
        ListedAfter(found, Row(k, rows[k]), rows.Keys - todo);
        found := found + [Row(k, rows[k])];
        todo := todo - {k};
      }
      return Some(found);
    }
  }

  // ---------------------------------------------------------------- row operations of an interface

  method AddRoute(os: RouteTable, luid: nat, destination: Prefix, hop: Address, metric: nat) returns (ok: bool)
    modifies os`rows, os`barred
    ensures var k := RouteKey(luid, destination, hop);
      && os.rows == (if ok then old(os.rows)[k := metric] else old(os.rows))
      && (ok ==> k !in old(os.rows)) && (!ok ==> k in old(os.rows) || k in os.barred)
      && old(os.barred) <= os.barred <= old(os.barred) + {k}
  {
    ok := os.Create(RouteKey(luid, destination, hop), metric);
  }

  method DeleteRoute(os: RouteTable, luid: nat, destination: Prefix, hop: Address) returns (ok: bool)
    modifies os`rows, os`kept
    ensures var k := RouteKey(luid, destination, hop);
      && os.rows == (if ok then old(os.rows) - {k} else old(os.rows))
      && (ok ==> k in old(os.rows)) && (!ok ==> k !in old(os.rows) || k in os.kept)
      && old(os.kept) <= os.kept <= old(os.kept) + {k}
  {
    if RouteKey(luid, destination, hop) !in os.rows {
      return false;
    }
    ok := os.Delete(RouteKey(luid, destination, hop));
  }

  lemma FlushedUpTo(before: Table, after: Table, luid: nat, t: seq<Row>, spared: set<RouteKey>)
    requires IsListing(t, before)
    requires forall k | k in after :: k in before && after[k] == before[k]
    requires forall k | k in before && k.iface != luid :: k in after
    requires forall j | 0 <= j < |t| && t[j].key.iface == luid :: t[j].key !in after || t[j].key in spared
    ensures OffTunnel(after, luid) == OffTunnel(before, luid)
    ensures forall k | k in after && k.iface == luid :: k in spared
  {
    forall k | k in after && k.iface == luid ensures k in spared {
      var j :| 0 <= j < |t| && t[j].key == k;
    }
  }

  /** Deletes the interface's rows, going on after failures: what is left of them is what the system
      refused to delete, unless it refused to list the table; and there is an error just if something is
      left or could not be listed. */
  method FlushRoutes(os: RouteTable, luid: nat) returns (ok: bool)
    modifies os`rows, os`kept, os`silent
    ensures OffTunnel(os.rows, luid) == OffTunnel(old(os.rows), luid)
    ensures forall k | k in os.rows :: k in old(os.rows) && os.rows[k] == old(os.rows)[k]
    ensures os.silent || forall k | k in os.rows && k.iface == luid :: k in os.kept
    ensures ok ==> os.rows == OffTunnel(old(os.rows), luid)
    ensures !ok ==> os.silent || exists k :: k in os.rows && k.iface == luid
    ensures old(os.kept) <= os.kept && (old(os.silent) ==> os.silent)
  {
    var list := os.List();
    if list.None? {
      return false;
    }
    ok := true;
    var t := list.value;
    ghost var before, left: set<RouteKey> := os.rows, {};
    for i := 0 to |t|
      invariant old(os.kept) <= os.kept && left <= os.kept && os.silent == old(os.silent)
      invariant ok <==> left == {}
      invariant forall k | k in left :: k in os.rows && k.iface == luid
      invariant forall k | k in os.rows :: k in before && os.rows[k] == before[k]
      invariant forall k | k in before && k.iface != luid :: k in os.rows
      invariant forall j | i <= j < |t| :: t[j].key in os.rows && t[j].key !in left
      invariant forall j | 0 <= j < i && t[j].key.iface == luid :: t[j].key !in os.rows || t[j].key in left
    {
      if t[i].key.iface == luid {
        var deleted := os.Delete(t[i].key);
        left := if deleted then left else left + {t[i].key};
        ok := ok && deleted;
      }
    }
    FlushedUpTo(before, os.rows, luid, t, left);
  }

  // ---------------------------------------------------------------- configuring a tunnel

  /** The first off-tunnel IPv4 default route of least metric in the listing the system gives; none only if
      there is none, or no listing. */
  method DefaultRoute(os: RouteTable, exclude: nat) returns (best: Option<RouteKey>, ghost list: seq<Row>)
    modifies os`silent
    ensures best.Some? ==>
      IsListing(list, os.rows) && exists i: nat :: IsFirstLeast(list, exclude, i) && list[i].key == best.value
    ensures best.Some? ==> IsLeastDefault(os.rows, exclude, best.value)
    ensures best.None? ==> os.silent || NoDefault(os.rows, exclude)
    ensures old(os.silent) ==> os.silent
  {
    var rows := os.List();
    if rows.None? {
      return None, [];
    }
    list := rows.value;
    best := None;
    var metric := 0;
    ghost var at := 0;
    for i := 0 to |rows.value|
      invariant best.None? ==> forall j | 0 <= j < i :: !IsDefault(list[j], exclude)
      invariant best.Some? ==> IsFirstLeastOf(list, i, exclude, at) && list[at] == Row(best.value, metric)
    {
      var r := rows.value[i];
      if !IsDefault(r, exclude) {
        continue;
      }
      if best.None? || r.metric < metric {
        best, metric, at := Some(r.key), r.metric, i;
      }
    }
    if best.Some? {
      FirstLeastIsLeast(list, os.rows, exclude, at);
    } else {
      NoneListed(list, os.rows, exclude);
    }
  }

  /** The outcome of adding the rows wanted: whatever was not refused is there, and nothing else has
      changed. */
  ghost predicate AddedExcept(before: Table, wanted: set<RouteKey>, refused: set<RouteKey>, after: Table) {
    && refused <= wanted && refused !! before.Keys
    && after == Added(before, wanted - refused)
  }

  lemma AddedNew(base: Table, wanted: set<RouteKey>, refused: set<RouteKey>, rows: Table, k: RouteKey)
    requires AddedExcept(base, wanted, refused, rows) && k !in rows
    ensures AddedExcept(base, wanted + {k}, refused - {k}, rows[k := 0])
  {
    assert wanted + {k} - (refused - {k}) == wanted - refused + {k};
  }

  lemma NotAdded(base: Table, wanted: set<RouteKey>, refused: set<RouteKey>, rows: Table, k: RouteKey)
    requires AddedExcept(base, wanted, refused, rows)
    ensures AddedExcept(base, wanted + {k}, if k in rows then refused else refused + {k}, rows)
  {
    if k in rows {
      assert Added(base, wanted + {k} - refused) == Added(base, wanted - refused);
    } else {
      assert wanted + {k} - (refused + {k}) == wanted - refused;
    }
  }

  method Add(
      os: RouteTable, tun: nat, p: Prefix, ghost base: Table, ghost wanted: set<RouteKey>, refused: set<RouteKey>)
    returns (refused': set<RouteKey>)
    requires AddedExcept(base, wanted, refused, os.rows) && refused <= os.barred
    modifies os`rows, os`barred
    ensures AddedExcept(base, wanted + {RouteKey(tun, p, ON_LINK)}, refused', os.rows) && refused' <= os.barred
    ensures old(os.barred) <= os.barred
  {
    var k := RouteKey(tun, p, ON_LINK);
    if k !in os.rows {
      AddedNew(base, wanted, refused, os.rows, k);
    }
    NotAdded(base, wanted, refused, os.rows, k);
    var ok := AddRoute(os, tun, p, ON_LINK, 0);
    refused' := if ok then refused - {k} else if k in os.rows then refused else refused + {k};
  }

  /** The rows for a set of AllowedIPs, as installed. */
  function SplitRows(tun: nat, prefixes: set<Prefix>): set<RouteKey> {
    TunnelRows(tun, Split(prefixes))
  }

  /** One AllowedIPs entry after those in sofar. */
  method AddAllowed(
      os: RouteTable, tun: nat, a: AllowedIP, ghost base: Table, ghost sofar: set<Prefix>, refused: set<RouteKey>)
    returns (refused': set<RouteKey>)
    requires AddedExcept(base, SplitRows(tun, sofar), refused, os.rows) && refused <= os.barred
    modifies os`rows, os`barred
    ensures AddedExcept(base, SplitRows(tun, sofar + OneAllowed(a)), refused', os.rows) && refused' <= os.barred
    ensures old(os.barred) <= os.barred
  {
    match a {
      case V4(p) =>
        assert sofar + OneAllowed(a) == sofar + {p};
        SplitExtends(tun, sofar, p);
        if p.bits == 0 {
          refused' := Add(os, tun, LOW_HALF, base, SplitRows(tun, sofar), refused);
          refused' := Add(os, tun, HIGH_HALF, base,
                          SplitRows(tun, sofar) + {RouteKey(tun, LOW_HALF, ON_LINK)}, refused');
        } else {
          refused' := Add(os, tun, p, base, SplitRows(tun, sofar), refused);
        }
      case _ =>
        refused' := refused;
        assert sofar + OneAllowed(a) == sofar;
    }
  }

  method AddPeer(
      os: RouteTable, tun: nat, allowed: seq<AllowedIP>, ghost base: Table, ghost earlier: set<Prefix>,
      refused: set<RouteKey>)
    returns (refused': set<RouteKey>)
    requires AddedExcept(base, SplitRows(tun, earlier), refused, os.rows) && refused <= os.barred
    modifies os`rows, os`barred
    ensures AddedExcept(base, SplitRows(tun, earlier + AllowedPrefixes(allowed, |allowed|)), refused', os.rows)
    ensures refused' <= os.barred && old(os.barred) <= os.barred
  {
    refused' := refused;
    ghost var sofar := earlier;
    assert earlier + AllowedPrefixes(allowed, 0) == earlier;
    for j := 0 to |allowed|
      invariant sofar == earlier + AllowedPrefixes(allowed, j)
      invariant AddedExcept(base, SplitRows(tun, sofar), refused', os.rows)
      invariant refused' <= os.barred && old(os.barred) <= os.barred
    {
      refused' := AddAllowed(os, tun, allowed[j], base, sofar, refused');
      sofar := sofar + OneAllowed(allowed[j]);
    }
  }

  /** Installs the AllowedIPs of all peers, split; refused collects the rows that the system refused to add
      and that are not there from elsewhere. */
  method AddTunnelRoutes(os: RouteTable, tun: nat, peers: seq<Peer>) returns (refused: set<RouteKey>)
    modifies os`rows, os`barred
    ensures AddedExcept(old(os.rows), SplitRows(tun, PeerPrefixes(peers, |peers|)), refused, os.rows)
    ensures refused <= os.barred && old(os.barred) <= os.barred
  {
    ghost var base := os.rows;
    refused := {};
    assert SplitRows(tun, {}) == {};
    for i := 0 to |peers|
      invariant AddedExcept(base, SplitRows(tun, PeerPrefixes(peers, i)), refused, os.rows)
      invariant refused <= os.barred && old(os.barred) <= os.barred
    {
      refused := AddPeer(os, tun, peers[i].allowedIPs, base, PeerPrefixes(peers, i), refused);
    }
  }

  lemma SplitExtends(tun: nat, prefixes: set<Prefix>, p: Prefix)
    ensures SplitRows(tun, prefixes + {p})
         == if p.bits == 0
            then SplitRows(tun, prefixes) + {RouteKey(tun, LOW_HALF, ON_LINK)} + {RouteKey(tun, HIGH_HALF, ON_LINK)}
            else SplitRows(tun, prefixes) + {RouteKey(tun, p, ON_LINK)}
  {
    if p.bits == 0 {
      assert p in prefixes + {p};
      assert Split(prefixes + {p}) == Split(prefixes) + {LOW_HALF, HIGH_HALF};
    } else {
      assert HasDefault(prefixes + {p}) <==> HasDefault(prefixes);
      assert Split(prefixes + {p}) == Split(prefixes) + {p};
    }
  }

  /** What the cleanup closure has captured; luid is 0 unless the exception route was added. */
  datatype Cleanup = Cleanup(tun: nat, luid: nat, hop: Address, prefix: Option<Prefix>)

  /** What ConfigureRouting did: the table after addressing, the exception it tried, whether that was
      added, the tunnel rows refused, and whether the table was listed when it was asked for. */
  datatype Report = Report(
    base: Table, exception: Option<RouteKey>, added: bool, refused: set<RouteKey>, listed: bool)

  /** The table after addressing, which touches only the tunnel's rows. */
  function Addressed(before: Table, tun: nat, addressing: Addressing): Table {
    match addressing
    case NoAddress => before
    case SetAddress(_, onLink) => OffTunnel(before, tun) + (onLink - (set k | k in onLink && k.iface != tun))
  }

  /** Setting the address, if there is one to set, succeeds. */
  predicate Addresses(addressing: Addressing) {
    addressing.SetAddress? ==> addressing.ok
  }

  /** The exception is a host route for the endpoint, with interface and next hop of the first least
      off-tunnel default route of some listing of the table; without an endpoint, a listing or such a default
      there is none. */
  ghost predicate ExceptionFor(
      base: Table, tun: nat, endpoint: Option<Address>, exception: Option<RouteKey>, listed: bool) {
    if exception.Some? then
      && endpoint.Some? && listed && exception.value.prefix == Prefix(endpoint.value, 32)
      && exists list: seq<Row> :: LeadsListing(list, base, tun, exception.value)
    else endpoint.None? || !listed || NoDefault(base, tun)
  }

  ghost predicate LeadsListing(list: seq<Row>, base: Table, tun: nat, exception: RouteKey) {
    && IsListing(list, base)
    && exists i: nat :: IsFirstLeast(list, tun, i)
                     && list[i].key.iface == exception.iface && list[i].key.hop == exception.hop
  }

  /** What the closure has captured of the exception. */
  ghost predicate Captured(c: Cleanup, tun: nat, exception: Option<RouteKey>, added: bool) {
    && c.tun == tun
    && (added ==> exception.Some? && c.luid == exception.value.iface && c.hop == exception.value.hop)
    && (!added ==> c.luid == 0)
    && c.prefix == if exception.Some? then Some(exception.value.prefix) else None
  }

  /** The whole effect of a successful ConfigureRouting. */
  ghost predicate Configures(before: Table, tun: nat, config: Config, after: Table, c: Cleanup, report: Report) {
    && Addresses(config.addressing) && report.base == Addressed(before, tun, config.addressing)
    && ExceptionFor(report.base, tun, config.endpoint, report.exception, report.listed)
    && (report.added ==> report.exception.Some? && report.exception.value !in report.base)
    && AddedExcept(Added(report.base, if report.added then {report.exception.value} else {}),
                   SplitRows(tun, PeerPrefixes(config.peers, |config.peers|)), report.refused, after)
    && Captured(c, tun, report.exception, report.added)
  }

  /** SetIPAddresses on the tunnel interface, as far as it shows in the table. */
  method SetAddresses(os: RouteTable, tun: nat, addressing: Addressing) returns (ok: bool)
    modifies os`rows
    ensures os.rows == Addressed(old(os.rows), tun, addressing)
    ensures OffTunnel(os.rows, tun) == OffTunnel(old(os.rows), tun)
    ensures ok <==> Addresses(addressing)
  {
    if addressing.NoAddress? {
      return true;
    }
    os.rows := Addressed(os.rows, tun, addressing);
    return addressing.ok;
  }

  /** The endpoint exception and what the cleanup closure captures of it. An exception that is called for is
      added, unless it is there or the system refuses. */
  method PinEndpoint(os: RouteTable, tun: nat, endpoint: Option<Address>)
    returns (c: Cleanup, exception: Option<RouteKey>, added: bool, ghost listed: bool)
    modifies os`rows, os`barred, os`silent
    ensures ExceptionFor(old(os.rows), tun, endpoint, exception, listed) && (!listed ==> os.silent)
    ensures added ==> exception.Some? && exception.value !in old(os.rows)
    ensures exception.Some? && !added ==> exception.value in old(os.rows) || exception.value in os.barred
    ensures os.rows == Added(old(os.rows), if added then {exception.value} else {})
    ensures Captured(c, tun, exception, added)
    ensures old(os.barred) <= os.barred && (old(os.silent) ==> os.silent)
  {
    c, exception, added, listed := Cleanup(tun, 0, 0, None), None, false, true;
    if endpoint.None? {
      return;
    }
    var best, list := DefaultRoute(os, tun);
    if best.Some? {
      var prefix := Prefix(endpoint.value, 32);
      var luid, hop := best.value.iface, best.value.hop;
      c := c.(prefix := Some(prefix));
      exception := Some(RouteKey(luid, prefix, hop));
      assert LeadsListing(list, os.rows, tun, exception.value);
      added := AddRoute(os, luid, prefix, hop, 0);
      if added {
        c := c.(luid := luid, hop := hop);
      }
    } else {
      listed := !os.silent;
    }
  }

  method ConfigureRouting(os: RouteTable, tun: nat, config: Config)
    returns (cleanup: Option<Cleanup>, ghost report: Report)
    modifies os`rows, os`barred, os`silent
    ensures cleanup.None? <==> !Addresses(config.addressing)
    ensures cleanup.None? ==> OffTunnel(os.rows, tun) == OffTunnel(old(os.rows), tun)
    ensures cleanup.Some? ==> Configures(old(os.rows), tun, config, os.rows, cleanup.value, report)
    ensures cleanup.Some? ==> Refusals(report, os.barred, os.silent)
  {
    var ok := SetAddresses(os, tun, config.addressing);
    ghost var base := os.rows;
    if !ok {
      return None, Report(base, None, false, {}, true);
    }
    var c, exception, added, listed := PinEndpoint(os, tun, config.endpoint);
    var refused := AddTunnelRoutes(os, tun, config.peers);
    return Some(c), Report(base, exception, added, refused, listed);
  }

  /** Whatever was not done was refused by the system, or was there. */
  ghost predicate Refusals(report: Report, barred: set<RouteKey>, silent: bool) {
    && (!report.listed ==> silent) && report.refused <= barred
    && (report.exception.Some? && !report.added ==>
          report.exception.value in report.base || report.exception.value in barred)
  }

  /** The cleanup closure; errors are ignored by its caller, clean says there were none. Whatever fails, it
      goes on: what is left of the tunnel's rows and of the exception is what the system refused to delete,
      unless it refused to list the table, and nothing else is touched. */
  method RunCleanup(os: RouteTable, c: Cleanup) returns (clean: bool)
    modifies os`rows, os`kept, os`silent
    ensures clean ==> os.rows == CleanedUp(old(os.rows), c)
    ensures forall k | k in os.rows :: k in old(os.rows) && os.rows[k] == old(os.rows)[k]
    ensures os.silent || forall k | k in os.rows && k.iface == c.tun :: k in os.kept
    ensures forall k | k in os.rows && k in Exceptions(c) :: k in os.kept
    ensures forall k | k in old(os.rows) && k.iface != c.tun && k !in Exceptions(c) :: k in os.rows
  {
    clean := FlushRoutes(os, c.tun);
    assert forall k: RouteKey | k.iface != c.tun :: k in os.rows <==> k in OffTunnel(os.rows, c.tun);
    assert forall k: RouteKey | k.iface != c.tun :: k in old(os.rows) <==> k in OffTunnel(old(os.rows), c.tun);
    if c.luid != 0 && c.prefix.Some? {
      var deleted := DeleteRoute(os, c.luid, c.prefix.value, c.hop);
      clean := clean && deleted;
    }
  }

  /** The exception route, if the closure has captured one that it takes for added. */
  function Exceptions(c: Cleanup): set<RouteKey> {
    if c.luid != 0 && c.prefix.Some? then {RouteKey(c.luid, c.prefix.value, c.hop)} else {}
  }

  function CleanedUp(rows: Table, c: Cleanup): Table {
    OffTunnel(rows, c.tun) - Exceptions(c)
  }

  // ---------------------------------------------------------------- what configuring achieves

  lemma ExceptionIsOffTunnel(
      base: Table, tun: nat, endpoint: Option<Address>, exception: Option<RouteKey>, listed: bool)
    requires ExceptionFor(base, tun, endpoint, exception, listed) && exception.Some?
    ensures exception.value.iface != tun && exception.value.prefix.bits == 32
    ensures ByLeastDefault(base, tun, exception.value)
  {
    var list: seq<Row> :| LeadsListing(list, base, tun, exception.value);
    var i: nat :| IsFirstLeast(list, tun, i)
                  && list[i].key.iface == exception.value.iface && list[i].key.hop == exception.value.hop;
    FirstLeastIsLeast(list, base, tun, i);
  }

  /** Off the tunnel, configuring adds the exception and nothing else. */
  lemma OffTunnelAfter(before: Table, tun: nat, config: Config, after: Table, c: Cleanup, report: Report)
    requires Configures(before, tun, config, after, c, report)
    ensures OffTunnel(after, tun)
         == Added(OffTunnel(before, tun), if report.added then {report.exception.value} else {})
    ensures report.added ==> report.exception.value !in OffTunnel(before, tun)
  {
    assert OffTunnel(report.base, tun) == OffTunnel(before, tun);
    if report.exception.Some? {
      ExceptionIsOffTunnel(report.base, tun, config.endpoint, report.exception, report.listed);
    }
    AddedOffTunnel(report.base, tun, if report.added then {report.exception.value} else {});
    var wanted := SplitRows(tun, PeerPrefixes(config.peers, |config.peers|)) - report.refused;
    AddedOnTunnel(Added(report.base, if report.added then {report.exception.value} else {}), tun, wanted);
  }

  lemma AddedOffTunnel(rows: Table, tun: nat, keys: set<RouteKey>)
    requires forall k | k in keys :: k.iface != tun
    ensures OffTunnel(Added(rows, keys), tun) == Added(OffTunnel(rows, tun), keys)
  {
  }

  lemma AddedOnTunnel(rows: Table, tun: nat, keys: set<RouteKey>)
    requires forall k | k in keys :: k.iface == tun
    ensures OffTunnel(Added(rows, keys), tun) == OffTunnel(rows, tun)
  {
  }

  /** Configuring and cleaning up, with every delete succeeding, gives back the off-tunnel table as it
      was, metrics included, and leaves nothing on the tunnel; also when the exception was already there
      and could not be added. The one way to fail is an exception added on an interface whose LUID is 0,
      which the cleanup takes for no exception at all. */
  lemma CleanupRestores(before: Table, tun: nat, config: Config, after: Table, c: Cleanup, report: Report)
    requires Configures(before, tun, config, after, c, report)
    ensures CleanedUp(after, c) == OffTunnel(before, tun) <==> !(report.added && report.exception.value.iface == 0)
    ensures forall k | k in CleanedUp(after, c) :: k.iface != tun
  {
    OffTunnelAfter(before, tun, config, after, c, report);
    if report.added && report.exception.value.iface == 0 {
      assert report.exception.value in CleanedUp(after, c);
    }
  }

  // When that can happen, in terms of the table before the call.

  /** An off-tunnel default route of least metric has LUID 0, and the endpoint's host route by it is not
      there yet. */
  ghost predicate CanLose(before: Table, tun: nat, config: Config) {
    && Addresses(config.addressing) && config.endpoint.Some?
    && exists k: RouteKey :: LosesBy(before, tun, config.endpoint.value, k)
  }

  ghost predicate LosesBy(before: Table, tun: nat, endpoint: Address, k: RouteKey) {
    IsLeastDefault(before, tun, k) && k.iface == 0 && RouteKey(0, Prefix(endpoint, 32), k.hop) !in before
  }

  /** The system may list any row first. */
  lemma ListingFrom(rows: Table, k: RouteKey) returns (list: seq<Row>)
    requires k in rows
    ensures IsListing(list, rows) && |list| > 0 && list[0].key == k
  {
    list := [Row(k, rows[k])];
    var todo := rows.Keys - {k};
    while todo != {}
      invariant todo <= rows.Keys && |list| > 0 && list[0].key == k
      invariant forall i | 0 <= i < |list| :: list[i].key in rows && rows[list[i].key] == list[i].metric
      invariant forall i | 0 <= i < |list| :: list[i].key !in todo
      invariant NoRowTwice(list)
      invariant forall j | j in rows && j !in todo :: IsListed(list, j)
      decreases todo
    {
      var j :| j in todo;
      ListedAfter(list, Row(j, rows[j]), rows.Keys - todo);
      list, todo := list + [Row(j, rows[j])], todo - {j};
    }
  }

  lemma SameLeastDefaults(a: Table, b: Table, tun: nat, k: RouteKey)
    requires OffTunnel(a, tun) == OffTunnel(b, tun) && IsLeastDefault(a, tun, k)
    ensures IsLeastDefault(b, tun, k)
  {
    assert forall j: RouteKey | j.iface != tun ::
        (j in a <==> j in OffTunnel(a, tun)) && (j in b <==> j in OffTunnel(b, tun));
    assert forall j | j in a && j.iface != tun :: a[j] == OffTunnel(a, tun)[j] && b[j] == OffTunnel(b, tun)[j];
  }

  /** The outcome in which the exception is added by such a route and nothing is refused. */
  lemma LosingOutcome(before: Table, tun: nat, config: Config, k: RouteKey)
    returns (after: Table, c: Cleanup, report: Report)
    requires Addresses(config.addressing) && config.endpoint.Some? && LosesBy(before, tun, config.endpoint.value, k)
    ensures Configures(before, tun, config, after, c, report)
    ensures report.added && report.exception.value.iface == 0
  {
    var base := Addressed(before, tun, config.addressing);
    assert OffTunnel(base, tun) == OffTunnel(before, tun);
    SameLeastDefaults(before, base, tun, k);
    var list := ListingFrom(base, k);
    var prefix := Prefix(config.endpoint.value, 32);
    var e := RouteKey(0, prefix, k.hop);
    assert e !in base by {
      assert e in base ==> e in OffTunnel(base, tun);
    }
    c, report := Cleanup(tun, 0, k.hop, Some(prefix)), Report(base, Some(e), true, {}, true);
    LeastFirstIsFirstLeast(list, base, tun, k);
    assert LeadsListing(list, base, tun, e);
    after := Added(Added(base, {e}), SplitRows(tun, PeerPrefixes(config.peers, |config.peers|)) - {});
  }

  lemma LeastFirstIsFirstLeast(list: seq<Row>, rows: Table, tun: nat, k: RouteKey)
    requires IsListing(list, rows) && IsLeastDefault(rows, tun, k) && |list| > 0 && list[0].key == k
    ensures IsFirstLeast(list, tun, 0)
  {
  }

  /** The exact condition for every outcome of configuring, whatever the system refuses and in whatever
      order it lists the table, to be undone by cleaning up. */
  lemma CleanupAlwaysRestores(before: Table, tun: nat, config: Config)
    ensures (forall after, c, report | Configures(before, tun, config, after, c, report) ::
               CleanedUp(after, c) == OffTunnel(before, tun))
       <==> !CanLose(before, tun, config)
  {
    if CanLose(before, tun, config) {
      var k: RouteKey :| LosesBy(before, tun, config.endpoint.value, k);
      var after, c, report := LosingOutcome(before, tun, config, k);
      CleanupRestores(before, tun, config, after, c, report);
    } else {
      forall after, c, report | Configures(before, tun, config, after, c, report)
        ensures CleanedUp(after, c) == OffTunnel(before, tun)
      {
        CleanupRestores(before, tun, config, after, c, report);
        if report.added && report.exception.value.iface == 0 {
          LossHasCause(before, tun, config, after, c, report);
        }
      }
    }
  }

  lemma LossHasCause(before: Table, tun: nat, config: Config, after: Table, c: Cleanup, report: Report)
    requires Configures(before, tun, config, after, c, report)
    requires report.added && report.exception.value.iface == 0
    ensures CanLose(before, tun, config)
  {
    var base, e := report.base, report.exception.value;
    ExceptionIsOffTunnel(base, tun, config.endpoint, report.exception, report.listed);
    var k: RouteKey :| IsLeastDefault(base, tun, k) && k.iface == e.iface && k.hop == e.hop;
    assert OffTunnel(base, tun) == OffTunnel(before, tun);
    SameLeastDefaults(base, before, tun, k);
    assert e in before ==> e in OffTunnel(before, tun);
    assert LosesBy(before, tun, config.endpoint.value, k);
  }

  /** In particular always when no off-tunnel default route has LUID 0, the system's unspecified one. */
  lemma CleanupRestoresSpecified(before: Table, tun: nat, config: Config, after: Table, c: Cleanup, report: Report)
    requires Configures(before, tun, config, after, c, report)
    requires forall k | k in before && k.iface != tun && k.prefix.bits == 0 :: k.iface != 0
    ensures CleanedUp(after, c) == OffTunnel(before, tun)
  {
    CleanupAlwaysRestores(before, tun, config);
  }

  /** Otherwise it can fail: one default route, on LUID 0, and an endpoint. */
  lemma CleanupCanFail() returns (after: Table, c: Cleanup, report: Report)
    ensures var before := map[RouteKey(0, Prefix(0, 0), 9) := 0];
            var e := RouteKey(0, Prefix(5, 32), 9);
      && Configures(before, 1, Config(NoAddress, Some(5), []), after, c, report)
      && e !in before && e in CleanedUp(after, c)
  {
    var before := map[RouteKey(0, Prefix(0, 0), 9) := 0];
    var config := Config(NoAddress, Some(5), []);
    after, c, report := LosingOutcome(before, 1, config, RouteKey(0, Prefix(0, 0), 9));
    LostIsLeft(before, 1, config, after, c, report);
    var list: seq<Row> :| LeadsListing(list, before, 1, report.exception.value);
  }

  lemma LostIsLeft(before: Table, tun: nat, config: Config, after: Table, c: Cleanup, report: Report)
    requires Configures(before, tun, config, after, c, report)
    requires report.added && report.exception.value.iface == 0
    ensures report.exception.value in CleanedUp(after, c)
  {
    OffTunnelAfter(before, tun, config, after, c, report);
  }

  /** The AllowedIPs list this host and its row was not refused. */
  predicate Taken(tun: nat, config: Config, report: Report, host: Prefix) {
    host in PeerPrefixes(config.peers, |config.peers|) && RouteKey(tun, host, ON_LINK) !in report.refused
  }

  /** The exception is in place: it was added, or could not be because it was there. */
  ghost predicate Pinned(report: Report) {
    report.exception.Some? && (report.added || report.exception.value in report.base)
  }

  predicate OnlyHostRoute(rows: Table, e: RouteKey) {
    forall k | k in rows && k.prefix == e.prefix :: k == e
  }

  /** The host routes for the endpoint after configuring. */
  lemma HostRoutesAfter(
      before: Table, tun: nat, config: Config, after: Table, c: Cleanup, report: Report, k: RouteKey)
    requires Configures(before, tun, config, after, c, report) && Pinned(report)
    requires k.prefix == report.exception.value.prefix
    ensures k in after <==>
      (k in report.base || k == report.exception.value
       || (k == RouteKey(tun, k.prefix, ON_LINK) && Taken(tun, config, report, k.prefix)))
  {
    ExceptionIsOffTunnel(report.base, tun, config.endpoint, report.exception, report.listed);
    HostRowsOfSplit(tun, PeerPrefixes(config.peers, |config.peers|), k);
  }

  lemma HostRowsOfSplit(tun: nat, prefixes: set<Prefix>, k: RouteKey)
    requires k.prefix.bits == 32
    ensures k in SplitRows(tun, prefixes) <==> k == RouteKey(tun, k.prefix, ON_LINK) && k.prefix in prefixes
  {
    assert k.prefix in Split(prefixes) <==> k.prefix in prefixes;
  }

  /** No routing loop. With the exception in place, with the interface and next hop of an off-tunnel
      default route of least metric: packets for the endpoint leave by that interface just when no host
      route for it was there on another one and the AllowedIPs do not take it into the tunnel; and by the
      exception alone if there was no other host route for it at all. */
  lemma EndpointBypassesTunnel(before: Table, tun: nat, config: Config, after: Table, c: Cleanup, report: Report)
    requires Configures(before, tun, config, after, c, report) && Pinned(report)
    ensures var e := report.exception.value;
      && e.iface != tun
      && ByLeastDefault(report.base, tun, e)
      && (Interfaces(after.Keys, e.prefix.addr) == {e.iface}
          <==> !Taken(tun, config, report, e.prefix)
               && forall k | k in report.base && k.prefix == e.prefix :: k.iface == e.iface)
      && (!Taken(tun, config, report, e.prefix) && OnlyHostRoute(report.base, e) ==>
            Best(after.Keys, e.prefix.addr) == {e})
  {
    var e := report.exception.value;
    ExceptionIsOffTunnel(report.base, tun, config.endpoint, report.exception, report.listed);
    forall k: RouteKey | k.prefix == e.prefix
      ensures k in after <==>
        (k in report.base || k == e || (k == RouteKey(tun, k.prefix, ON_LINK) && Taken(tun, config, report, k.prefix)))
    {
      HostRoutesAfter(before, tun, config, after, c, report, k);
    }
    assert e in after.Keys;
    EndpointAvoidsTunnel(after.Keys, e);
    assert Taken(tun, config, report, e.prefix) ==> RouteKey(tun, e.prefix, ON_LINK) in after;
  }

  /** Every other destination is forwarded as it would be without the exception. */
  lemma ExceptionChangesNothingElse(
      before: Table, tun: nat, config: Config, after: Table, c: Cleanup, report: Report, d: Address)
    requires Configures(before, tun, config, after, c, report) && report.added
    requires d != report.exception.value.prefix.addr
    ensures Best(after.Keys, d) == Best(after.Keys - {report.exception.value}, d)
  {
    var e := report.exception.value;
    ExceptionIsOffTunnel(report.base, tun, config.endpoint, report.exception, report.listed);
    ExceptionIsLocal(after.Keys - {e}, e, d);
    assert e in after.Keys;
    assert after.Keys - {e} + {e} == after.Keys;
  }

  /** Taking over the default by halves means what taking it over outright would. With no tunnel row
      refused, a destination goes through the same interfaces as in the table with the old defaults
      removed and the AllowedIPs installed as they are, just when no off-tunnel /1 row wins it there. */
  lemma ConfiguredMeaning(before: Table, tun: nat, config: Config, after: Table, c: Cleanup, report: Report, d: Address)
    requires Configures(before, tun, config, after, c, report) && report.refused == {}
    requires HasDefault(PeerPrefixes(config.peers, |config.peers|))
    ensures var prior := report.base.Keys + if report.added then {report.exception.value} else {};
            var prefixes := PeerPrefixes(config.peers, |config.peers|);
      Interfaces(after.Keys, d) == Interfaces(Verbatim(prior, tun, prefixes), d)
      <==> !HalfRouteWins(prior, tun, prefixes, d)
  {
    var prior := report.base.Keys + if report.added then {report.exception.value} else {};
    var prefixes := PeerPrefixes(config.peers, |config.peers|);
    assert after.Keys == Covered(prior, tun, prefixes);
    SplitPreservesMeaning(prior, tun, prefixes, d);
  }

  /** In particular for every destination when no off-tunnel /1 row was there before. */
  lemma ConfiguredMeaningEverywhere(before: Table, tun: nat, config: Config, after: Table, c: Cleanup, report: Report)
    requires Configures(before, tun, config, after, c, report) && report.refused == {}
    requires HasDefault(PeerPrefixes(config.peers, |config.peers|))
    requires forall k | k in before :: k.iface == tun || k.prefix.bits != 1
    ensures var prior := report.base.Keys + if report.added then {report.exception.value} else {};
      forall d: Address ::
        Interfaces(after.Keys, d) == Interfaces(Verbatim(prior, tun, PeerPrefixes(config.peers, |config.peers|)), d)
  {
    var prior := report.base.Keys + if report.added then {report.exception.value} else {};
    var prefixes := PeerPrefixes(config.peers, |config.peers|);
    assert after.Keys == Covered(prior, tun, prefixes);
    SplitPreservesMeaningEverywhere(prior, tun, prefixes);
  }

  /** The table row by row: a row is there if it was before, or is the exception and was added, or is one of
      the tunnel's: for an IPv4 entry of the AllowedIPs other than a default, on-link, or for either half
      if they list a default; unless it was refused. Rows that were there keep their metric, new ones
      have 0. */
  lemma ConfiguredRows(
      before: Table, tun: nat, config: Config, after: Table, c: Cleanup, report: Report, k: RouteKey)
    requires Configures(before, tun, config, after, c, report)
    ensures var prefixes := PeerPrefixes(config.peers, |config.peers|);
      k in after <==>
        (k in report.base || (report.added && k == report.exception.value)
         || (k.iface == tun && k.hop == 0 && k !in report.refused
             && ((k.prefix in prefixes && k.prefix.bits != 0)
                 || (HasDefault(prefixes) && k.prefix in {Prefix(0, 1), Prefix(0x8000_0000, 1)}))))
    ensures k in after ==> after[k] == if k in report.base then report.base[k] else 0
  {
    RowsOfSplit(tun, PeerPrefixes(config.peers, |config.peers|), k);
  }

  lemma RowsOfSplit(tun: nat, prefixes: set<Prefix>, k: RouteKey)
    ensures k in SplitRows(tun, prefixes)
       <==> k.iface == tun && k.hop == 0
            && ((k.prefix in prefixes && k.prefix.bits != 0)
                || (HasDefault(prefixes) && k.prefix in {Prefix(0, 1), Prefix(0x8000_0000, 1)}))
  {
    assert k.prefix in Split(prefixes)
      <==> ((k.prefix in prefixes && k.prefix.bits != 0)
            || (HasDefault(prefixes) && k.prefix in {Prefix(0, 1), Prefix(0x8000_0000, 1)}));
    if k.iface == tun && k.hop == 0 && k.prefix in Split(prefixes) {
      assert k == RouteKey(tun, k.prefix, ON_LINK);
    }
  }
}
