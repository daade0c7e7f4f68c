/**
 What a routing table means (section 5.2.4.3 of RFC 1812): a destination is forwarded by the
 matching rows of greatest prefix length. IPv4 only; metrics do not enter.
 */
module Forwarding {

  type Address = a: nat | a < 0x1_0000_0000
  type Bits = b: nat | b <= 32

  datatype Prefix = Prefix(addr: Address, bits: Bits)

  /** What identifies a row of the operating system's table. */
  datatype RouteKey = RouteKey(iface: nat, prefix: Prefix, hop: Address)

  function Pow2(n: nat): (p: nat)
    ensures p > 0
  {
    if n == 0 then 1 else 2 * Pow2(n - 1)
  }

  /** The first bits of the two addresses agree. */
  predicate Covers(p: Prefix, d: Address) {
    d / Pow2(32 - p.bits) == p.addr / Pow2(32 - p.bits)
  }

  /** The first n bits of an address, as a number. */
  function TopBits(a: Address, n: nat): nat
    requires n <= 32
    decreases 32 - n
  {
    if n == 32 then a else TopBits(a, n + 1) / 2
  }

  /** Bit i of an address, counted from the most significant. */
  function Bit(a: Address, i: nat): nat
    requires i < 32
  {
    TopBits(a, i + 1) % 2
  }

  lemma ProductAtLeast(m: nat, d: nat)
    requires d >= 1
    ensures m * d >= m
  {
    assert m * d == m * (d - 1) + m;
  }

  lemma QuotientIs(m: nat, p: nat, s: nat, q: nat, r: nat)
    requires m * p + s == m * q + r && s < m && r < m
    ensures p == q
  {
    if p < q {
      assert m * q - m * p == m * (q - p);
      ProductAtLeast(m, q - p);
    } else if q < p {
      assert m * p - m * q == m * (p - q);
      ProductAtLeast(m, p - q);
    }
  }

  lemma Distribute(m: nat, h: nat, b: nat)
    requires b < 2
    ensures m * (2 * h + b) == 2 * m * h + if b == 1 then m else 0
  {
    assert m * (2 * h + b) == m * (2 * h) + m * b;
  }

  lemma HalvedQuotient(m: nat, q: nat, r: nat, p: nat, s: nat)
    requires m * q + r == 2 * m * p + s && r < m && s < 2 * m
    ensures p == q / 2
  {
    var h, b := q / 2, q % 2;
    assert q == 2 * h + b;
    Distribute(m, h, b);
    QuotientIs(2 * m, p, s, h, if b == 1 then m + r else r);
  }

  lemma HalvingQuotients(a: nat, m: nat)
    requires m > 0
    ensures a / (2 * m) == (a / m) / 2
  {
    var q, r := Division(a, m);
    var p, s := Division(a, 2 * m);
    HalvedQuotient(m, q, r, p, s);
  }

  lemma Division(a: nat, m: nat) returns (q: nat, r: nat)
    requires m > 0
    ensures q == a / m && a == m * q + r && r < m
  {
    q, r := a / m, a % m;
  }

  lemma {:induction false} TopBitsAre(a: Address, n: nat)
    requires n <= 32
    ensures TopBits(a, n) == a / Pow2(32 - n)
    decreases 32 - n
  {
    if n < 32 {
      TopBitsAre(a, n + 1);
      HalvingQuotients(a, Pow2(32 - (n + 1)));
    }
  }

  lemma NothingLeft(a: Address)
    ensures TopBits(a, 0) == 0
  {
    TopBitsAre(a, 0);
    Pow2Values();
  }

  lemma {:induction false} FirstBits(a: Address, b: Address, n: nat)
    requires n <= 32
    ensures TopBits(a, n) == TopBits(b, n) <==> SameBits(a, b, n)
  {
    if n == 0 {
      NothingLeft(a);
      NothingLeft(b);
    } else {
      FirstBits(a, b, n - 1);
      assert SameBits(a, b, n) <==> SameBits(a, b, n - 1) && Bit(a, n - 1) == Bit(b, n - 1);
    }
  }

  predicate SameBits(a: Address, b: Address, n: nat)
    requires n <= 32
  {
    forall i | 0 <= i < n :: Bit(a, i) == Bit(b, i)
  }

  /** A prefix covers the addresses that agree with its own in its first bits. */
  lemma CoversByBits(p: Prefix, d: Address)
    ensures Covers(p, d) <==> SameBits(d, p.addr, p.bits)
  {
    TopBitsAre(d, p.bits);
    TopBitsAre(p.addr, p.bits);
    FirstBits(d, p.addr, p.bits);
  }

  function Matching(rows: set<RouteKey>, d: Address): set<RouteKey> {
    set k | k in rows && Covers(k.prefix, d)
  }

  predicate IsLongest(rows: set<RouteKey>, d: Address, k: RouteKey) {
    forall j | j in Matching(rows, d) :: j.prefix.bits <= k.prefix.bits
  }

  function Best(rows: set<RouteKey>, d: Address): set<RouteKey> {
    set k | k in Matching(rows, d) && IsLongest(rows, d, k)
  }

  /** The interfaces a packet for d may leave through. */
  function Interfaces(rows: set<RouteKey>, d: Address): set<nat> {
    set k | k in Best(rows, d) :: k.iface
  }

  lemma BestOfLength(rows: set<RouteKey>, d: Address, bits: nat)
    requires exists k :: k in Matching(rows, d) && k.prefix.bits == bits
    requires forall k | k in Matching(rows, d) :: k.prefix.bits <= bits
    ensures Best(rows, d) == set k | k in Matching(rows, d) && k.prefix.bits == bits
  {
  }

  lemma Pow2Values()
    ensures Pow2(0) == 1 && Pow2(31) == 0x8000_0000 && Pow2(32) == 0x1_0000_0000
  {
    assert Pow2(8) == 0x100;
    assert Pow2(16) == 0x1_0000;
    assert Pow2(24) == 0x100_0000;
    assert Pow2(31) == 0x8000_0000;
  }

  // ---------------------------------------------------------------- the two halves of everything

  const LOW_HALF: Prefix := Prefix(0, 1)
  const HIGH_HALF: Prefix := Prefix(0x8000_0000, 1)
  const ON_LINK: Address := 0

  lemma ShortPrefixes(p: Prefix, d: Address)
    ensures p.bits == 0 ==> Covers(p, d)
    ensures p.bits == 32 ==> (Covers(p, d) <==> d == p.addr)
    ensures Covers(LOW_HALF, d) <==> d < 0x8000_0000
    ensures Covers(HIGH_HALF, d) <==> d >= 0x8000_0000
  {
    Pow2Values();
  }

  predicate HasDefault(prefixes: set<Prefix>) {
    exists p :: p in prefixes && p.bits == 0
  }

  /** What is installed for a set of AllowedIPs: each /0 becomes the two /1 halves. */
  function Split(prefixes: set<Prefix>): set<Prefix> {
    (set p | p in prefixes && p.bits != 0)
    + if HasDefault(prefixes) then {LOW_HALF, HIGH_HALF} else {}
  }

  function TunnelRows(tun: nat, prefixes: set<Prefix>): set<RouteKey> {
    set p | p in prefixes :: RouteKey(tun, p, ON_LINK)
  }

  /** The table as it would be had the default been taken over outright. */
  function Verbatim(prior: set<RouteKey>, tun: nat, prefixes: set<Prefix>): set<RouteKey> {
    (set k | k in prior && k.prefix.bits != 0) + TunnelRows(tun, prefixes)
  }

  /** The table as it is made: nothing removed, the default covered by its halves. */
  function Covered(prior: set<RouteKey>, tun: nat, prefixes: set<Prefix>): set<RouteKey> {
    prior + TunnelRows(tun, Split(prefixes))
  }

  /** Rows of length two and more are the same in both tables. */
  lemma LongRowsAgree(prior: set<RouteKey>, tun: nat, prefixes: set<Prefix>, d: Address, k: RouteKey)
    requires k.prefix.bits >= 2
    ensures k in Matching(Covered(prior, tun, prefixes), d) <==> k in Matching(Verbatim(prior, tun, prefixes), d)
  {
  }

  lemma LongRowsDecide(prior: set<RouteKey>, tun: nat, prefixes: set<Prefix>, d: Address, k: RouteKey)
    requires k in Matching(Covered(prior, tun, prefixes), d) && k.prefix.bits >= 2
    ensures Best(Covered(prior, tun, prefixes), d) == Best(Verbatim(prior, tun, prefixes), d)
  {
    var split, ideal := Covered(prior, tun, prefixes), Verbatim(prior, tun, prefixes);
    LongRowsAgree(prior, tun, prefixes, d, k);
    forall j: RouteKey | j.prefix.bits >= 2
      ensures j in Matching(split, d) <==> j in Matching(ideal, d)
    {
      LongRowsAgree(prior, tun, prefixes, d, j);
    }
  }

  /** An off-tunnel row of length one decides d in the table taken over outright. */
  ghost predicate HalfRouteWins(prior: set<RouteKey>, tun: nat, prefixes: set<Prefix>, d: Address) {
    && (exists k :: k in Matching(prior, d) && k.iface != tun && k.prefix.bits == 1)
    && (forall k | k in Matching(Verbatim(prior, tun, prefixes), d) ::
          k.prefix.bits <= 1 && !(k.iface == tun && k.prefix.bits == 1))
  }

  /** Splitting preserves meaning, destination by destination: the two tables send d through the same
      interfaces unless an off-tunnel /1 row has d to itself in the second. */
  lemma SplitPreservesMeaning(prior: set<RouteKey>, tun: nat, prefixes: set<Prefix>, d: Address)
    requires HasDefault(prefixes)
    ensures Interfaces(Covered(prior, tun, prefixes), d) == Interfaces(Verbatim(prior, tun, prefixes), d)
       <==> !HalfRouteWins(prior, tun, prefixes, d)
  {
    var split, ideal := Covered(prior, tun, prefixes), Verbatim(prior, tun, prefixes);
    if k :| k in Matching(split, d) && k.prefix.bits >= 2 {
      LongRowsAgree(prior, tun, prefixes, d, k);
      LongRowsDecide(prior, tun, prefixes, d, k);
    } else {
      ShortRowsDecide(prior, tun, prefixes, d);
    }
  }

  /** Without longer rows the halves decide in the split table, the tunnel's among them. */
  lemma HalvesDecide(prior: set<RouteKey>, tun: nat, prefixes: set<Prefix>, d: Address)
    requires HasDefault(prefixes)
    requires forall k | k in Matching(Covered(prior, tun, prefixes), d) :: k.prefix.bits < 2
    ensures var split := Covered(prior, tun, prefixes);
      Best(split, d) == (set k | k in Matching(split, d) && k.prefix.bits == 1) && tun in Interfaces(split, d)
  {
    var split := Covered(prior, tun, prefixes);
    var half := RouteKey(tun, if d < 0x8000_0000 then LOW_HALF else HIGH_HALF, ON_LINK);
    ShortPrefixes(LOW_HALF, d);
    assert half.prefix in Split(prefixes);
    assert half in Matching(split, d);
    BestOfLength(split, d, 1);
    assert half in Best(split, d);
  }

  /** Without half routes the default decides in the table taken over outright. */
  lemma DefaultDecides(prior: set<RouteKey>, tun: nat, prefixes: set<Prefix>, d: Address)
    requires HasDefault(prefixes)
    requires forall k | k in Matching(Verbatim(prior, tun, prefixes), d) :: k.prefix.bits == 0
    ensures Interfaces(Verbatim(prior, tun, prefixes), d) == {tun}
  {
    var ideal := Verbatim(prior, tun, prefixes);
    var zero :| zero in prefixes && zero.bits == 0;
    ShortPrefixes(zero, d);
    var default := RouteKey(tun, zero, ON_LINK);
    assert default in Matching(ideal, d);
    BestOfLength(ideal, d, 0);
    assert default in Best(ideal, d);
  }

  lemma ShortRowsDecide(prior: set<RouteKey>, tun: nat, prefixes: set<Prefix>, d: Address)
    requires HasDefault(prefixes)
    requires forall k | k in Matching(Covered(prior, tun, prefixes), d) :: k.prefix.bits < 2
    ensures Interfaces(Covered(prior, tun, prefixes), d) == Interfaces(Verbatim(prior, tun, prefixes), d)
       <==> !HalfRouteWins(prior, tun, prefixes, d)
  {
    var split, ideal := Covered(prior, tun, prefixes), Verbatim(prior, tun, prefixes);
    HalvesDecide(prior, tun, prefixes, d);
    forall k: RouteKey | k in Matching(ideal, d) ensures k.prefix.bits < 2 {
      if k.prefix.bits >= 2 { LongRowsAgree(prior, tun, prefixes, d, k); }
    }
    if k :| k in Matching(ideal, d) && k.prefix.bits == 1 {
      BestOfLength(ideal, d, 1);
      assert k in Best(ideal, d);
      HalvesAgree(prior, tun, prefixes, d);
    } else {
      DefaultDecides(prior, tun, prefixes, d);
      NoHalfElsewhere(prior, tun, prefixes, d);
    }
  }

  lemma NoHalfElsewhere(prior: set<RouteKey>, tun: nat, prefixes: set<Prefix>, d: Address)
    requires forall k | k in Matching(Verbatim(prior, tun, prefixes), d) :: k.prefix.bits == 0
    requires Best(Covered(prior, tun, prefixes), d)
          == set k | k in Matching(Covered(prior, tun, prefixes), d) && k.prefix.bits == 1
    requires tun in Interfaces(Covered(prior, tun, prefixes), d)
    ensures Interfaces(Covered(prior, tun, prefixes), d) == {tun} && !HalfRouteWins(prior, tun, prefixes, d)
  {
    var ideal := Verbatim(prior, tun, prefixes);
    assert forall k | k in Matching(prior, d) && k.prefix.bits != 0 :: k in Matching(ideal, d);
  }

  /** Both tables decide d by rows of length one. */
  lemma HalvesAgree(prior: set<RouteKey>, tun: nat, prefixes: set<Prefix>, d: Address)
    requires HasDefault(prefixes)
    requires Best(Covered(prior, tun, prefixes), d)
          == set k | k in Matching(Covered(prior, tun, prefixes), d) && k.prefix.bits == 1
    requires Best(Verbatim(prior, tun, prefixes), d)
          == set k | k in Matching(Verbatim(prior, tun, prefixes), d) && k.prefix.bits == 1
    requires Best(Verbatim(prior, tun, prefixes), d) != {} && tun in Interfaces(Covered(prior, tun, prefixes), d)
    requires forall k | k in Matching(Verbatim(prior, tun, prefixes), d) :: k.prefix.bits <= 1
    ensures Interfaces(Covered(prior, tun, prefixes), d) == Interfaces(Verbatim(prior, tun, prefixes), d)
       <==> !HalfRouteWins(prior, tun, prefixes, d)
  {
    var split, ideal := Covered(prior, tun, prefixes), Verbatim(prior, tun, prefixes);
    assert forall k | k in Best(ideal, d) :: k in Best(split, d);
    assert forall k | k in Best(split, d) && k.iface != tun :: k in Best(ideal, d);
    assert tun in Interfaces(ideal, d) <==> exists k :: k in Best(ideal, d) && k.iface == tun;
    assert Interfaces(ideal, d) <= Interfaces(split, d) <= Interfaces(ideal, d) + {tun};
    assert Interfaces(split, d) == Interfaces(ideal, d) <==> tun in Interfaces(ideal, d);
    if tun !in Interfaces(ideal, d) {
      var k :| k in Best(ideal, d);
      assert k.iface in Interfaces(ideal, d);
      assert k in Matching(prior, d);
    }
  }

  /** In particular for every destination when no off-tunnel /1 row was there before. */
  lemma SplitPreservesMeaningEverywhere(prior: set<RouteKey>, tun: nat, prefixes: set<Prefix>)
    requires HasDefault(prefixes)
    requires forall k | k in prior :: k.iface == tun || k.prefix.bits != 1
    ensures forall d: Address ::
      Interfaces(Covered(prior, tun, prefixes), d) == Interfaces(Verbatim(prior, tun, prefixes), d)
  {
    forall d: Address
      ensures Interfaces(Covered(prior, tun, prefixes), d) == Interfaces(Verbatim(prior, tun, prefixes), d)
    {
      SplitPreservesMeaning(prior, tun, prefixes, d);
    }
  }

  lemma HalfAndHalf()
    ensures Interfaces(Covered({RouteKey(7, LOW_HALF, 9)}, 1, {Prefix(0, 0)}), 5) == {1, 7}
  {
    var split := Covered({RouteKey(7, LOW_HALF, 9)}, 1, {Prefix(0, 0)});
    var theirs, ours := RouteKey(7, LOW_HALF, 9), RouteKey(1, LOW_HALF, ON_LINK);
    ShortPrefixes(Prefix(0, 0), 5);
    assert split == {theirs, ours, RouteKey(1, HIGH_HALF, ON_LINK)};
    assert Matching(split, 5) == {theirs, ours};
    assert Best(split, 5) == {theirs, ours};
  }

  lemma HalfAlone()
    ensures Interfaces(Verbatim({RouteKey(7, LOW_HALF, 9)}, 1, {Prefix(0, 0)}), 5) == {7}
  {
    var ideal := Verbatim({RouteKey(7, LOW_HALF, 9)}, 1, {Prefix(0, 0)});
    ShortPrefixes(Prefix(0, 0), 5);
    assert ideal == {RouteKey(7, LOW_HALF, 9), RouteKey(1, Prefix(0, 0), ON_LINK)};
    assert Matching(ideal, 5) == ideal;
    assert Best(ideal, 5) == {RouteKey(7, LOW_HALF, 9)};
  }

  /** It can fail: a table with half the address space on another interface. */
  lemma SplitCanChangeMeaning()
    ensures var prior := {RouteKey(7, LOW_HALF, 9)};
      && Interfaces(Covered(prior, 1, {Prefix(0, 0)}), 5) == {1, 7}
      && Interfaces(Verbatim(prior, 1, {Prefix(0, 0)}), 5) == {7}
  {
    HalfAndHalf();
    HalfAlone();
  }

  // ---------------------------------------------------------------- the endpoint exception

  /** A host route decides its own address: the interfaces there are those of the host routes for it. */
  lemma HostRouteDecides(rows: set<RouteKey>, host: RouteKey)
    requires host in rows && host.prefix.bits == 32
    ensures Best(rows, host.prefix.addr) == set k | k in rows && k.prefix == host.prefix
  {
    var d := host.prefix.addr;
    forall k: RouteKey ensures k.prefix.bits == 32 ==> (Covers(k.prefix, d) <==> d == k.prefix.addr) {
      ShortPrefixes(k.prefix, d);
    }
    assert host in Matching(rows, d);
    BestOfLength(rows, d, 32);
  }

  /** No routing loop: the endpoint leaves through the exception's interface just when every other host
      route for it does, and only the exception itself if there is no other. */
  lemma EndpointAvoidsTunnel(rows: set<RouteKey>, exception: RouteKey)
    requires exception in rows && exception.prefix.bits == 32
    ensures var d := exception.prefix.addr;
      && (Interfaces(rows, d) == {exception.iface}
          <==> forall k | k in rows && k.prefix == exception.prefix :: k.iface == exception.iface)
      && ((forall k | k in rows && k.prefix == exception.prefix :: k == exception) ==> Best(rows, d) == {exception})
  {
    var d := exception.prefix.addr;
    HostRouteDecides(rows, exception);
    assert exception in Best(rows, d);
    assert exception.iface in Interfaces(rows, d);
    if Interfaces(rows, d) == {exception.iface} {
      forall k | k in rows && k.prefix == exception.prefix ensures k.iface == exception.iface {
        assert k in Best(rows, d);
        assert k.iface in Interfaces(rows, d);
      }
    }
  }

  /** No other destination notices the exception. */
  lemma ExceptionIsLocal(rows: set<RouteKey>, exception: RouteKey, d: Address)
    requires exception.prefix.bits == 32 && d != exception.prefix.addr
    ensures Best(rows + {exception}, d) == Best(rows, d)
  {
    ShortPrefixes(exception.prefix, d);
    assert Matching(rows + {exception}, d) == Matching(rows, d);
  }
}
