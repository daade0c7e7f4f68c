/**
 The sockaddr codec of winipcfg (winipcfg/types.go): 28 bytes in place, read and written through
 the IPv4 and the IPv6 layout. The host is little-endian.
 */
module Sockaddr {
  import opened Wrappers
  import opened Octets

  type Word = n: nat | n < 0x1_0000
  type Long = n: nat | n < 0x1_0000_0000

  const AF_INET: Word := 2
  const AF_INET6: Word := 23
  const SIZE: nat := 28

  datatype Error = InvalidParameter

  /** netip.Addr: a zone belongs to an IPv6 address and may be empty. */
  datatype Addr = NoAddr | Addr4(bytes: seq<Byte>) | Addr6(bytes: seq<Byte>, zone: string)

  predicate WellFormed(a: Addr) {
    match a
    case NoAddr => true
    case Addr4(b) => |b| == 4
    case Addr6(b, _) => |b| == 16
  }

  datatype AddrPort = AddrPort(addr: Addr, port: Word)

  // ---------------------------------------------------------------- byte order

  function Bytes2(w: Word): seq<Byte> {
    [(w % 256) as Byte, (w / 256) as Byte]
  }

  function Word2(lo: Byte, hi: Byte): Word {
    lo as nat + 256 * hi as nat
  }

  function Bytes4(l: Long): seq<Byte> {
    Bytes2(l % 0x1_0000) + Bytes2(l / 0x1_0000)
  }

  function Long4(b0: Byte, b1: Byte, b2: Byte, b3: Byte): Long {
    Word2(b0, b1) + 0x1_0000 * Word2(b2, b3)
  }

  /** Network order of a host word, and back: the bytes of i in memory, read big-endian. */
  function Ntohs(i: Word): Word {
    var b := Bytes2(i);
    256 * b[0] as nat + b[1] as nat
  }

  /** The big-endian bytes of i, read as a host word. */
  function Htons(i: Word): Word {
    Word2((i / 256) as Byte, (i % 256) as Byte)
  }

  lemma HtonsInverse(i: Word)
    ensures Ntohs(Htons(i)) == i && Htons(Ntohs(i)) == i
  {
    var hi, lo := i / 256, i % 256;
    assert Htons(i) == hi + 256 * lo && Ntohs(i) == hi + 256 * lo;
    assert (hi + 256 * lo) % 256 == hi && (hi + 256 * lo) / 256 == lo;
  }

  lemma Bytes2Inverse(w: Word)
    ensures Word2(Bytes2(w)[0], Bytes2(w)[1]) == w
  {
  }

  lemma Bytes4Inverse(l: Long)
    ensures var b := Bytes4(l); |b| == 4 && Long4(b[0], b[1], b[2], b[3]) == l
  {
    Bytes2Inverse(l % 0x1_0000);
    Bytes2Inverse(l / 0x1_0000);
  }

  // ---------------------------------------------------------------- zones

  predicate AllDigits(z: string) {
    forall i | 0 <= i < |z| :: '0' <= z[i] <= '9'
  }

  function Decimal(z: string, k: nat): nat
    requires k <= |z| && AllDigits(z)
  {
    if k == 0 then 0 else 10 * Decimal(z, k - 1) + (z[k - 1] - '0') as nat
  }

  /** strconv.ParseUint(z, 10, 32). */
  function ParseUint32(z: string): Option<Long> {
    if z != "" && AllDigits(z) && Decimal(z, |z|) < 0x1_0000_0000 then Some(Decimal(z, |z|)) else None
  }

  function Digit(n: nat): char
    requires n < 10
  {
    '0' + n as char
  }

  /** strconv.FormatUint(n, 10). */
  function FormatUint(n: nat): (z: string)
    ensures z != "" && AllDigits(z)
    decreases n
  {
    if n < 10 then [Digit(n)] else FormatUint(n / 10) + [Digit(n % 10)]
  }

  lemma {:induction false} DecimalPrefix(z: string, c: char, k: nat)
    requires k <= |z| && AllDigits(z) && '0' <= c <= '9'
    ensures Decimal(z + [c], k) == Decimal(z, k)
  {
    if k > 0 {
      DecimalPrefix(z, c, k - 1);
    }
  }

  lemma {:induction false} ParseFormat(n: nat)
    ensures Decimal(FormatUint(n), |FormatUint(n)|) == n
  {
    if n < 10 {
      assert Decimal(FormatUint(n), 0) == 0;
    } else {
      var z := FormatUint(n / 10);
      ParseFormat(n / 10);
      DecimalPrefix(z, Digit(n % 10), |z|);
    }
  }

  lemma {:induction false} FormatParse(z: string, k: nat)
    requires 0 < k <= |z| && AllDigits(z)
    ensures FormatUint(Decimal(z, k)) == z[..k] <==> (k == 1 || z[0] != '0')
    ensures z[0] != '0' ==> Decimal(z, k) > 0
  {
    if k == 1 {
      assert Decimal(z, 0) == 0;
      assert FormatUint(Decimal(z, 1)) == [z[0]];
      assert z[..1] == [z[0]];
    } else {
      var rest := Decimal(z, k - 1);
      FormatParse(z, k - 1);
      assert z[..k] == z[..k - 1] + [z[k - 1]];
      var n := Decimal(z, k);
      assert n == 10 * rest + (z[k - 1] - '0') as nat;
      if z[0] != '0' {
        assert FormatUint(n) == FormatUint(rest) + [z[k - 1]];
      } else if FormatUint(n) == z[..k] {
        NoLeadingZero(n);
      }
    }
  }

  lemma {:induction false} NoLeadingZero(n: nat)
    ensures |FormatUint(n)| > 1 ==> FormatUint(n)[0] != '0'
  {
    if n >= 10 {
      NoLeadingZero(n / 10);
    }
  }

  /** The zone as it survives the four bytes kept for it. */
  function CanonicalZone(z: string): string {
    match ParseUint32(z)
    case Some(n) => if n == 0 then "" else FormatUint(n)
    case None => ""
  }

  /** A zone is kept as the number it is in decimal, if that is between 1 and 2^32-1, and dropped if it is
      anything else. */
  lemma ZoneValue(z: string)
    ensures var isNumber := z != "" && AllDigits(z) && Decimal(z, |z|) < 0x1_0000_0000;
      && Scope(z) == (if isNumber then Decimal(z, |z|) else 0)
      && CanonicalZone(z) == (if isNumber && Decimal(z, |z|) > 0 then FormatUint(Decimal(z, |z|)) else "")
  {
  }

  lemma ZoneExamples()
    ensures CanonicalZone("eth0") == "" && CanonicalZone("0") == ""
    ensures CanonicalZone("10") == "10" && Scope("10") == 10
  {
    assert !AllDigits("eth0") by { assert "eth0"[0] == 'e'; }
    assert Decimal("0", 1) == 0;
    assert Decimal("10", 2) == 10 && FormatUint(10) == "10";
  }

  /** Exactly the empty zone and the decimal numbers 1 to 2^32-1 without leading zeros survive as they
      are; canonicalising twice changes nothing more. */
  lemma ZonesThatSurvive(z: string)
    ensures CanonicalZone(z) == z <==> z == "" || (AllDigits(z) && z[0] != '0' && Decimal(z, |z|) < 0x1_0000_0000)
    ensures CanonicalZone(CanonicalZone(z)) == CanonicalZone(z)
  {
    if z != "" && AllDigits(z) {
      FormatParse(z, |z|);
      assert z[..|z|] == z;
      if z[0] == '0' && |z| == 1 {
        assert Decimal(z, 0) == 0;
      }
      ParseFormat(Decimal(z, |z|));
    }
  }

  // ---------------------------------------------------------------- the 28 bytes

  type Raw = d: seq<Byte> | |d| == SIZE witness seq(SIZE, _ => 0)

  function Zeros(n: nat): seq<Byte> {
    seq(n, _ => 0)
  }

  function Scope(zone: string): Long {
    match ParseUint32(zone)
    case Some(n) => n
    case None => 0
  }

  /** The bytes after SetAddrPort. The IPv4 layout is 16 bytes long and leaves the rest as they were. */
  function Encoded(prior: Raw, ap: AddrPort): Raw
    requires WellFormed(ap.addr)
  {
    match ap.addr
    case NoAddr => prior
    case Addr4(b) => Bytes2(AF_INET) + Bytes2(Htons(ap.port)) + b + Zeros(8) + prior[16..]
    case Addr6(b, zone) => Bytes2(AF_INET6) + Bytes2(Htons(ap.port)) + Zeros(4) + b + Bytes4(Scope(zone))
  }

  function Family(d: Raw): Word {
    Word2(d[0], d[1])
  }

  function AddrOf(d: Raw): (a: Addr)
    ensures WellFormed(a)
  {
    if Family(d) == AF_INET then Addr4(d[4..8])
    else if Family(d) == AF_INET6 then
      var scope := Long4(d[24], d[25], d[26], d[27]);
      Addr6(d[8..24], if scope != 0 then FormatUint(scope) else "")
    else NoAddr
  }

  function PortOf(d: Raw): Word {
    if Family(d) == AF_INET || Family(d) == AF_INET6 then Ntohs(Word2(d[2], d[3])) else 0
  }

  function Canonical(a: Addr): Addr {
    match a
    case Addr6(b, zone) => Addr6(b, CanonicalZone(zone))
    case _ => a
  }

  lemma PortIsBigEndian(port: Word)
    ensures Bytes2(Htons(port)) == [(port / 256) as Byte, (port % 256) as Byte]
  {
    var hi, lo := port / 256, port % 256;
    assert Htons(port) == hi + 256 * lo;
    assert (hi + 256 * lo) % 256 == hi && (hi + 256 * lo) / 256 == lo;
  }

  lemma Layout4(prior: Raw, b: seq<Byte>, port: Word)
    requires |b| == 4
    ensures var d := Encoded(prior, AddrPort(Addr4(b), port));
      d[0] == 2 && d[1] == 0 && d[2..4] == Bytes2(Htons(port)) && d[4..8] == b && d[8..16] == Zeros(8)
      && d[16..] == prior[16..]
  {
  }

  lemma Layout6(prior: Raw, b: seq<Byte>, zone: string, port: Word)
    requires |b| == 16
    ensures var d := Encoded(prior, AddrPort(Addr6(b, zone), port));
      d[0] == 23 && d[1] == 0 && d[2..4] == Bytes2(Htons(port)) && d[4..8] == Zeros(4) && d[8..24] == b
      && d[24..] == Bytes4(Scope(zone))
  {
  }

  /** The layout that the system expects: family little-endian, port big-endian, then the address; the
      rest is zero, but for the scope, little-endian, and for what an IPv4 address leaves untouched. */
  lemma Layout(prior: Raw, ap: AddrPort)
    requires WellFormed(ap.addr) && ap.addr != NoAddr
    ensures var d := Encoded(prior, ap);
      && d[1] == 0 && d[2..4] == [(ap.port / 256) as Byte, (ap.port % 256) as Byte]
      && (ap.addr.Addr4? ==> d[0] == 2 && d[4..8] == ap.addr.bytes && d[8..16] == Zeros(8) && d[16..] == prior[16..])
      && (ap.addr.Addr6? ==> d[0] == 23 && d[4..8] == Zeros(4) && d[8..24] == ap.addr.bytes
                             && d[24..] == Bytes4(Scope(ap.addr.zone)))
  {
    PortIsBigEndian(ap.port);
    match ap.addr {
      case Addr4(b) => Layout4(prior, b, ap.port);
      case Addr6(b, zone) => Layout6(prior, b, zone, ap.port);
    }
  }

  /** Whatever was in the 28 bytes before: what is read back is what was set, with the zone in its
      canonical form. */
  lemma RoundTrip(prior: Raw, ap: AddrPort)
    requires WellFormed(ap.addr) && ap.addr != NoAddr
    ensures AddrOf(Encoded(prior, ap)) == Canonical(ap.addr) && PortOf(Encoded(prior, ap)) == ap.port
  {
    var d := Encoded(prior, ap);
    HtonsInverse(ap.port);
    Bytes2Inverse(Htons(ap.port));
    Bytes2Inverse(AF_INET);
    Bytes2Inverse(AF_INET6);
    assert d[2] == Bytes2(Htons(ap.port))[0] && d[3] == Bytes2(Htons(ap.port))[1];
    match ap.addr {
      case Addr4(b) =>
        assert d[0] == Bytes2(AF_INET)[0] && d[1] == Bytes2(AF_INET)[1];
        assert d[4..8] == b;
      case Addr6(b, zone) =>
        assert d[0] == Bytes2(AF_INET6)[0] && d[1] == Bytes2(AF_INET6)[1];
        assert d[8..24] == b;
        var s := Bytes4(Scope(zone));
        Bytes4Inverse(Scope(zone));
        assert d[24] == s[0] && d[25] == s[1] && d[26] == s[2] && d[27] == s[3];
    }
  }

  /** The round trip is exact just when the zone survives. */
  lemma ExactRoundTrip(prior: Raw, ap: AddrPort)
    requires WellFormed(ap.addr) && ap.addr != NoAddr
    ensures AddrPort(AddrOf(Encoded(prior, ap)), PortOf(Encoded(prior, ap))) == ap
       <==> (ap.addr.Addr6? ==> ap.addr.zone == "" || (AllDigits(ap.addr.zone) && ap.addr.zone[0] != '0'
                                                       && Decimal(ap.addr.zone, |ap.addr.zone|) < 0x1_0000_0000))
  {
    RoundTrip(prior, ap);
    if ap.addr.Addr6? {
      ZonesThatSurvive(ap.addr.zone);
    }
  }

  /** Bytes of any other family hold no address, no port and no prefix. */
  lemma OtherFamilies(d: Raw, length: Byte)
    requires !(d[1] == 0 && (d[0] == 2 || d[0] == 23))
    ensures AddrOf(d) == NoAddr && PortOf(d) == 0 && PrefixOf(d, length).addr == NoAddr
  {
  }

  class RawSockaddrInet {
    const data: array<Byte>

    ghost predicate Valid()
    {
      data.Length == SIZE
    }

    ghost function Bytes(): Raw
      requires Valid()
      reads data
    {
      data[..]
    }

    constructor ()
      ensures Valid() && fresh(data)
    {
      data := new Byte[SIZE](_ => 0);
    }

    method WriteWord(at: nat, w: Word)
      requires Valid() && at + 2 <= SIZE
      modifies data
      ensures data[at] == Bytes2(w)[0] && data[at + 1] == Bytes2(w)[1]
      ensures forall j | 0 <= j < SIZE && !(at <= j < at + 2) :: data[j] == old(data[j])
    {
      data[at] := (w % 256) as Byte;
      data[at + 1] := (w / 256) as Byte;
    }

    method WriteBytes(at: nat, b: seq<Byte>)
      requires Valid() && at + |b| <= SIZE
      modifies data
      ensures data[at..at + |b|] == b
      ensures forall j | 0 <= j < SIZE && !(at <= j < at + |b|) :: data[j] == old(data[j])
    {
      for i := 0 to |b|
        invariant data[at..at + i] == b[..i]
        invariant forall j | 0 <= j < SIZE && !(at <= j < at + i) :: data[j] == old(data[j])
      {
        data[at + i] := b[i];
      }
    }

    method SetAddrPort(ap: AddrPort) returns (error: Option<Error>)
      requires Valid() && WellFormed(ap.addr)
      modifies data
      ensures error.Some? <==> ap.addr == NoAddr
      ensures Bytes() == Encoded(old(Bytes()), ap)
    {
      match ap.addr {
        case Addr4(b) =>
          Set4(b, ap.port);
          return None;
        case Addr6(b, zone) =>
          Set6(b, zone, ap.port);
          return None;
        case NoAddr =>
          return Some(InvalidParameter);
      }
    }

    /** The IPv4 branch of SetAddrPort. */
    method Set4(b: seq<Byte>, port: Word)
      requires Valid() && |b| == 4
      modifies data
      ensures Bytes() == Encoded(old(Bytes()), AddrPort(Addr4(b), port))
    {
      WriteWord(0, AF_INET);
      WriteBytes(4, b);
      WriteWord(2, Htons(port));
      for i := 0 to 8
        invariant data[..2] == Bytes2(AF_INET) && data[2..4] == Bytes2(Htons(port)) && data[4..8] == b
        invariant forall j | 8 <= j < 8 + i :: data[j] == 0
        invariant forall j | 16 <= j < SIZE :: data[j] == old(data[j])
      {
        data[8 + i] := 0;
      }
      assert Bytes() == data[..2] + data[2..4] + data[4..8] + data[8..16] + data[16..];
      assert data[8..16] == Zeros(8);
      assert data[16..] == old(Bytes())[16..];
    }

    /** The IPv6 branch of SetAddrPort. */
    method Set6(b: seq<Byte>, zone: string, port: Word)
      requires Valid() && |b| == 16
      modifies data
      ensures Bytes() == Encoded(old(Bytes()), AddrPort(Addr6(b, zone), port))
    {
      WriteWord(0, AF_INET6);
      WriteBytes(8, b);
      WriteWord(2, Htons(port));
      WriteBytes(4, Zeros(4));
      var scope := 0;
      if zone != "" {
        var parsed := ParseUint32(zone);
        if parsed.Some? {
          scope := parsed.value;
        }
      }
      WriteBytes(24, Bytes4(scope));
      assert data[..2] == Bytes2(AF_INET6) && data[2..4] == Bytes2(Htons(port)) && data[4..8] == Zeros(4);
      assert data[8..24] == b && data[24..] == Bytes4(scope);
      assert Bytes() == data[..2] + data[2..4] + data[4..8] + data[8..24] + data[24..];
    }

    method SetAddr(a: Addr) returns (error: Option<Error>)
      requires Valid() && WellFormed(a)
      modifies data
      ensures error.Some? <==> a == NoAddr
      ensures Bytes() == Encoded(old(Bytes()), AddrPort(a, 0))
    {
      error := SetAddrPort(AddrPort(a, 0));
    }
  }

  // ---------------------------------------------------------------- prefixes

  /** netip.Prefix; bits is -1 for an invalid length. */
  datatype NetPrefix = NetPrefix(addr: Addr, bits: int)

  function BitLen(a: Addr): int {
    match a
    case NoAddr => -1
    case Addr4(_) => 32
    case Addr6(_, _) => 128
  }

  function WithoutZone(a: Addr): Addr {
    match a
    case Addr6(b, _) => Addr6(b, "")
    case _ => a
  }

  /** netip.PrefixFrom. */
  function PrefixFrom(a: Addr, bits: int): NetPrefix {
    NetPrefix(WithoutZone(a), if 0 <= bits <= BitLen(a) then bits else -1)
  }

  /** Every prefix that netip can hold is made by PrefixFrom. */
  ghost predicate IsNetPrefix(p: NetPrefix) {
    WellFormed(p.addr) && p == PrefixFrom(p.addr, p.bits)
  }

  /** Go's uint8 of a length. */
  function LengthByte(bits: int): Byte {
    (bits % 256) as Byte
  }

  function PrefixOf(d: Raw, length: Byte): NetPrefix {
    if Family(d) == AF_INET then PrefixFrom(Addr4(d[4..8]), length as int)
    else if Family(d) == AF_INET6 then PrefixFrom(Addr6(d[8..24], ""), length as int)
    else NetPrefix(NoAddr, -1)
  }

  class IPAddressPrefix {
    const rawPrefix: RawSockaddrInet
    var prefixLength: Byte

    constructor (rawPrefix: RawSockaddrInet)
      ensures this.rawPrefix == rawPrefix
    {
      this.rawPrefix := rawPrefix;
      prefixLength := 0;
    }

    function Prefix(): NetPrefix
      requires rawPrefix.Valid()
      reads this, rawPrefix.data
    {
      PrefixOf(rawPrefix.data[..], prefixLength)
    }

    /** Setting and reading back a prefix is the identity, for every prior content and every prefix with
        a valid address, one of invalid length included. */
    method SetPrefix(p: NetPrefix) returns (error: Option<Error>)
      requires rawPrefix.Valid() && IsNetPrefix(p)
      modifies this, rawPrefix.data
      ensures error.Some? <==> p.addr == NoAddr
      ensures error.None? ==> Prefix() == p
      ensures error.Some? ==> rawPrefix.Bytes() == old(rawPrefix.Bytes()) && prefixLength == old(prefixLength)
    {
      ghost var prior := rawPrefix.Bytes();
      error := rawPrefix.SetAddr(p.addr);
      if error.Some? {
        return;
      }
      prefixLength := LengthByte(p.bits);
      PrefixRoundTrip(prior, p);
    }
  }

  /** Prefix reads the address that Addr reads, without its zone. */
  lemma PrefixOfAddr(d: Raw, length: Byte)
    ensures PrefixOf(d, length) == PrefixFrom(AddrOf(d), length as int)
  {
  }

  /** The byte kept for a length gives the length back, an invalid one as 255. */
  lemma LengthSurvives(p: NetPrefix)
    requires IsNetPrefix(p)
    ensures PrefixFrom(p.addr, LengthByte(p.bits) as int) == p
  {
    if p.bits == -1 {
      assert LengthByte(p.bits) == 255;
    } else {
      assert 0 <= p.bits <= 128;
    }
  }

  lemma PrefixRoundTrip(prior: Raw, p: NetPrefix)
    requires IsNetPrefix(p) && p.addr != NoAddr
    ensures PrefixOf(Encoded(prior, AddrPort(p.addr, 0)), LengthByte(p.bits)) == p
  {
    RoundTrip(prior, AddrPort(p.addr, 0));
    assert Canonical(p.addr) == p.addr;
    PrefixOfAddr(Encoded(prior, AddrPort(p.addr, 0)), LengthByte(p.bits));
    LengthSurvives(p);
  }
}
