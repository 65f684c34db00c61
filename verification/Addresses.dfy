/** IP addresses, prefixes and the keys clients are tracked by (abuse.go, ranges.go). */
module Addresses {
  import opened Results

  const V4_SIZE := 0x1_0000_0000
  const HALF := 0x1_0000_0000_0000_0000
  const V6_SIZE := HALF * HALF

  type Bits32 = n: nat | n < 0x1_0000_0000
  type Bits128 = n: nat | n < 0x1_0000_0000_0000_0000 * 0x1_0000_0000_0000_0000

  datatype Addr = V4(v4: Bits32) | V6(v6: Bits128)

  datatype Prefix = Prefix(addr: Addr, bits: nat)

  function Width(a: Addr): nat { if a.V4? then 32 else 128 }

  function Value(a: Addr): nat { if a.V4? then a.v4 else a.v6 }

  function Like(a: Addr, n: nat): (b: Addr)
    requires n <= Value(a)
    ensures Value(b) == n && b.V4? == a.V4?
  {
    if a.V4? then V4(n) else V6(n)
  }

  /** ::ffff:0:0/96 holds the IPv4 addresses. */
  predicate Is4In6(a: Addr) {
    a.V6? && a.v6 / V4_SIZE == 0xFFFF
  }

  function Unmap(a: Addr): Addr {
    if Is4In6(a) then V4(a.v6 % V4_SIZE) else a
  }

  predicate WellFormed(p: Prefix) { p.bits <= Width(p.addr) }

  /** n without its k lowest bits. */
  function High(n: nat, k: nat): nat
    decreases k
  {
    if k == 0 then n else High(n / 2, k - 1)
  }

  /** n with k zero bits appended. */
  function Shl(n: nat, k: nat): (m: nat)
    ensures m >= n
  {
    if k == 0 then n else 2 * Shl(n, k - 1)
  }

  function Masked(p: Prefix): (m: Prefix)
    requires WellFormed(p)
    ensures WellFormed(m) && m.bits == p.bits
  {
    var k := Width(p.addr) - p.bits;
    MaskSmaller(Value(p.addr), k);
    Prefix(Like(p.addr, Shl(High(Value(p.addr), k), k)), p.bits)
  }

  predicate Contains(p: Prefix, a: Addr) {
    && WellFormed(p) && p.addr.V4? == a.V4?
    && High(Value(a), Width(a) - p.bits) == High(Value(p.addr), Width(a) - p.bits)
  }

  lemma {:induction false} MaskSmaller(n: nat, k: nat)
    ensures Shl(High(n, k), k) <= n
  {
    if k > 0 {
      MaskSmaller(n / 2, k - 1);
    }
  }

  lemma {:induction false} HighOfShl(m: nat, k: nat)
    ensures High(Shl(m, k), k) == m
  {
    if k > 0 {
      HighOfShl(m, k - 1);
    }
  }

  lemma {:induction false} HighTwice(n: nat, j: nat, k: nat)
    ensures High(n, j + k) == High(High(n, j), k)
    decreases j
  {
    if j > 0 {
      HighTwice(n / 2, j - 1, k);
    }
  }

  lemma HighByFour(n: nat)
    ensures High(n, 4) == n / 16
  {
    assert High(n, 4) == High(n / 2, 3) == High(n / 2 / 2, 2) == High(n / 2 / 2 / 2, 1) == High(n / 2 / 2 / 2 / 2, 0);
  }

  /** Dropping 32 or 64 bits is dividing by 2^32 or 2^64. */
  lemma HighByWord(n: nat)
    ensures High(n, 32) == n / V4_SIZE && High(n, 64) == n / HALF
  {
    hide High;
    Drop32(n);
    Drop32(n / V4_SIZE);
    HighTwice(n, 32, 32);
  }

  lemma Drop32(n: nat)
    ensures High(n, 32) == n / V4_SIZE
  {
    hide High;
    Drop16(n);
    Drop16(n / 0x1_0000);
    HighTwice(n, 16, 16);
  }

  lemma Drop16(n: nat)
    ensures High(n, 16) == n / 0x1_0000
  {
    hide High;
    HighByFour(n);
    HighByFour(n / 16);
    HighByFour(n / 256);
    HighByFour(n / 4096);
    HighTwice(n, 4, 4);
    HighTwice(n, 8, 4);
    HighTwice(n, 12, 4);
  }

  /** The registry key: the address itself for IPv4, the /64 for IPv6. */
  function KeyOf(ip: Addr): Addr {
    var ip := Unmap(ip);
    if ip.V6? then V6(ip.v6 / HALF * HALF) else ip
  }

  function KeyPrefix(k: Addr): Prefix {
    Prefix(k, if k.V6? then 64 else 32)
  }

  /** A key's prefix covers exactly the addresses tracked under it. */
  lemma KeyCovers(ip: Addr, other: Addr)
    ensures Contains(KeyPrefix(KeyOf(ip)), Unmap(other)) <==> KeyOf(other) == KeyOf(ip)
  {
    var k := KeyOf(ip);
    var a := Unmap(other);
    HighByWord(Value(k));
    HighByWord(Value(a));
    if k.V4? && a.V4? {
      assert High(k.v4, 0) == k.v4 && High(a.v4, 0) == a.v4;
    }
  }

  lemma KeyOfKey(ip: Addr)
    ensures KeyOf(KeyOf(ip)) == KeyOf(ip)
  {
  }

  // ----- shards -----

  const SHARDS := 64

  /** Exclusive or, bit by bit. */
  function Xor(a: nat, b: nat): nat
    decreases a
  {
    if a == 0 then b
    else if b == 0 then a
    else (if a % 2 == b % 2 then 0 else 1) + 2 * Xor(a / 2, b / 2)
  }

  function XorAll(bytes: seq<nat>): nat {
    if bytes == [] then 0 else Xor(bytes[0], XorAll(bytes[1..]))
  }

  /** The bytes of a 32-bit word, lowest first. */
  function BytesOf(w: nat): seq<nat> {
    [w % 256, w / 0x100 % 256, w / 0x1_0000 % 256, w / 0x100_0000 % 256]
  }

  /** Bytes 4 to 7 and 12 to 15 of the 16-byte form, exclusive-ored, modulo the number of shards. */
  function Shard(k: Addr): (i: nat)
    ensures i < SHARDS
  {
    var high := if k.V6? then k.v6 / HALF % V4_SIZE else 0;
    XorAll(BytesOf(high) + BytesOf(Value(k) % V4_SIZE)) % SHARDS
  }

  // ----- what an administrator may ban -----

  datatype Target = Target(prefix: Prefix, single: bool)

  const MIN_RANGE_V4 := 8
  const MIN_RANGE_V6 := 16

  /** A parsed address or block, normalised: mapped IPv4 blocks become IPv4, host bits are masked, one client
    * is an IPv4 /32 or an IPv6 /64 or narrower, and too broad a block is refused. */
  function TargetOf(p: Prefix): (t: Result<Target>)
    ensures t.Ok? ==> WellFormed(t.value.prefix)
  {
    if !WellFormed(p) then Err("client must be an IP address or a CIDR range")
    else
      var q := if Is4In6(p.addr) && p.bits >= 96 then Prefix(Unmap(p.addr), p.bits - 96) else p;
      var m := Masked(q);
      if m.addr.V4? then
        if m.bits != 32 && m.bits < MIN_RANGE_V4 then Err("range is too broad") else Ok(Target(m, m.bits == 32))
      else if m.bits < MIN_RANGE_V6 then Err("range is too broad")
      else Ok(Target(m, m.bits >= 64))
  }

  /** Every address the ban covers. */
  function Scope(t: Target): Prefix {
    if t.single then KeyPrefix(KeyOf(t.prefix.addr)) else t.prefix
  }

  /** Parsing the printed form of a key gives a single client with that key. */
  lemma KeyReadsBack(ip: Addr)
    ensures TargetOf(KeyPrefix(KeyOf(ip))).Ok?
    ensures var t := TargetOf(KeyPrefix(KeyOf(ip))).value;
            t.single && KeyOf(t.prefix.addr) == KeyOf(ip) && t.prefix.addr == KeyOf(ip)
  {
    hide High, Shl;
    var k := KeyOf(ip);
    KeyOfKey(ip);
    MaskedKey(k);
  }

  lemma MaskedKey(k: Addr)
    requires KeyOf(k) == k
    ensures Masked(KeyPrefix(k)) == KeyPrefix(k)
  {
    hide High, Shl;
    if k.V6? {
      HighByWord(k.v6);
      ShlByWord(k.v6 / HALF);
    } else {
      NoBits(k.v4);
    }
  }

  lemma NoBits(n: nat)
    ensures High(n, 0) == n && Shl(n, 0) == n
  {
  }

  lemma {:induction false} ShlTwice(n: nat, j: nat, k: nat)
    ensures Shl(n, j + k) == Shl(Shl(n, j), k)
    decreases k
  {
    if k > 0 {
      ShlTwice(n, j, k - 1);
    }
  }

  lemma ShlByFour(n: nat)
    ensures Shl(n, 4) == 16 * n
  {
    assert Shl(n, 4) == 2 * Shl(n, 3) && Shl(n, 3) == 2 * Shl(n, 2) && Shl(n, 2) == 2 * Shl(n, 1);
  }

  lemma ShlBy16(n: nat)
    ensures Shl(n, 16) == 0x1_0000 * n
  {
    hide Shl;
    ShlByFour(n);
    ShlByFour(16 * n);
    ShlByFour(256 * n);
    ShlByFour(4096 * n);
    ShlTwice(n, 4, 4);
    ShlTwice(n, 8, 4);
    ShlTwice(n, 12, 4);
  }

  lemma ShlByWord(n: nat)
    ensures Shl(n, 32) == V4_SIZE * n && Shl(n, 64) == HALF * n
  {
    hide Shl;
    ShlBy16(n);
    ShlBy16(0x1_0000 * n);
    ShlTwice(n, 16, 16);
    ShlBy16(V4_SIZE * n);
    ShlBy16(0x1_0000 * V4_SIZE * n);
    ShlTwice(n, 32, 16);
    ShlTwice(n, 48, 16);
  }

  /** Normalising twice is normalising once. */
  lemma TargetStable(p: Prefix)
    requires TargetOf(p).Ok?
    ensures TargetOf(TargetOf(p).value.prefix) == TargetOf(p)
  {
    hide High, Shl;
    var q := if Is4In6(p.addr) && p.bits >= 96 then Prefix(Unmap(p.addr), p.bits - 96) else p;
    var m := Masked(q);
    var k := Width(q.addr) - q.bits;
    HighOfShl(High(Value(q.addr), k), k);
    assert Masked(m) == m;
    if m.addr.V6? && m.bits >= 96 {
      MaskKeepsHigh(q.addr.v6, k);
    }
  }

  /** Masking at most 32 low bits leaves the bits above them. */
  lemma MaskKeepsHigh(n: nat, k: nat)
    requires k <= 32
    ensures Shl(High(n, k), k) / V4_SIZE == n / V4_SIZE
  {
    hide High, Shl;
    var m := Shl(High(n, k), k);
    HighOfShl(High(n, k), k);
    HighTwice(n, k, 32 - k);
    HighTwice(m, k, 32 - k);
    HighByWord(n);
    HighByWord(m);
  }

  /** Normalising keeps the block: for every address written the way the block is, membership is the same. */
  lemma TargetKeepsBlock(p: Prefix, a: Addr)
    requires TargetOf(p).Ok? && (Is4In6(p.addr) && p.bits >= 96 ==> Is4In6(a))
    ensures Contains(p, a) <==>
            Contains(TargetOf(p).value.prefix, if Is4In6(p.addr) && p.bits >= 96 then Unmap(a) else a)
  {
    hide High, Shl;
    var q := if Is4In6(p.addr) && p.bits >= 96 then Prefix(Unmap(p.addr), p.bits - 96) else p;
    var k := Width(q.addr) - q.bits;
    HighOfShl(High(Value(q.addr), k), k);
    if q != p {
      MappedBlock(p.addr.v6, a.v6, k);
    }
  }

  /** Mapped addresses agree above their k lowest bits exactly when the IPv4 addresses do. */
  lemma MappedBlock(n: nat, m: nat, k: nat)
    requires n / V4_SIZE == 0xFFFF && m / V4_SIZE == 0xFFFF && k <= 32
    ensures High(n, k) == High(m, k) <==> High(n % V4_SIZE, k) == High(m % V4_SIZE, k)
  {
    hide High, Shl;
    ShlByWord(0xFFFF);
    HighOfSum(0xFFFF, n % V4_SIZE, 32, k);
    HighOfSum(0xFFFF, m % V4_SIZE, 32, k);
  }

  lemma {:induction false} HighOfSum(c: nat, low: nat, j: nat, k: nat)
    requires k <= j
    ensures High(Shl(c, j) + low, k) == Shl(c, j - k) + High(low, k)
    decreases k
  {
    if k > 0 {
      assert (2 * Shl(c, j - 1) + low) / 2 == Shl(c, j - 1) + low / 2;
      HighOfSum(c, low / 2, j - 1, k - 1);
    }
  }
}
