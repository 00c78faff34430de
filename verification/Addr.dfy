/** IPv4 addresses and prefixes: the part of net/netip the allocators rely on.
    An address is its big-endian value; `As4` and `From4` are the four-octet view. */
module Addr {

  const ADDR_SPACE: int := 0x1_0000_0000

  type Addr = a: int | 0 <= a < ADDR_SPACE

  type Octet = b: int | 0 <= b < 0x100

  function From4(b: seq<Octet>): (a: Addr)
    requires |b| == 4
  {
    b[0] as int * 0x100_0000 + b[1] as int * 0x1_0000 + b[2] as int * 0x100 + b[3] as int
  }

  function As4(a: Addr): (b: seq<Octet>)
    ensures |b| == 4
  {
    [a / 0x100_0000, a / 0x1_0000 % 0x100, a / 0x100 % 0x100, a % 0x100]
  }

  lemma FromAs4(a: Addr)
    ensures From4(As4(a)) == a
  {
    var x, y, z := a / 0x100, a / 0x1_0000, a / 0x100_0000;
    NestedDigits(a);
    assert a == x * 0x100 + a % 0x100;
  }

  lemma NestedDigits(a: Addr)
    ensures a / 0x100 == a / 0x1_0000 * 0x100 + a / 0x100 % 0x100
    ensures a / 0x1_0000 == a / 0x100_0000 * 0x100 + a / 0x1_0000 % 0x100
  {
  }

  lemma AsFrom4(b: seq<Octet>)
    requires |b| == 4
    ensures As4(From4(b)) == b
  {
    var high, low := b[0] as int * 0x100 + b[1], b[2] as int * 0x100 + b[3];
    DivModUnique(From4(b), 0x1_0000, high, low);
    DivModUnique(From4(b), 0x100, high * 0x100 + b[2], b[3]);
    DivModUnique(From4(b), 0x100_0000, b[0], b[1] as int * 0x1_0000 + low);
    DivModUnique(high, 0x100, b[0], b[1]);
    DivModUnique(high * 0x100 + b[2], 0x100, high, b[2]);
  }

  function Pow2(n: nat): (p: nat)
    ensures p >= 1
  {
    if n == 0 then 1 else 2 * Pow2(n - 1)
  }

  lemma Pow2Add(m: nat, n: nat)
    ensures Pow2(m + n) == Pow2(m) * Pow2(n)
  {
    if m == 0 {
    } else {
      Pow2Add(m - 1, n);
      assert Pow2(m + n) == 2 * (Pow2(m - 1) * Pow2(n));
    }
  }

  lemma Pow2Values()
    ensures Pow2(1) == 2 && Pow2(2) == 4 && Pow2(3) == 8 && Pow2(4) == 16
    ensures Pow2(5) == 32 && Pow2(6) == 64 && Pow2(7) == 128 && Pow2(8) == 0x100
    ensures Pow2(16) == 0x1_0000 && Pow2(24) == 0x100_0000 && Pow2(32) == ADDR_SPACE
  {
    Pow2Add(8, 8);
    Pow2Add(8, 16);
    Pow2Add(16, 16);
  }

  /** A CIDR as parsed: the address is kept unmasked. */
  datatype RawPrefix = Prefix(addr: Addr, bits: int)

  type Prefix = p: RawPrefix | 0 <= p.bits <= 32 witness Prefix(0, 0)

  function Size(p: Prefix): (s: nat)
    ensures s >= 1
  {
    Pow2(32 - p.bits)
  }

  predicate Contains(p: Prefix, a: Addr) {
    a / Size(p) == p.addr / Size(p)
  }

  function Masked(p: Prefix): (a: Addr)
    ensures a <= p.addr
  {
    DivModBound(p.addr, Size(p));
    p.addr / Size(p) * Size(p)
  }

  predicate IsMasked(p: Prefix) {
    Masked(p) == p.addr
  }

  lemma DivModBound(x: nat, d: nat)
    requires d >= 1
    ensures 0 <= x / d * d <= x < x / d * d + d
  {
    assert x == x / d * d + x % d;
  }

  lemma MulMono(m: int, n: int, d: nat)
    requires m <= n
    ensures m * d <= n * d
  {
    assert n * d == m * d + (n - m) * d;
  }

  lemma QuotientUnique(d: nat, q: int, r: nat, q': int, r': nat)
    requires r < d && r' < d && q * d + r == q' * d + r'
    ensures q == q' && r == r'
  {
    assert (q + 1) * d == q * d + d && (q' + 1) * d == q' * d + d;
    if q < q' {
      MulMono(q + 1, q', d);
    } else if q' < q {
      MulMono(q' + 1, q, d);
    }
  }

  lemma DivModUnique(x: nat, d: nat, q: nat, r: nat)
    requires r < d && x == q * d + r
    ensures x / d == q && x % d == r
  {
    assert x == x / d * d + x % d;
    QuotientUnique(d, q, r, x / d, x % d);
  }

  lemma SizeTimesBlocks(p: Prefix)
    ensures Pow2(p.bits) * Size(p) == ADDR_SPACE
  {
    Pow2Values();
    Pow2Add(p.bits, 32 - p.bits);
  }

  lemma SizeIsAtMostHalf(p: Prefix)
    requires p.bits >= 1
    ensures 2 * Size(p) <= ADDR_SPACE
  {
    SizeTimesBlocks(p);
    MulMono(2, Pow2(p.bits), Size(p));
  }

  /** A prefix is the block of `Size` consecutive addresses from its network address on. */
  lemma ContainsIsABlock(p: Prefix, a: Addr)
    ensures Contains(p, a) <==> Masked(p) <= a < Masked(p) + Size(p)
    ensures Masked(p) + Size(p) <= ADDR_SPACE
  {
    var s, q := Size(p), p.addr / Size(p);
    DivModBound(a, s);
    DivModBound(p.addr, s);
    if Masked(p) <= a < Masked(p) + s {
      DivModUnique(a, s, q, a - q * s);
    }
    SizeTimesBlocks(p);
    BlockFits(q, Pow2(p.bits), s);
  }

  /** A block that starts below the end of all blocks ends there or before. */
  lemma BlockFits(q: nat, blocks: nat, s: nat)
    requires q * s < blocks * s
    ensures q * s + s <= blocks * s
  {
    if q >= blocks {
      MulMono(blocks, q, s);
    } else {
      MulMono(q + 1, blocks, s);
      assert (q + 1) * s == q * s + s;
    }
  }
}
