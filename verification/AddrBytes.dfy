/** The octet loops of the relay allocator: `nextAddr` carries a one through the four octets,
    `broadcastAddr` sets the host bits one at a time. Both are proved against arithmetic on the value. */
module AddrBytes {
  import opened Addr

  /** `b |= w` for a one-bit mask `w`: the bit of weight `w` is added when it is not there yet. */
  function SetBit(b: int, w: nat): int
    requires w >= 1
  {
    if b / w % 2 == 1 then b else b + w
  }

  lemma EvenPlus(m: int, n: int)
    ensures (2 * m + n) % 2 == n % 2
  {}

  lemma MulDist(a: int, b: int, c: int)
    ensures (a + b) * c == a * c + b * c
  {}

  lemma MulAssoc(a: int, b: int, c: int)
    ensures a * b * c == a * (b * c)
  {}

  lemma MulSplit(m: nat, p: nat, k: nat)
    requires p >= 1
    ensures m * k == m / p * (p * k) + m % p * k
    ensures m % p * k + k <= p * k
  {
    var s, t := m / p, m % p;
    assert m == s * p + t;
    MulDist(s * p, t, k);
    MulAssoc(s, p, k);
    MulMono(t + 1, p, k);
    MulDist(t, 1, k);
  }

  lemma MulDouble(a: int, b: int)
    ensures a * (2 * b) == 2 * (a * b)
  {}

  lemma MulSwap(a: int, b: int)
    ensures a * b == b * a
  {}

  lemma SetBitInOctet(b: nat, p: nat, q: nat)
    requires p >= 1 && p * (2 * q) == 0x100 && b < 0x100
    ensures 0 <= SetBit(b, p) < 0x100
  {
    var g, s := b / p / 2, b / p;
    assert b == s * p + b % p;
    if s % 2 == 0 {
      assert s == 2 * g;
      MulSwap(p, 2 * q);
      MulAssoc(2, g, p);
      MulAssoc(2, q, p);
      BlockFits(g, q, p);
    }
  }

  /** The octets above the one with bit `p` hold an even number of units `d`. */
  lemma HighPart(hi: nat, p: nat, q: nat, k: nat, d: nat)
    requires p * (2 * q) == 0x100 && d == p * k
    ensures hi * (0x100 * k) == 2 * (hi * q) * d
  {
    MulSwap(p, 2 * q);
    MulAssoc(2 * q, p, k);
    assert 0x100 * k == (2 * q) * d;
    MulAssoc(hi, 2 * q, d);
    MulDouble(hi, q);
  }

  /** The bit of weight `d` is the last bit of the number of units `d`. */
  lemma SetBitOf(x: nat, d: nat, g: nat, s: nat, rest: nat)
    requires d >= 1 && rest < d && x == (2 * g + s) * d + rest
    ensures SetBit(x, d) == if s % 2 == 1 then x else x + d
  {
    DivModUnique(x, d, 2 * g + s, rest);
    EvenPlus(g, s);
  }

  /** Setting bit `p` of the octet `m` of weight `k` sets bit `p * k` of the whole value. */
  lemma SetBitAcross(hi: nat, m: nat, r: nat, p: nat, q: nat, k: nat, d: nat, x: nat)
    requires p >= 1 && d >= 1 && d == p * k && p * (2 * q) == 0x100 && r < k
    requires x == hi * (0x100 * k) + m * k + r
    ensures SetBit(x, d) == hi * (0x100 * k) + SetBit(m, p) * k + r
  {
    HighPart(hi, p, q, k, d);
    MulSplit(m, p, k);
    MulDist(2 * (hi * q), m / p, d);
    SetBitOf(x, d, hi * q, m / p, m % p * k + r);
    MulDist(m, p, k);
  }

  lemma SetBitInValue(b: seq<Octet>, i: nat)
    requires |b| == 4 && i < 32
    ensures 0 <= SetBit(b[i / 8], Pow2(7 - i % 8)) < 0x100
    ensures From4(b[i / 8 := SetBit(b[i / 8], Pow2(7 - i % 8))]) == SetBit(From4(b), Pow2(31 - i))
  {
    var j, k := i / 8, 7 - i % 8;
    BitWeights(j, k);
    SetBitInOctet(b[j], Pow2(k), Pow2(7 - k));
    SetBitAtOctet(b, j, Pow2(k), Pow2(7 - k), Pow2(31 - i));
  }

  /** Bit `k` of octet `j`, counted from the left, within its octet and within the value. */
  lemma BitWeights(j: nat, k: nat)
    requires j < 4 && k < 8
    ensures Pow2(k) * (2 * Pow2(7 - k)) == 0x100
    ensures Pow2(k + 8 * (3 - j))
         == Pow2(k) * (if j == 0 then 0x100_0000 else if j == 1 then 0x1_0000 else if j == 2 then 0x100 else 1)
  {
    Pow2Values();
    Pow2Add(k, 7 - k);
    MulDouble(Pow2(k), Pow2(7 - k));
    Pow2Add(k, 8 * (3 - j));
  }

  lemma SetBitAtOctet(b: seq<Octet>, j: nat, p: nat, q: nat, d: nat)
    requires |b| == 4 && j < 4 && p >= 1 && d >= 1 && p * (2 * q) == 0x100 && 0 <= SetBit(b[j], p) < 0x100
    requires d == p * (if j == 0 then 0x100_0000 else if j == 1 then 0x1_0000 else if j == 2 then 0x100 else 1)
    ensures From4(b[j := SetBit(b[j], p)]) == SetBit(From4(b), d)
  {
    var b0, b1, b2, b3 := b[0] as int, b[1] as int, b[2] as int, b[3] as int;
    if j == 0 {
      SetBitAcross(0, b0, b1 * 0x1_0000 + b2 * 0x100 + b3, p, q, 0x100_0000, d, From4(b));
    } else if j == 1 {
      SetBitAcross(b0, b1, b2 * 0x100 + b3, p, q, 0x1_0000, d, From4(b));
    } else if j == 2 {
      SetBitAcross(b0 * 0x100 + b1, b2, b3, p, q, 0x100, d, From4(b));
    } else {
      SetBitAcross(b0 * 0x1_0000 + b1 * 0x100 + b2, b3, 0, p, q, 1, d, From4(b));
    }
  }

  /** The value once the bits between weight `s` (exclusive) and weight `t` (inclusive) are set. */
  function Filled(a: nat, s: nat, t: nat): int
    requires s >= 1 && t >= 1
  {
    a / s * s + s - t + a % t
  }

  lemma DivModSplit(a: nat, d: nat)
    requires d >= 1
    ensures a == a / d * d + a % d && 0 <= a / d && 0 <= a % d < d
  {}

  /** `a` is `e` full digits of weight `2w` and a rest `c`, which holds at most one more `w`. */
  lemma HalfDigitOf(a: nat, e: nat, c: nat, w: nat) returns (bit: nat)
    requires w >= 1 && c < 2 * w && a == e * (2 * w) + c
    ensures bit <= 1 && bit == c / w && c == bit * w + c % w && a % w == c % w
  {
    bit := if c < w then 0 else 1;
    DivModUnique(c, w, bit, c - bit * w);
    MulAssoc(e, 2, w);
    MulDist(2 * e, bit, w);
    DivModUnique(a, w, 2 * e + bit, c - bit * w);
  }

  /** Setting the bit of weight `w` above an even number of them. */
  lemma SetHalf(base: nat, g: nat, bit: nat, r: nat, w: nat)
    requires w >= 1 && base == 2 * g * w && bit <= 1 && r < w
    ensures SetBit(base + bit * w + r, w) == base + w + r
  {
    MulDist(2 * g, bit, w);
    SetBitOf(base + bit * w + r, w, g, bit, r);
  }

  lemma FillStep(a: nat, s: nat, n: nat, w: nat)
    requires w >= 1 && n >= 1 && s == n * (2 * w)
    ensures SetBit(Filled(a, s, 2 * w), w) == Filled(a, s, w)
  {
    DivModSplit(a, 2 * w);
    FillRest(a / s, s, n, w, a % (2 * w));
    var bit := HalfDigitOf(a, a / (2 * w), a % (2 * w), w);
  }

  /** The same for any number of blocks and any rest. */
  lemma FillRest(blocks: nat, s: nat, n: nat, w: nat, c: nat)
    requires w >= 1 && n >= 1 && s == n * (2 * w) && c < 2 * w
    ensures blocks * s + s - 2 * w + c >= 0
    ensures SetBit(blocks * s + s - 2 * w + c, w) == blocks * s + s - w + c % w
  {
    var bit := HalfDigitOf(c, 0, c, w);
    FilledIsEven(s, n, w, blocks);
    EvenBaseIsNat(blocks, n, w);
    SetHalf(blocks * s + s - 2 * w, blocks * n + n - 1, bit, c % w, w);
  }

  lemma EvenBaseIsNat(blocks: nat, n: nat, w: nat)
    requires n >= 1
    ensures blocks * n + n - 1 >= 0 && 2 * (blocks * n + n - 1) * w >= 0
  {
    var m := blocks * n;
    assert m >= 0;
  }

  lemma FilledIsEven(s: nat, n: nat, w: nat, blocks: nat)
    requires s == n * (2 * w)
    ensures blocks * s + s - 2 * w == 2 * (blocks * n + n - 1) * w
  {
    var g := blocks * n + n - 1;
    MulAssoc(blocks, n, 2 * w);
    MulDist(blocks * n, n - 1, 2 * w);
    MulDist(n, -1, 2 * w);
    MulAssoc(g, 2, w);
  }

  /** The address with the bits from position `p.bits` up to `i` set. */
  function FilledTo(p: Prefix, i: nat): int
    requires p.bits <= i <= 32
  {
    Filled(p.addr, Size(p), Pow2(32 - i))
  }

  lemma FilledToStep(p: Prefix, i: nat)
    requires p.bits <= i < 32
    ensures SetBit(FilledTo(p, i), Pow2(31 - i)) == FilledTo(p, i + 1)
  {
    Pow2Add(i - p.bits, 32 - i);
    FillStep(p.addr, Size(p), Pow2(i - p.bits), Pow2(31 - i));
  }

  lemma FilledToEnds(p: Prefix)
    ensures FilledTo(p, p.bits) == p.addr && FilledTo(p, 32) == Broadcast(p)
  {
    assert p.addr == p.addr / Size(p) * Size(p) + p.addr % Size(p);
  }

  function Broadcast(p: Prefix): (a: Addr)
    ensures a == Masked(p) + Size(p) - 1
  {
    ContainsIsABlock(p, p.addr);
    Masked(p) + Size(p) - 1
  }

  /** `broadcastAddr`: sets the host bits of the prefix address in place, most significant first;
      the result is the last address of the block. */
  method BroadcastAddr(p: Prefix) returns (a: Addr)
    ensures a == Broadcast(p)
  {
    var octets := As4(p.addr);
    var addr := new Octet[4](j requires 0 <= j < 4 => octets[j]);
    FromAs4(p.addr);
    FilledToEnds(p);
    assert addr[..] == octets;
    for i := p.bits to 32
      invariant From4(addr[..]) == FilledTo(p, i)
    {
      FilledToStep(p, i);
      SetHostBit(addr, i);
    }
    a := From4(addr[..]);
  }

  /** One round of the loop of `broadcastAddr`. */
  method SetHostBit(addr: array<Octet>, i: nat)
    requires addr.Length == 4 && i < 32
    modifies addr
    ensures From4(addr[..]) == SetBit(old(From4(addr[..])), Pow2(31 - i))
  {
    var byteIdx, bitIdx := i / 8, 7 - i % 8;
    ghost var before := addr[..];
    SetBitInValue(before, i);
    addr[byteIdx] := SetBit(addr[byteIdx], Pow2(bitIdx));
    assert addr[..] == before[byteIdx := SetBit(before[byteIdx], Pow2(bitIdx))];
  }

  /** Octet-wise increment with carry, from octet `i` leftwards. */
  function Carry(b: seq<Octet>, i: int): (r: seq<Octet>)
    requires |b| == 4 && -1 <= i < 4
    ensures |r| == 4
    decreases i + 1
  {
    if i < 0 then b
    else
      var b' := b[i := (b[i] as int + 1) % 0x100];
      if b'[i] != 0 then b' else Carry(b', i - 1)
  }

  lemma CarryStep(b: seq<Octet>, i: nat)
    requires |b| == 4 && i < 4
    ensures Carry(b, i) == if b[i] < 0xFF then b[i := b[i] + 1] else Carry(b[i := 0], i - 1)
  {}

  /** The carry adds one to the value of the octets up to `i`. */
  lemma CarryValue(b: seq<Octet>)
    requires |b| == 4
    ensures From4(Carry(b, 3)) == if From4(b) + 1 == ADDR_SPACE then 0 else From4(b) + 1
  {
    CarryStep(b, 3);
    if b[3] == 0xFF {
      CarryStep(b[3 := 0], 2);
      if b[2] == 0xFF {
        CarryStep(b[3 := 0][2 := 0], 1);
        if b[1] == 0xFF {
          CarryStep(b[3 := 0][2 := 0][1 := 0], 0);
        }
      }
    }
  }

  /** `nextAddr`: the next address, wrapping from the last one to 0.0.0.0. */
  method NextAddr(addr: Addr) returns (a: Addr)
    ensures a == (addr + 1) % ADDR_SPACE
  {
    var octets := As4(addr);
    var b := new Octet[4](j requires 0 <= j < 4 => octets[j]);
    assert b[..] == octets;
    CarryFrom(b);
    a := From4(b[..]);
    FromAs4(addr);
    CarryValue(octets);
  }

  /** The loop of `nextAddr`, in place. */
  method CarryFrom(b: array<Octet>)
    requires b.Length == 4
    modifies b
    ensures b[..] == Carry(old(b[..]), 3)
  {
    var i := 3;
    while i >= 0
      invariant -1 <= i < 4
      invariant Carry(b[..], i) == Carry(old(b[..]), 3)
    {
      ghost var before := b[..];
      CarryStep(before, i);
      b[i] := (b[i] as int + 1) % 0x100;
      assert b[..] == before[i := (before[i] as int + 1) % 0x100];
      i := if b[i] != 0 then -1 else i - 1;
    }
  }
}
