/**
 * Blocks of addresses: the numbers that four or sixteen octets stand for, and the tables of
 * the blocks that no delivery may reach, each by its first address and the length of its prefix.
 */
module AddressBlocks {
  import opened Sequences

  predicate AreOctets(b: seq<int>) {
    forall i :: 0 <= i < |b| ==> 0 <= b[i] <= 255
  }

  /** The number whose octets these are, the first the most significant. */
  function Number(b: seq<int>): int {
    if b == [] then 0 else 256 * Number(b[..|b| - 1]) + b[|b| - 1]
  }

  datatype Block = Block(base: seq<int>, bits: nat, reason: string)

  /** An address lies in a block if its leading `bits` bits are those of the block. */
  predicate Inside(b: seq<int>, block: Block) {
    && |b| == |block.base| && block.bits <= 8 * |b|
    && Number(b) / Pow2(8 * |b| - block.bits) == Number(block.base) / Pow2(8 * |b| - block.bits)
  }

  const V4_BLOCKS: seq<Block> := [
    Block([0, 0, 0, 0], 8, "unspecified network"),
    Block([10, 0, 0, 0], 8, "private 10/8"),
    Block([100, 64, 0, 0], 10, "carrier-grade NAT 100.64/10"),
    Block([127, 0, 0, 0], 8, "loopback"),
    Block([169, 254, 0, 0], 16, "link-local / cloud metadata"),
    Block([172, 16, 0, 0], 12, "private 172.16/12"),
    Block([192, 168, 0, 0], 16, "private 192.168/16"),
    Block([224, 0, 0, 0], 3, "multicast or reserved")]

  /** Sixteen octets: the given ones, then zeros. */
  function Padded(lead: seq<int>): (b: seq<int>)
    requires |lead| <= 16
    ensures |b| == 16
  {
    lead + seq(16 - |lead|, _ => 0)
  }

  /** `::`, `::1`, fc00::/7, fe80::/10 and ff00::/8. */
  const V6_BLOCKS: seq<Block> := [
    Block(Padded([]), 128, "unspecified address"),
    Block([0, 0, 0, 0, 0, 0, 0, 0, 0, 0, 0, 0, 0, 0, 0, 1], 128, "IPv6 loopback"),
    Block(Padded([0xfc]), 7, "IPv6 unique-local"),
    Block(Padded([0xfe, 0x80]), 10, "IPv6 link-local"),
    Block(Padded([0xff]), 8, "IPv6 multicast")]

  /** ::ffff:0:0/96, ::/96 and 64:ff9b::/96, whose last four octets are an IPv4 address. */
  const V6_WRAPPERS: seq<Block> := [
    Block(Padded([0, 0, 0, 0, 0, 0, 0, 0, 0, 0, 0xff, 0xff]), 96, "mapped"),
    Block(Padded([]), 96, "compatible"),
    Block(Padded([0x00, 0x64, 0xff, 0x9b]), 96, "NAT64")]

  predicate Listed(b: seq<int>, table: seq<Block>) {
    exists i :: 0 <= i < |table| && Inside(b, table[i])
  }

  /** The reason of the first block of a table that holds the address. */
  predicate ListedAs(b: seq<int>, table: seq<Block>, reason: string) {
    exists i :: 0 <= i < |table| && Inside(b, table[i]) && table[i].reason == reason
      && forall j :: 0 <= j < i ==> !Inside(b, table[j])
  }

  // --- what the leading bits of a number are ----------------------------------------------------

  lemma {:induction false} Quotient(n: int, d: nat, q: int)
    requires d > 0 && q * d <= n < q * d + d
    ensures n / d == q
  {
    var r := n - q * d;
    var k := n / d - q;
    assert n / d * d + n % d == n;
    assert k * d == r - n % d by { assert k * d == n / d * d - q * d; }
    Multiples(k, d);
  }

  lemma {:induction false} Multiples(k: int, d: nat)
    ensures k >= 1 ==> k * d >= d
    ensures k <= -1 ==> k * d <= 0 - d
  {
  }

  lemma {:induction false} DropsOctet(x: int, y: int, m: nat)
    requires m > 0 && 0 <= y <= 255
    ensures (256 * x + y) / (256 * m) == x / m
  {
    var q, r := x / m, x % m;
    assert x == q * m + r && r <= m - 1;
    assert q * (256 * m) == 256 * (q * m);
    Quotient(256 * x + y, 256 * m, q);
  }

  lemma {:induction false} Pow2Eight(n: nat)
    ensures Pow2(n + 8) == 256 * Pow2(n)
  {
    assert Pow2(n + 2) == 4 * Pow2(n) && Pow2(n + 4) == 4 * Pow2(n + 2);
    assert Pow2(n + 6) == 4 * Pow2(n + 4) && Pow2(n + 8) == 4 * Pow2(n + 6);
  }

  /** Without its low bits, a number is that of its leading octets without the last `spare` bits. */
  lemma {:induction false} Leads(b: seq<int>, k: nat, spare: nat)
    requires AreOctets(b) && k <= |b|
    ensures Number(b) / Pow2(8 * (|b| - k) + spare) == Number(b[..k]) / Pow2(spare)
    decreases |b|
  {
    if |b| == k {
      assert b[..k] == b;
    } else {
      var front := b[..|b| - 1];
      Leads(front, k, spare);
      assert front[..k] == b[..k];
      Pow2Eight(8 * (|front| - k) + spare);
      DropsOctet(Number(front), b[|b| - 1], Pow2(8 * (|front| - k) + spare));
    }
  }

  lemma {:induction false} NumberInjective(a: seq<int>, b: seq<int>)
    requires AreOctets(a) && AreOctets(b) && |a| == |b|
    ensures Number(a) == Number(b) <==> a == b
  {
    if a != [] {
      NumberInjective(a[..|a| - 1], b[..|b| - 1]);
      assert a == a[..|a| - 1] + [a[|a| - 1]] && b == b[..|b| - 1] + [b[|b| - 1]];
    }
  }

  /** A prefix of whole octets. */
  lemma {:induction false} InsideOctets(b: seq<int>, block: Block, k: nat)
    requires AreOctets(b) && AreOctets(block.base) && |b| == |block.base| && k <= |b| && block.bits == 8 * k
    ensures Inside(b, block) <==> b[..k] == block.base[..k]
  {
    Leads(b, k, 0);
    Leads(block.base, k, 0);
    assert Pow2(0) == 1;
    hide Number;
    NumberInjective(b[..k], block.base[..k]);
  }

  /** A prefix that ends within the first octet. */
  lemma {:induction false} InsideFirst(b: seq<int>, block: Block, spare: nat)
    requires AreOctets(b) && AreOctets(block.base) && |b| == |block.base| && |b| >= 1 && block.bits + spare == 8
    ensures Inside(b, block) <==> b[0] / Pow2(spare) == block.base[0] / Pow2(spare)
  {
    Leads(b, 1, spare);
    Leads(block.base, 1, spare);
    NumberOfOne(b);
    NumberOfOne(block.base);
    hide Number, Pow2, AreOctets;
    assert 8 * |b| - block.bits == 8 * (|b| - 1) + spare;
  }

  /** A prefix that ends within the second octet. */
  lemma {:induction false} InsideSecond(b: seq<int>, block: Block, spare: nat)
    requires AreOctets(b) && AreOctets(block.base) && |b| == |block.base| && |b| >= 2 && block.bits + spare == 16
    ensures
      var x, y := 256 * b[0] + b[1], 256 * block.base[0] + block.base[1];
      Inside(b, block) <==> x / Pow2(spare) == y / Pow2(spare)
  {
    Leads(b, 2, spare);
    Leads(block.base, 2, spare);
    NumberOfTwo(b);
    NumberOfTwo(block.base);
    hide Number, Pow2, AreOctets;
    assert 8 * |b| - block.bits == 8 * (|b| - 2) + spare;
  }

  lemma {:induction false} NumberOfOne(b: seq<int>)
    requires |b| >= 1
    ensures Number(b[..1]) == b[0]
  {
    assert b[..1][..0] == [];
  }

  lemma {:induction false} NumberOfTwo(b: seq<int>)
    requires |b| >= 2
    ensures Number(b[..2]) == 256 * b[0] + b[1]
  {
    NumberOfOne(b);
    assert b[..2][..1] == b[..1];
  }

  // --- the tables, octet by octet ----------------------------------------------------------------

  lemma {:induction false} V4Inside(b: seq<int>)
    requires |b| == 4 && AreOctets(b)
    ensures Inside(b, V4_BLOCKS[0]) <==> b[0] == 0
    ensures Inside(b, V4_BLOCKS[1]) <==> b[0] == 10
    ensures Inside(b, V4_BLOCKS[2]) <==> b[0] == 100 && 64 <= b[1] <= 127
    ensures Inside(b, V4_BLOCKS[3]) <==> b[0] == 127
    ensures Inside(b, V4_BLOCKS[4]) <==> b[0] == 169 && b[1] == 254
    ensures Inside(b, V4_BLOCKS[5]) <==> b[0] == 172 && 16 <= b[1] <= 31
    ensures Inside(b, V4_BLOCKS[6]) <==> b[0] == 192 && b[1] == 168
    ensures Inside(b, V4_BLOCKS[7]) <==> b[0] >= 224
  {
    PowersOfTwo();
    hide Inside, Pow2, Number;
    InsideFirst(b, V4_BLOCKS[0], 0);
    InsideFirst(b, V4_BLOCKS[1], 0);
    InsideSecond(b, V4_BLOCKS[2], 6);
    InsideFirst(b, V4_BLOCKS[3], 0);
    InsideSecond(b, V4_BLOCKS[4], 0);
    InsideSecond(b, V4_BLOCKS[5], 4);
    InsideSecond(b, V4_BLOCKS[6], 0);
    InsideFirst(b, V4_BLOCKS[7], 5);
  }

  lemma {:induction false} PowersOfTwo()
    ensures Pow2(0) == 1 && Pow2(1) == 2 && Pow2(4) == 16 && Pow2(5) == 32 && Pow2(6) == 64
  {
    assert Pow2(2) == 4 && Pow2(3) == 8;
  }

  lemma {:induction false} V6Inside(b: seq<int>)
    requires |b| == 16 && AreOctets(b)
    ensures Inside(b, V6_BLOCKS[0]) <==> b == Padded([])
    ensures Inside(b, V6_BLOCKS[1]) <==> b[..15] == Padded([])[..15] && b[15] == 1
    ensures Inside(b, V6_BLOCKS[2]) <==> b[0] == 0xfc || b[0] == 0xfd
    ensures Inside(b, V6_BLOCKS[3]) <==> b[0] == 0xfe && 0x80 <= b[1] <= 0xbf
    ensures Inside(b, V6_BLOCKS[4]) <==> b[0] == 0xff
  {
    PowersOfTwo();
    hide Inside, Pow2, Number;
    InsideOctets(b, V6_BLOCKS[0], 16);
    InsideOctets(b, V6_BLOCKS[1], 16);
    InsideFirst(b, V6_BLOCKS[2], 1);
    InsideSecond(b, V6_BLOCKS[3], 6);
    InsideFirst(b, V6_BLOCKS[4], 0);
    assert b[..16] == b;
    assert V6_BLOCKS[1].base[..16] == Padded([])[..15] + [1];
    assert b == b[..15] + [b[15]];
    assert V6_BLOCKS[0].base[..16] == Padded([]);
  }

  lemma {:induction false} WrapperInside(b: seq<int>, i: nat)
    requires |b| == 16 && AreOctets(b) && i < |V6_WRAPPERS|
    ensures Inside(b, V6_WRAPPERS[i]) <==> b[..12] == V6_WRAPPERS[i].base[..12]
  {
    InsideOctets(b, V6_WRAPPERS[i], 12);
  }
}
