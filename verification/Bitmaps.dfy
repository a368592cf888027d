/**
 The block bitmaps, group counters and superblock counter of an ext2 volume:
 ext2_balloc and ext2_bfree, with the bit scanning they rest on.
 */
module Bitmaps {
  import opened Wrappers

  // ---------------------------------------------------------------- bits of a bitmap block

  /** 1 << i, for a bit of a byte. */
  function Mask(i: nat): bv8
    requires i < 8
  {
    if i == 0 then 0x01 else if i == 1 then 0x02 else if i == 2 then 0x04 else if i == 3 then 0x08
    else if i == 4 then 0x10 else if i == 5 then 0x20 else if i == 6 then 0x40 else 0x80
  }

  predicate BitOf(c: bv8, i: nat)
    requires i < 8
  {
    c & Mask(i) != 0
  }

  lemma SetBitOf(c: bv8, i: nat, j: nat)
    requires i < 8 && j < 8
    ensures BitOf(c | Mask(i), j) <==> i == j || BitOf(c, j)
  {
  }

  lemma ClearBitOf(c: bv8, i: nat, j: nat)
    requires i < 8 && j < 8
    ensures BitOf(c & !Mask(i), j) <==> i != j && BitOf(c, j)
  {
  }

  lemma FullByte(j: nat)
    requires j < 8
    ensures BitOf(0xFF, j)
  {
  }

  function Pow2(i: nat): (p: nat)
    ensures p > 0
  {
    if i == 0 then 1 else 2 * Pow2(i - 1)
  }

  /** Bit `i` of a number, the lowest being bit 0. */
  predicate NumBit(n: nat, i: nat) {
    n / Pow2(i) % 2 == 1
  }

  /** Bit `k` of the bitmap on the disk: bytes in order, and in a byte the lowest bit first. */
  predicate Bit(bm: seq<bv8>, k: nat)
    requires k < 8 * |bm|
  {
    NumBit(bm[k / 8] as nat, k % 8)
  }

  /** Bit `i` of a byte, as a number, is what its mask finds. */
  lemma {:induction false} MaskFinds(c: bv8, i: nat)
    requires i < 8
    ensures BitOf(c, i) <==> NumBit(c as nat, i)
  {
    hide BitOf, NumBit;
    if i == 0 {
      LowestBit(c);
    } else {
      Shifted(c, i);
      Halved(c);
      HalfBit(c as nat, i);
      MaskFinds(c >> 1, i - 1);
    }
  }

  lemma LowestBit(c: bv8)
    ensures BitOf(c, 0) <==> NumBit(c as nat, 0)
  {
  }

  lemma Shifted(c: bv8, i: nat)
    requires 0 < i < 8
    ensures BitOf(c, i) <==> BitOf(c >> 1, i - 1)
  {
  }

  lemma Halved(c: bv8)
    ensures (c >> 1) as nat == c as nat / 2
  {
  }

  lemma HalfBit(n: nat, i: nat)
    requires i > 0
    ensures NumBit(n, i) <==> NumBit(n / 2, i - 1)
  {
    DivTwice(n, Pow2(i - 1));
  }

  lemma DivTwice(a: nat, p: nat)
    requires p > 0
    ensures a / (2 * p) == a / 2 / p
  {
    var q := a / 2 / p;
    var r := a / 2 % p;
    assert a / 2 == q * p + r;
    assert a == q * (2 * p) + (2 * r + a % 2);
    Quotient(q, 2 * p, 2 * r + a % 2);
  }

  lemma Quotient(q: nat, d: nat, r: nat)
    requires r < d
    ensures (q * d + r) / d == q
  {
    var x := q * d + r;
    var q', r' := x / d, x % d;
    assert x == q' * d + r';
    assert q < q' ==> (q + 1) * d <= q' * d;
    assert q' < q ==> (q' + 1) * d <= q * d;
  }

  lemma BitIs(bm: seq<bv8>, k: nat)
    requires k < 8 * |bm|
    ensures Bit(bm, k) <==> BitOf(bm[k / 8], k % 8)
  {
    MaskFinds(bm[k / 8], k % 8);
  }

  function SetBit(bm: seq<bv8>, k: nat): (r: seq<bv8>)
    requires k < 8 * |bm|
    ensures |r| == |bm|
  {
    bm[k / 8 := bm[k / 8] | Mask(k % 8)]
  }

  function ClearBit(bm: seq<bv8>, k: nat): (r: seq<bv8>)
    requires k < 8 * |bm|
    ensures |r| == |bm|
  {
    bm[k / 8 := bm[k / 8] & !Mask(k % 8)]
  }

  lemma SetBitAt(bm: seq<bv8>, k: nat, j: nat)
    requires k < 8 * |bm| && j < 8 * |bm|
    ensures Bit(SetBit(bm, k), j) <==> j == k || Bit(bm, j)
  {
    hide Bit, BitOf;
    BitIs(bm, j);
    BitIs(SetBit(bm, k), j);
    if k / 8 == j / 8 { SetBitOf(bm[k / 8], k % 8, j % 8); }
  }

  lemma ClearBitAt(bm: seq<bv8>, k: nat, j: nat)
    requires k < 8 * |bm| && j < 8 * |bm|
    ensures Bit(ClearBit(bm, k), j) <==> j != k && Bit(bm, j)
  {
    hide Bit, BitOf;
    BitIs(bm, j);
    BitIs(ClearBit(bm, k), j);
    if k / 8 == j / 8 { ClearBitOf(bm[k / 8], k % 8, j % 8); }
  }

  // ---------------------------------------------------------------- counting free blocks

  /** How many of the first `n` bits are zero. */
  function Zeros(bm: seq<bv8>, n: nat): nat
    requires n <= 8 * |bm|
  {
    if n == 0 then 0 else Zeros(bm, n - 1) + (if Bit(bm, n - 1) then 0 else 1)
  }

  lemma {:induction false} ZerosAfterSet(bm: seq<bv8>, k: nat, n: nat)
    requires k < 8 * |bm| && n <= 8 * |bm| && !Bit(bm, k)
    ensures Zeros(SetBit(bm, k), n) == Zeros(bm, n) - (if k < n then 1 else 0)
  {
    if n > 0 {
      ZerosAfterSet(bm, k, n - 1);
      SetBitAt(bm, k, n - 1);
    }
  }

  lemma {:induction false} ZerosAfterClear(bm: seq<bv8>, k: nat, n: nat)
    requires k < 8 * |bm| && n <= 8 * |bm|
    ensures Zeros(ClearBit(bm, k), n) == Zeros(bm, n) + (if k < n && Bit(bm, k) then 1 else 0)
  {
    if n > 0 {
      ZerosAfterClear(bm, k, n - 1);
      ClearBitAt(bm, k, n - 1);
    }
  }

  lemma {:induction false} NoZeros(bm: seq<bv8>, n: nat)
    requires n <= 8 * |bm|
    ensures Zeros(bm, n) == 0 <==> forall k :: 0 <= k < n ==> Bit(bm, k)
  {
    if n > 0 { NoZeros(bm, n - 1); }
  }

  function Sum(s: seq<nat>): nat {
    if s == [] then 0 else s[0] + Sum(s[1..])
  }

  lemma {:induction false} SumUpdate(s: seq<nat>, i: nat, v: nat)
    requires i < |s|
    ensures Sum(s[i := v]) == Sum(s) - s[i] + v
  {
    if i == 0 {
      assert s[i := v][1..] == s[1..];
    } else {
      assert s[i := v][1..] == s[1..][i - 1 := v];
      SumUpdate(s[1..], i - 1, v);
    }
  }

  // ---------------------------------------------------------------- a volume

  /** first: s_first_data_block; bpg: blocks per group; blksize: bytes in a bitmap block;
      blocks: s_blocks_count. */
  datatype Geometry = Geometry(first: nat, bpg: nat, blksize: nat, blocks: nat)

  datatype Volume = Volume(bitmaps: seq<seq<bv8>>, counts: seq<nat>, free: nat)

  function GroupOf(geo: Geometry, b: nat): nat
    requires geo.bpg > 0 && geo.first <= b
  {
    (b - geo.first) / geo.bpg
  }

  function BitIn(geo: Geometry, b: nat): nat
    requires geo.bpg > 0 && geo.first <= b
  {
    (b - geo.first) % geo.bpg
  }

  function BlockNo(geo: Geometry, g: nat, k: nat): nat {
    geo.first + g * geo.bpg + k
  }

  lemma QuotientUnique(d: nat, q: nat, r: nat, q': nat, r': nat)
    requires r < d && r' < d && q * d + r == q' * d + r'
    ensures q == q' && r == r'
  {
    assert q > q' ==> q * d >= (q' + 1) * d == q' * d + d;
    assert q < q' ==> q' * d >= (q + 1) * d == q * d + d;
  }

  lemma DivMod(q: nat, d: nat, r: nat)
    requires r < d
    ensures (q * d + r) / d == q && (q * d + r) % d == r
  {
    var n := q * d + r;
    QuotientUnique(d, q, r, n / d, n % d);
  }

  /** The (group, bit) pair and the block number determine each other. */
  lemma Encoding(geo: Geometry, g: nat, k: nat)
    requires k < geo.bpg
    ensures GroupOf(geo, BlockNo(geo, g, k)) == g && BitIn(geo, BlockNo(geo, g, k)) == k
  {
    DivMod(g, geo.bpg, k);
  }

  lemma Decoding(geo: Geometry, b: nat)
    requires geo.bpg > 0 && geo.first <= b
    ensures BlockNo(geo, GroupOf(geo, b), BitIn(geo, b)) == b
  {
  }

  predicate Shape(geo: Geometry, v: Volume) {
    && 0 < geo.bpg <= 8 * geo.blksize
    && |v.counts| == |v.bitmaps|
    && geo.blocks <= geo.first + |v.bitmaps| * geo.bpg
    && forall g :: 0 <= g < |v.bitmaps| ==> |v.bitmaps[g]| == geo.blksize
  }

  /** Block `b` is on the volume and its bit is set. */
  predicate Used(geo: Geometry, v: Volume, b: nat)
    requires Shape(geo, v)
  {
    && geo.first <= b < geo.blocks
    && GroupOf(geo, b) < |v.bitmaps|
    && Bit(v.bitmaps[GroupOf(geo, b)], BitIn(geo, b))
  }

  ghost function InUse(geo: Geometry, v: Volume): set<nat>
    requires Shape(geo, v)
  {
    set b: nat | b < geo.blocks && Used(geo, v, b)
  }

  /** A bit that stands for no block of the volume. */
  predicate Padding(geo: Geometry, g: nat, k: nat) {
    geo.bpg <= k || geo.blocks <= BlockNo(geo, g, k)
  }

  predicate PaddingSet(geo: Geometry, v: Volume)
    requires Shape(geo, v)
  {
    forall g, k {:trigger Padding(geo, g, k)} ::
      0 <= g < |v.bitmaps| && 0 <= k < 8 * geo.blksize && Padding(geo, g, k) ==> Bit(v.bitmaps[g], k)
  }

  /** Every counter tells the number of zero bits it stands for. */
  predicate CountsExact(geo: Geometry, v: Volume)
    requires Shape(geo, v)
  {
    && v.free == Sum(v.counts)
    && forall g :: 0 <= g < |v.bitmaps| ==> v.counts[g] == Zeros(v.bitmaps[g], 8 * geo.blksize)
  }

  predicate Inv(geo: Geometry, v: Volume) {
    Shape(geo, v) && PaddingSet(geo, v) && CountsExact(geo, v)
  }

  /** What ext2_balloc does once it has found bit `k` of group `g`. */
  function Taken(v: Volume, g: nat, k: nat): Volume
    requires g < |v.bitmaps| == |v.counts| && k < 8 * |v.bitmaps[g]| && v.counts[g] > 0 && v.free > 0
  {
    Volume(v.bitmaps[g := SetBit(v.bitmaps[g], k)], v.counts[g := v.counts[g] - 1], v.free - 1)
  }

  /** What ext2_bfree does with bit `k` of group `g`, whether or not it was set. */
  function Given(v: Volume, g: nat, k: nat): Volume
    requires g < |v.bitmaps| == |v.counts| && k < 8 * |v.bitmaps[g]|
  {
    Volume(v.bitmaps[g := ClearBit(v.bitmaps[g], k)], v.counts[g := v.counts[g] + 1], v.free + 1)
  }

  lemma {:induction false} SumAtLeast(s: seq<nat>, i: nat)
    requires i < |s|
    ensures Sum(s) >= s[i]
  {
    if i > 0 { SumAtLeast(s[1..], i - 1); }
  }

  /** A clear bit is a real block, and its group and the volume count it. */
  lemma ClearBitIsBlock(geo: Geometry, v: Volume, g: nat, k: nat)
    requires Inv(geo, v) && g < |v.bitmaps| && k < 8 * geo.blksize && !Bit(v.bitmaps[g], k)
    ensures k < geo.bpg && geo.first <= BlockNo(geo, g, k) < geo.blocks
    ensures !Used(geo, v, BlockNo(geo, g, k))
    ensures v.counts[g] > 0 && v.free > 0
  {
    assert !Padding(geo, g, k);
    Encoding(geo, g, k);
    NoZeros(v.bitmaps[g], 8 * geo.blksize);
    SumAtLeast(v.counts, g);
  }

  lemma TakenKeeps(geo: Geometry, v: Volume, g: nat, k: nat)
    requires Inv(geo, v) && g < |v.bitmaps| && k < 8 * geo.blksize && !Bit(v.bitmaps[g], k)
    ensures v.counts[g] > 0 && v.free > 0
    ensures Inv(geo, Taken(v, g, k))
  {
    ClearBitIsBlock(geo, v, g, k);
    var t := Taken(v, g, k);
    SumUpdate(v.counts, g, v.counts[g] - 1);
    ZerosAfterSet(v.bitmaps[g], k, 8 * geo.blksize);
    forall h, j {:trigger Padding(geo, h, j)} | 0 <= h < |t.bitmaps| && 0 <= j < 8 * geo.blksize && Padding(geo, h, j)
      ensures Bit(t.bitmaps[h], j)
    {
      if h == g { SetBitAt(v.bitmaps[g], k, j); }
    }
  }

  lemma TakenInUse(geo: Geometry, v: Volume, g: nat, k: nat)
    requires Inv(geo, v) && g < |v.bitmaps| && k < 8 * geo.blksize && !Bit(v.bitmaps[g], k)
    ensures v.counts[g] > 0 && v.free > 0
    ensures Shape(geo, Taken(v, g, k))
    ensures InUse(geo, Taken(v, g, k)) == InUse(geo, v) + {BlockNo(geo, g, k)}
  {
    ClearBitIsBlock(geo, v, g, k);
    var t := Taken(v, g, k);
    Encoding(geo, g, k);
    forall b: nat | geo.first <= b < geo.blocks
      ensures Used(geo, t, b) <==> Used(geo, v, b) || b == BlockNo(geo, g, k)
    {
      Decoding(geo, b);
      if GroupOf(geo, b) == g { SetBitAt(v.bitmaps[g], k, BitIn(geo, b)); }
    }
  }

  lemma GivenInUse(geo: Geometry, v: Volume, b: nat)
    requires Inv(geo, v) && Used(geo, v, b)
    ensures Shape(geo, Given(v, GroupOf(geo, b), BitIn(geo, b)))
    ensures InUse(geo, Given(v, GroupOf(geo, b), BitIn(geo, b))) == InUse(geo, v) - {b}
  {
    var g, k := GroupOf(geo, b), BitIn(geo, b);
    var t := Given(v, g, k);
    Decoding(geo, b);
    forall c: nat | geo.first <= c < geo.blocks
      ensures Used(geo, t, c) <==> Used(geo, v, c) && c != b
    {
      Decoding(geo, c);
      if GroupOf(geo, c) == g { ClearBitAt(v.bitmaps[g], k, BitIn(geo, c)); }
    }
  }

  lemma GivenKeeps(geo: Geometry, v: Volume, b: nat)
    requires Inv(geo, v) && Used(geo, v, b)
    ensures Inv(geo, Given(v, GroupOf(geo, b), BitIn(geo, b)))
  {
    var g, k := GroupOf(geo, b), BitIn(geo, b);
    var t := Given(v, g, k);
    Decoding(geo, b);
    SumUpdate(v.counts, g, v.counts[g] + 1);
    ZerosAfterClear(v.bitmaps[g], k, 8 * geo.blksize);
    forall h, j {:trigger Padding(geo, h, j)} | 0 <= h < |t.bitmaps| && 0 <= j < 8 * geo.blksize && Padding(geo, h, j)
      ensures Bit(t.bitmaps[h], j)
    {
      if h == g { ClearBitAt(v.bitmaps[g], k, j); }
    }
  }

  /** The blocks ext2_bfree accepts: it only refuses zero and numbers past s_blocks_count. */
  predicate Accepted(geo: Geometry, v: Volume, b: nat)
    requires Shape(geo, v)
  {
    b != 0 && geo.first <= b <= geo.blocks && GroupOf(geo, b) < |v.bitmaps|
  }

  /** Freeing a block keeps the counters and the padding right exactly when the block was
      in use: a free block is counted twice, and the block numbered s_blocks_count, which
      the range check lets through, loses its padding bit. */
  lemma FreeKeepsIff(geo: Geometry, v: Volume, b: nat)
    requires Inv(geo, v) && Accepted(geo, v, b)
    ensures Inv(geo, Given(v, GroupOf(geo, b), BitIn(geo, b))) <==> Used(geo, v, b)
  {
    var g, k := GroupOf(geo, b), BitIn(geo, b);
    Decoding(geo, b);
    if Used(geo, v, b) {
      GivenKeeps(geo, v, b);
    } else if b == geo.blocks {
      assert Padding(geo, g, k);
      ClearBitAt(v.bitmaps[g], k, k);
    } else {
      ZerosAfterClear(v.bitmaps[g], k, 8 * geo.blksize);
      var t := Given(v, g, k);
      assert t.counts[g] != Zeros(t.bitmaps[g], 8 * geo.blksize);
    }
  }

  // ---------------------------------------------------------------- the superblock

  class Superblock {
    const geo: Geometry
    var bitmaps: seq<seq<bv8>>
    var counts: seq<nat>
    var free: nat

    function V(): Volume
      reads this
    {
      Volume(bitmaps, counts, free)
    }

    ghost predicate Valid()
      reads this
    {
      Inv(geo, V())
    }

    /** The blocks whose bits are set. */
    ghost function Blocks(): set<nat>
      requires Valid()
      reads this
    {
      InUse(geo, V())
    }

    constructor (geo: Geometry, v: Volume)
      requires Inv(geo, v)
      ensures Valid() && this.geo == geo && V() == v
    {
      this.geo := geo;
      bitmaps, counts, free := v.bitmaps, v.counts, v.free;
    }

    /** find_first_zero: the lowest clear bit, none when every bit is set. */
    method FindFirstZero(g: nat) returns (r: Option<nat>)
      requires g < |bitmaps|
      ensures r == None ==> forall k :: 0 <= k < 8 * |bitmaps[g]| ==> Bit(bitmaps[g], k)
      ensures r.Some? ==>
                && r.value < 8 * |bitmaps[g]| && !Bit(bitmaps[g], r.value)
                && forall k :: 0 <= k < r.value ==> Bit(bitmaps[g], k)
    {
      hide Bit, Pow2;
      var data := bitmaps[g];
      var n := 0;
      while n < |data|
        invariant 0 <= n <= |data|
        invariant forall k :: 0 <= k < 8 * n ==> Bit(data, k)
      {
        var c := data[n];
        if c == 0xFF {
          forall k | 8 * n <= k < 8 * n + 8 ensures Bit(data, k) {
            FullByte(k % 8);
            BitIs(data, k);
          }
        } else {
          var n2 := 0;
          while n2 < 8
            invariant 0 <= n2 <= 8
            invariant forall k :: 0 <= k < 8 * n + n2 ==> Bit(data, k)
          {
            assert (8 * n + n2) / 8 == n && (8 * n + n2) % 8 == n2;
            BitIs(data, 8 * n + n2);
            if c & Mask(n2) == 0 { return Some(n * 8 + n2); }
            n2 := n2 + 1;
          }
        }
        n := n + 1;
      }
      return None;
    }

    /** The group scan of ext2_balloc: groups whose counter is zero are not even read. */
    method FindFree() returns (bg: nat, found: Option<nat>)
      requires Valid()
      ensures found == None ==> forall b: nat :: geo.first <= b < geo.blocks ==> Used(geo, V(), b)
      ensures found.Some? ==>
                && bg < |bitmaps| && found.value < 8 * geo.blksize && !Bit(bitmaps[bg], found.value)
                && (forall k :: 0 <= k < found.value ==> Bit(bitmaps[bg], k))
                && forall b: nat :: geo.first <= b < geo.blocks && GroupOf(geo, b) < bg ==> Used(geo, V(), b)
    {
      bg, found := 0, None;
      while bg < |bitmaps|
        invariant 0 <= bg <= |bitmaps| && found == None
        invariant forall b: nat :: geo.first <= b < geo.blocks && GroupOf(geo, b) < bg ==> Used(geo, V(), b)
        decreases |bitmaps| - bg
      {
        if counts[bg] != 0 {
          found := FindFirstZero(bg);
          if found != None { return; }
        } else {
          NoZeros(bitmaps[bg], 8 * geo.blksize);
        }
        bg := bg + 1;
      }
      forall b: nat | geo.first <= b < geo.blocks ensures Used(geo, V(), b) { GroupExists(geo, V(), b); }
    }

    /** ext2_balloc: the lowest free block of the volume, none exactly when every block is in use. */
    method Balloc() returns (r: Option<nat>)
      requires Valid()
      modifies this
      ensures Valid()
      ensures r == None ==> V() == old(V()) && forall b :: geo.first <= b < geo.blocks ==> b in Blocks()
      ensures r.Some? ==>
                && geo.first <= r.value < geo.blocks
                && r.value !in old(Blocks()) && Blocks() == old(Blocks()) + {r.value}
                && forall b :: geo.first <= b < r.value ==> b in old(Blocks())
    {
      var bg, found := FindFree();
      if found == None { return None; }
      var k := found.value;
      TakenKeeps(geo, V(), bg, k);
      TakenInUse(geo, V(), bg, k);
      ClearBitIsBlock(geo, V(), bg, k);
      LowestClear(geo, V(), bg, k);
      bitmaps := bitmaps[bg := SetBit(bitmaps[bg], k)];
      counts := counts[bg := counts[bg] - 1];
      free := free - 1;
      return Some(k + bg * geo.bpg + geo.first);
    }

    /** ext2_bfree: a number out of range is ignored, anything else has its bit cleared and counted. The
        range check lets one number too many through; when that lies in no group, the code goes on to
        use a descriptor that is not there, and here nothing is done. */
    method Bfree(b: nat) returns (strays: bool)
      requires Shape(geo, V())
      modifies this
      ensures strays <==> 0 < b <= geo.blocks && !Accepted(geo, old(V()), b)
      ensures if Accepted(geo, old(V()), b) then V() == Given(old(V()), GroupOf(geo, b), BitIn(geo, b)) else V() == old(V())
      ensures old(Valid()) && b in old(Blocks()) && b != 0 ==> Valid() && Blocks() == old(Blocks()) - {b} && !strays
    {
      hide Inv, InUse, Bit, ClearBit, GroupOf, BitIn;
      FreedOk(geo, V(), b);
      if b == 0 || b > geo.blocks { return false; }
      if b < geo.first || GroupOf(geo, b) >= |bitmaps| { return true; }
      var bg, k := GroupOf(geo, b), BitIn(geo, b);
      bitmaps := bitmaps[bg := ClearBit(bitmaps[bg], k)];
      counts := counts[bg := counts[bg] + 1];
      free := free + 1;
      return false;
    }
  }

  lemma FreedOk(geo: Geometry, v: Volume, b: nat)
    requires Shape(geo, v)
    ensures geo.first <= b ==> BitIn(geo, b) < geo.bpg
    ensures Inv(geo, v) && b in InUse(geo, v) && b != 0 ==>
      && Accepted(geo, v, b) && Inv(geo, Given(v, GroupOf(geo, b), BitIn(geo, b)))
      && InUse(geo, Given(v, GroupOf(geo, b), BitIn(geo, b))) == InUse(geo, v) - {b}
  {
    if Inv(geo, v) && b in InUse(geo, v) {
      GivenKeeps(geo, v, b);
      GivenInUse(geo, v, b);
    }
  }

  lemma GroupExists(geo: Geometry, v: Volume, b: nat)
    requires Shape(geo, v) && geo.first <= b < geo.blocks
    ensures GroupOf(geo, b) < |v.bitmaps|
  {
    Decoding(geo, b);
  }

  lemma Before(geo: Geometry, b: nat, g: nat, k: nat)
    requires k < geo.bpg && geo.first <= b < BlockNo(geo, g, k)
    ensures GroupOf(geo, b) < g || (GroupOf(geo, b) == g && BitIn(geo, b) < k)
  {
    var h := GroupOf(geo, b);
    Decoding(geo, b);
    assert h > g ==> h * geo.bpg >= (g + 1) * geo.bpg == g * geo.bpg + geo.bpg;
  }

  lemma LowestClear(geo: Geometry, v: Volume, g: nat, k: nat)
    requires Shape(geo, v) && g < |v.bitmaps| && k < geo.bpg
    requires forall b: nat :: geo.first <= b < geo.blocks && GroupOf(geo, b) < g ==> Used(geo, v, b)
    requires forall j :: 0 <= j < k ==> Bit(v.bitmaps[g], j)
    ensures forall b: nat :: geo.first <= b < geo.blocks && b < BlockNo(geo, g, k) ==> Used(geo, v, b)
  {
    forall b: nat | geo.first <= b < geo.blocks && b < BlockNo(geo, g, k) ensures Used(geo, v, b) {
      Before(geo, b, g, k);
    }
  }
}
