/**
 Reading and writing a file: blocks on the device below, pages of the file cached above, and a
 plain sequence of bytes as what the two amount to.

 `blocks` holds the file's mapped blocks (what bmap and the buffer cache give), `cache` the pages
 in the page cache. Device reads and memory allocation succeed; blocks may run out.
 */
module FileIo {
  import opened Wrappers

  type Byte = bv8

  /** bs: the block size; per: how many blocks make a page. */
  datatype Shape = Shape(bs: nat, per: nat)

  predicate Sane(g: Shape) {
    g.bs > 0 && g.per > 0
  }

  function Page(g: Shape): nat {
    g.per * g.bs
  }

  // ---------------------------------------------------------------- arithmetic

  lemma DivUnique(d: nat, q: nat, r: nat)
    requires r < d
    ensures (q * d + r) / d == q && (q * d + r) % d == r
  {
    var x := q * d + r;
    var q', r' := x / d, x % d;
    assert x == q' * d + r';
    assert q < q' ==> (q + 1) * d <= q' * d;
    assert q' < q ==> (q' + 1) * d <= q * d;
  }

  /** Bytes that do not cross a multiple of `d` have consecutive places in one slot. */
  lemma SameSlot(d: nat, off: nat, n: nat, x: nat)
    requires d > 0 && off % d + n <= d && off <= x < off + n
    ensures x / d == off / d && x % d == off % d + (x - off)
  {
    DivUnique(d, off / d, off % d + (x - off));
  }

  lemma MulLe(a: nat, b: nat, c: nat)
    requires a <= b
    ensures a * c <= b * c
  {
  }

  lemma Distribute(p: nat, per: nat, i: nat, bs: nat)
    ensures (p * per + i) * bs == p * (per * bs) + i * bs
  {
  }

  /** Byte `r` of block `i` of page `p`. */
  lemma Place(g: Shape, p: nat, i: nat, r: nat)
    requires Sane(g) && i < g.per && r < g.bs
    ensures var x := p * Page(g) + i * g.bs + r;
      x / Page(g) == p && x % Page(g) == i * g.bs + r && x / g.bs == p * g.per + i && x % g.bs == r
    ensures Page(g) > 0 && i * g.bs + g.bs <= Page(g)
  {
    MulLe(1, g.per, g.bs);
    MulLe(i + 1, g.per, g.bs);
    assert i * g.bs + g.bs == (i + 1) * g.bs;
    Distribute(p, g.per, i, g.bs);
    DivUnique(Page(g), p, i * g.bs + r);
    DivUnique(g.bs, p * g.per + i, r);
  }

  /** Every place in a file is byte `r` of block `i` of page `p`. */
  lemma Placed(g: Shape, x: nat) returns (p: nat, i: nat, r: nat)
    requires Sane(g)
    ensures i < g.per && r < g.bs && x == p * Page(g) + i * g.bs + r
  {
    var b := x / g.bs;
    p, i, r := b / g.per, b % g.per, x % g.bs;
    assert b == p * g.per + i;
    Distribute(p, g.per, i, g.bs);
  }

  /** What stays inside a block stays inside a page. */
  lemma BlockInPage(g: Shape, off: nat, n: nat)
    requires Sane(g) && off % g.bs + n <= g.bs
    ensures Page(g) > 0 && off % Page(g) + n <= Page(g)
  {
    var p, i, r := Placed(g, off);
    Place(g, p, i, r);
  }

  // ---------------------------------------------------------------- the bytes of a file

  /** Byte `x`: a block that is not mapped reads as zeros. */
  ghost function At(g: Shape, blocks: map<nat, seq<Byte>>, x: nat): Byte
    requires Sane(g)
  {
    var b := x / g.bs;
    if b in blocks && x % g.bs < |blocks[b]| then blocks[b][x % g.bs] else 0
  }

  ghost predicate BlocksOk(g: Shape, blocks: map<nat, seq<Byte>>) {
    forall b :: b in blocks ==> |blocks[b]| == g.bs
  }

  ghost predicate PageIs(g: Shape, blocks: map<nat, seq<Byte>>, p: nat, data: seq<Byte>)
    requires Sane(g)
  {
    |data| == Page(g) && forall y :: 0 <= y < Page(g) ==> data[y] == At(g, blocks, p * Page(g) + y)
  }

  /** Every cached page holds what its blocks hold. */
  ghost predicate Coherent(g: Shape, blocks: map<nat, seq<Byte>>, cache: map<nat, seq<Byte>>)
    requires Sane(g)
  {
    forall p :: p in cache ==> PageIs(g, blocks, p, cache[p])
  }

  ghost predicate SameBytes(g: Shape, from: map<nat, seq<Byte>>, to: map<nat, seq<Byte>>)
    requires Sane(g)
  {
    forall x: nat :: At(g, to, x) == At(g, from, x)
  }

  /** `d` has been put at `off`, and nothing else has changed. */
  ghost predicate Patched(g: Shape, from: map<nat, seq<Byte>>, to: map<nat, seq<Byte>>, off: nat, d: seq<Byte>)
    requires Sane(g)
  {
    forall x: nat :: At(g, to, x) == if off <= x < off + |d| then d[x - off] else At(g, from, x)
  }

  /** memcpy_b into the middle of a buffer or page. */
  function Splice(s: seq<Byte>, at: nat, d: seq<Byte>): (r: seq<Byte>)
    requires at + |d| <= |s|
    ensures |r| == |s| && forall j :: 0 <= j < |s| ==> r[j] == if at <= j < at + |d| then d[j - at] else s[j]
  {
    s[..at] + d + s[at + |d|..]
  }

  /** Slots are apart: a place is in the chunk exactly when it is in its slot, at its offset. */
  lemma InChunk(d: nat, off: nat, n: nat, x: nat)
    requires d > 0 && off % d + n <= d
    ensures off <= x < off + n <==> x / d == off / d && off % d <= x % d < off % d + n
    ensures off <= x < off + n ==> x % d - off % d == x - off
  {
    if off <= x < off + n {
      SameSlot(d, off, n, x);
    } else if x / d == off / d {
      assert x == off / d * d + x % d && off == off / d * d + off % d;
    }
  }

  lemma BlockPatched(g: Shape, blocks: map<nat, seq<Byte>>, off: nat, d: seq<Byte>)
    requires Sane(g) && BlocksOk(g, blocks) && off / g.bs in blocks && off % g.bs + |d| <= g.bs
    ensures var b := off / g.bs; var to := blocks[b := Splice(blocks[b], off % g.bs, d)];
      BlocksOk(g, to) && Patched(g, blocks, to, off, d)
  {
    var b := off / g.bs;
    var to := blocks[b := Splice(blocks[b], off % g.bs, d)];
    forall x: nat ensures At(g, to, x) == if off <= x < off + |d| then d[x - off] else At(g, blocks, x) {
      InChunk(g.bs, off, |d|, x);
    }
  }

  lemma PageByte(g: Shape, from: map<nat, seq<Byte>>, to: map<nat, seq<Byte>>, p: nat, y: nat, off: nat, d: seq<Byte>)
    requires Sane(g) && Patched(g, from, to, off, d) && y < Page(g) && off % Page(g) + |d| <= Page(g)
    ensures At(g, to, p * Page(g) + y) ==
      if off / Page(g) == p && off % Page(g) <= y < off % Page(g) + |d| then d[y - off % Page(g)] else At(g, from, p * Page(g) + y)
  {
    hide Page, At;
    var x := p * Page(g) + y;
    DivUnique(Page(g), p, y);
    InChunk(Page(g), off, |d|, x);
  }

  /** Byte `y` of a page after a chunk has been put at `at`, if it is put in this page. */
  function Spliced(data: seq<Byte>, here: bool, at: nat, d: seq<Byte>, y: nat): Byte
    requires at + |d| <= |data| && y < |data|
  {
    if here && at <= y < at + |d| then d[y - at] else data[y]
  }

  lemma PageSpliced(g: Shape, to: map<nat, seq<Byte>>, p: nat, data: seq<Byte>, here: bool, at: nat, d: seq<Byte>)
    requires Sane(g) && |data| == Page(g) && at + |d| <= Page(g)
    requires forall y :: 0 <= y < |data| ==> At(g, to, p * Page(g) + y) == Spliced(data, here, at, d, y)
    ensures PageIs(g, to, p, if here then Splice(data, at, d) else data)
  {
    hide Page, At;
    var after := if here then Splice(data, at, d) else data;
    forall y | 0 <= y < Page(g) ensures after[y] == At(g, to, p * Page(g) + y) {
      assert after[y] == Spliced(data, here, at, d, y);
    }
  }

  lemma PagePatched(g: Shape, from: map<nat, seq<Byte>>, to: map<nat, seq<Byte>>, p: nat, data: seq<Byte>, off: nat,
                    d: seq<Byte>)
    requires Sane(g) && Page(g) > 0 && Patched(g, from, to, off, d) && PageIs(g, from, p, data) && off % Page(g) + |d| <= Page(g)
    ensures off / Page(g) == p ==> PageIs(g, to, p, Splice(data, off % Page(g), d))
    ensures off / Page(g) != p ==> PageIs(g, to, p, data)
  {
    hide Page, At, Patched;
    var here, at := off / Page(g) == p, off % Page(g);
    forall y | 0 <= y < |data| ensures At(g, to, p * Page(g) + y) == Spliced(data, here, at, d, y) {
      assert data[y] == At(g, from, p * Page(g) + y);
      PageByte(g, from, to, p, y, off, d);
    }
    hide PageIs;
    PageSpliced(g, to, p, data, here, at, d);
  }

  /** update_page_cache: the cached page, if there is one, changes with the block. */
  function Updated(g: Shape, cache: map<nat, seq<Byte>>, off: nat, d: seq<Byte>): map<nat, seq<Byte>>
    requires Sane(g) && Page(g) > 0 && off % Page(g) + |d| <= Page(g)
    requires off / Page(g) in cache ==> |cache[off / Page(g)]| == Page(g)
  {
    var p := off / Page(g);
    if p in cache then cache[p := Splice(cache[p], off % Page(g), d)] else cache
  }

  lemma CachePatched(g: Shape, from: map<nat, seq<Byte>>, to: map<nat, seq<Byte>>, cache: map<nat, seq<Byte>>,
                     off: nat, d: seq<Byte>)
    requires Sane(g) && Page(g) > 0 && Patched(g, from, to, off, d) && Coherent(g, from, cache) && off % Page(g) + |d| <= Page(g)
    ensures Coherent(g, to, Updated(g, cache, off, d))
  {
    var after := Updated(g, cache, off, d);
    hide Patched, PageIs;
    forall p | p in after ensures PageIs(g, to, p, after[p]) {
      PagePatched(g, from, to, p, cache[p], off, d);
    }
  }

  lemma PatchOn(g: Shape, a: map<nat, seq<Byte>>, b: map<nat, seq<Byte>>, c: map<nat, seq<Byte>>, off: nat,
                d: seq<Byte>, t: nat, n: nat)
    requires Sane(g) && t + n <= |d| && Patched(g, a, b, off, d[..t]) && Patched(g, b, c, off + t, d[t..t + n])
    ensures Patched(g, a, c, off, d[..t + n])
  {
    forall x: nat ensures At(g, c, x) == if off <= x < off + t + n then d[..t + n][x - off] else At(g, a, x) {
      assert At(g, b, x) == if off <= x < off + t then d[..t][x - off] else At(g, a, x);
    }
  }

  function Min(a: nat, b: nat): nat {
    if a < b then a else b
  }

  function Max(a: nat, b: nat): nat {
    if a > b then a else b
  }

  /** How much of `n` bytes at `off` lies in the first block. */
  function Chunk(g: Shape, off: nat, n: nat): nat
    requires Sane(g)
  {
    Min(g.bs - off % g.bs, n)
  }

  function Zeros(n: nat): (r: seq<Byte>)
    ensures |r| == n && forall j :: 0 <= j < n ==> r[j] == 0
  {
    seq(n, j => 0)
  }

  lemma BlankSame(g: Shape, blocks: map<nat, seq<Byte>>, b: nat)
    requires Sane(g) && BlocksOk(g, blocks) && b !in blocks
    ensures BlocksOk(g, blocks[b := Zeros(g.bs)]) && SameBytes(g, blocks, blocks[b := Zeros(g.bs)])
  {
  }

  lemma SameCoherent(g: Shape, from: map<nat, seq<Byte>>, to: map<nat, seq<Byte>>, cache: map<nat, seq<Byte>>)
    requires Sane(g) && SameBytes(g, from, to) && Coherent(g, from, cache)
    ensures Coherent(g, to, cache)
  {
    forall p | p in cache ensures PageIs(g, to, p, cache[p]) { assert PageIs(g, from, p, cache[p]); }
  }

  lemma SamePatched(g: Shape, a: map<nat, seq<Byte>>, b: map<nat, seq<Byte>>, c: map<nat, seq<Byte>>, off: nat,
                    d: seq<Byte>)
    requires Sane(g)
    ensures Patched(g, a, b, off, d) && SameBytes(g, b, c) ==> Patched(g, a, c, off, d)
    ensures SameBytes(g, a, b) && Patched(g, b, c, off, d) ==> Patched(g, a, c, off, d)
    ensures SameBytes(g, a, b) && SameBytes(g, b, c) ==> SameBytes(g, a, c)
  {
  }

  lemma NothingPatched(g: Shape, a: map<nat, seq<Byte>>, b: map<nat, seq<Byte>>, off: nat)
    requires Sane(g)
    ensures Patched(g, a, b, off, []) <==> SameBytes(g, a, b)
  {
  }

  /** The bytes of `n` bytes at `off` all have their blocks. */
  ghost predicate Mapped(g: Shape, blocks: map<nat, seq<Byte>>, off: nat, n: nat)
    requires Sane(g)
  {
    forall x: nat {:trigger x / g.bs} :: off <= x < off + n ==> x / g.bs in blocks
  }

  lemma MappedOn(g: Shape, blocks: map<nat, seq<Byte>>, off: nat, t: nat, n: nat)
    requires Sane(g) && Mapped(g, blocks, off, t) && (off + t) / g.bs in blocks && (off + t) % g.bs + n <= g.bs
    ensures Mapped(g, blocks, off, t + n)
  {
    forall x: nat {:trigger x / g.bs} | off <= x < off + t + n ensures x / g.bs in blocks {
      if x >= off + t { SameSlot(g.bs, off + t, n, x); }
    }
  }

  // ---------------------------------------------------------------- the blocks a write needs

  /** How many blocks `n` bytes at `off` touch. */
  function Count(g: Shape, off: nat, n: nat): nat
    requires Sane(g)
  {
    if n == 0 || (off + n - 1) / g.bs < off / g.bs then 0 else (off + n - 1) / g.bs - off / g.bs + 1
  }

  /** The blocks a file has, the blocks there are left to take, and whether all went well. */
  datatype Stock = Stock(have: set<nat>, room: nat, ok: bool)

  /** Mapping `n` blocks from `first` on, in order, until there is none left to take. */
  function MapUp(have: set<nat>, room: nat, first: nat, n: nat): Stock {
    if n == 0 then Stock(have, room, true)
    else
      var m := MapUp(have, room, first, n - 1);
      if !m.ok || first + n - 1 in m.have then m
      else if m.room == 0 then m.(ok := false)
      else Stock(m.have + {first + n - 1}, m.room - 1, true)
  }

  /** How many of them the file does not have. */
  function Missing(have: set<nat>, first: nat, n: nat): nat {
    if n == 0 then 0 else Missing(have, first, n - 1) + if first + n - 1 in have then 0 else 1
  }

  /** A write finds its blocks exactly when those it is missing are no more than are left; then it
      has taken just those, else all that were left. */
  lemma {:induction false} MapsIff(have: set<nat>, room: nat, first: nat, n: nat)
    ensures var m := MapUp(have, room, first, n);
      && (m.ok <==> Missing(have, first, n) <= room)
      && (forall b :: b in m.have && b >= first + n ==> b in have)
      && (m.ok ==> m.room == room - Missing(have, first, n) && forall b :: b in m.have <==> b in have || first <= b < first + n)
      && (!m.ok ==> m.room == 0)
  {
    if n > 0 { MapsIff(have, room, first, n - 1); }
  }

  lemma {:induction false} Stuck(have: set<nat>, room: nat, first: nat, k: nat, n: nat)
    requires k <= n && !MapUp(have, room, first, k).ok
    ensures MapUp(have, room, first, n) == MapUp(have, room, first, k)
  {
    if k < n { Stuck(have, room, first, k, n - 1); }
  }

  /** From one chunk of a write to the next goes from one block to the next. */
  lemma NextBlock(g: Shape, off: nat, n: nat, t: nat)
    requires Sane(g) && t < n
    ensures var u := t + Chunk(g, off + t, n - t);
      && t < u <= n
      && (u < n ==> (off + u) / g.bs == (off + t) / g.bs + 1)
      && (u == n ==> (off + n - 1) / g.bs == (off + t) / g.bs)
  {
    var u := t + Chunk(g, off + t, n - t);
    var q, r := (off + t) / g.bs, (off + t) % g.bs;
    assert off + t == q * g.bs + r;
    if u < n {
      assert off + u == (q + 1) * g.bs + 0;
      DivUnique(g.bs, q + 1, 0);
    } else {
      DivUnique(g.bs, q, r + (n - 1 - t));
    }
  }

  /** `k` blocks of `n` bytes at `off` are done with after `t` bytes. */
  ghost predicate Done(g: Shape, off: nat, n: nat, t: nat, k: nat)
    requires Sane(g)
  {
    && t <= n && k <= Count(g, off, n)
    && (t < n ==> (off + t) / g.bs == off / g.bs + k) && (t == n ==> k == Count(g, off, n))
  }

  lemma DoneStart(g: Shape, off: nat, n: nat)
    requires Sane(g)
    ensures Done(g, off, n, 0, 0)
  {
  }

  lemma DoneMeans(g: Shape, off: nat, n: nat, t: nat, k: nat)
    requires Sane(g) && Done(g, off, n, t, k)
    ensures t < n ==> (off + t) / g.bs == off / g.bs + k
    ensures t >= n ==> k == Count(g, off, n)
  {
  }

  lemma DoneNext(g: Shape, off: nat, n: nat, t: nat, k: nat)
    requires Sane(g) && Done(g, off, n, t, k) && t < n
    ensures k < Count(g, off, n) && Done(g, off, n, t + Chunk(g, off + t, n - t), k + 1)
  {
    NextBlock(g, off, n, t);
    InOrder(g.bs, off + t, off + n - 1);
    var u := t + Chunk(g, off + t, n - t);
    if u < n { InOrder(g.bs, off + u, off + n - 1); }
  }

  lemma InOrder(d: nat, x: nat, y: nat)
    requires d > 0 && x <= y
    ensures x / d <= y / d
  {
    var p, q := x / d, y / d;
    assert x == p * d + x % d && y == q * d + y % d;
    assert q < p ==> (q + 1) * d <= p * d;
  }

  /** The first block of a write can be mapped. */
  predicate FirstMaps(g: Shape, have: set<nat>, room: nat, off: nat)
    requires Sane(g)
  {
    off / g.bs in have || room > 0
  }

  /** What a write that fails has put all the same. */
  function Put(g: Shape, have: set<nat>, room: nat, off: nat, d: seq<Byte>): seq<Byte>
    requires Sane(g)
  {
    if |d| <= g.bs && FirstMaps(g, have, room, off) then d[..Chunk(g, off, |d|)] else []
  }

  class Inode {
    const g: Shape
    var blocks: map<nat, seq<Byte>>
    var cache: map<nat, seq<Byte>>
    var size: nat
    var room: nat

    ghost predicate Valid()
      reads this
    {
      Sane(g) && BlocksOk(g, blocks) && Coherent(g, blocks, cache)
    }

    constructor (g: Shape, room: nat)
      requires Sane(g)
      ensures Valid() && blocks == map[] && size == 0 && this.g == g && this.room == room
    {
      this.g, blocks, cache, size, this.room := g, map[], map[], 0, room;
    }

    /** bmap for writing: a block that is missing is allocated and zeroed. */
    method Bmap(off: nat) returns (ok: bool)
      requires Valid()
      modifies this`blocks, this`room
      ensures Valid() && SameBytes(g, old(blocks), blocks)
      ensures Stock(blocks.Keys, room, ok) == MapUp(old(blocks).Keys, old(room), off / g.bs, 1)
      ensures ok ==> off / g.bs in blocks
    {
      hide SameBytes, Coherent, BlocksOk;
      var b := off / g.bs;
      assert MapUp(blocks.Keys, room, b, 0) == Stock(blocks.Keys, room, true);
      assert SameBytes(g, blocks, blocks) by { SameSelf(g, blocks); }
      if b !in blocks {
        if room == 0 { return false; }
        BlankSame(g, blocks, b);
        SameCoherent(g, blocks, blocks[b := Zeros(g.bs)], cache);
        room := room - 1;
        blocks := blocks[b := Zeros(g.bs)];
      }
      return true;
    }

    /** One block's worth of a write: into its buffer, and into its page if that is cached. */
    method PutChunk(off: nat, d: seq<Byte>)
      requires Valid() && off / g.bs in blocks && off % g.bs + |d| <= g.bs
      modifies this`blocks, this`cache
      ensures Valid() && Patched(g, old(blocks), blocks, off, d) && blocks.Keys == old(blocks).Keys
    {
      var b := off / g.bs;
      BlockInPage(g, off, |d|);
      BlockPatched(g, blocks, off, d);
      CachePatched(g, blocks, blocks[b := Splice(blocks[b], off % g.bs, d)], cache, off, d);
      var p := off / Page(g);
      assert p in cache ==> PageIs(g, blocks, p, cache[p]);
      hide Patched, Coherent, PageIs, Page;
      blocks := blocks[b := Splice(blocks[b], off % g.bs, d)];
      if p in cache {
        cache := cache[p := Splice(cache[p], off % Page(g), d)];
      }
    }

    /** The first loop of a large write: every block it needs, before any byte is written. */
    method MapAll(off: nat, n: nat) returns (ok: bool)
      requires Valid()
      modifies this`blocks, this`room
      ensures Valid() && SameBytes(g, old(blocks), blocks) && (ok ==> Mapped(g, blocks, off, n))
      ensures Stock(blocks.Keys, room, ok) == MapUp(old(blocks).Keys, old(room), off / g.bs, Count(g, off, n))
    {
      hide SameBytes, Coherent, BlocksOk, Count, Chunk, MapUp, Done, Mapped;
      NoneYet(g, blocks, off, room);
      var total := 0;
      ghost var k := 0;
      DoneStart(g, off, n);
      assert SameBytes(g, blocks, blocks) by { SameSelf(g, blocks); }
      while total < n
        invariant 0 <= total <= n && Valid() && SameBytes(g, old(blocks), blocks) && Mapped(g, blocks, off, total)
        invariant Done(g, off, n, total, k)
        invariant Stock(blocks.Keys, room, true) == MapUp(old(blocks).Keys, old(room), off / g.bs, k)
      {
        ghost var was := blocks;
        DoneMeans(g, off, n, total, k);
        DoneNext(g, off, n, total, k);
        OneMore(blocks.Keys, room, old(blocks).Keys, old(room), off / g.bs, k);
        ok := Bmap(off + total);
        SamePatched(g, old(blocks), was, blocks, 0, []);
        if !ok {
          Stuck(old(blocks).Keys, old(room), off / g.bs, k + 1, Count(g, off, n));
          return;
        }
        var bytes := Chunk(g, off + total, n - total);
        ChunkFits(g, off + total, n - total);
        KeepsMapped(g, was, blocks, off, total);
        MappedOn(g, blocks, off, total, bytes);
        total, k := total + bytes, k + 1;
      }
      DoneMeans(g, off, n, total, k);
      return true;
    }

    /** The second loop of a large write. */
    method PutAll(off: nat, d: seq<Byte>)
      requires Valid() && Mapped(g, blocks, off, |d|)
      modifies this`blocks, this`cache
      ensures Valid() && Patched(g, old(blocks), blocks, off, d) && blocks.Keys == old(blocks).Keys
    {
      hide SameBytes, Patched, Coherent, BlocksOk;
      var total := 0;
      NothingPatched(g, blocks, blocks, off);
      assert SameBytes(g, blocks, blocks) by { SameSelf(g, blocks); }
      assert d[..0] == [];
      while total < |d|
        invariant 0 <= total <= |d| && Valid() && Patched(g, old(blocks), blocks, off, d[..total])
        invariant blocks.Keys == old(blocks).Keys
      {
        ghost var was := blocks;
        var bytes := Chunk(g, off + total, |d| - total);
        assert (off + total) / g.bs in blocks;
        PutChunk(off + total, d[total..total + bytes]);
        PatchOn(g, old(blocks), was, blocks, off, d, total, bytes);
        total := total + bytes;
      }
      assert d[..total] == d;
    }

    /** A write of at most one block's size, which may still touch two blocks. */
    method PutSmall(off: nat, d: seq<Byte>) returns (ok: bool)
      requires Valid() && |d| <= g.bs
      modifies this`blocks, this`cache, this`room
      ensures Valid() && (ok ==> Patched(g, old(blocks), blocks, off, d))
      ensures Stock(blocks.Keys, room, ok) == MapUp(old(blocks).Keys, old(room), off / g.bs, Count(g, off, |d|))
      ensures !ok ==> Patched(g, old(blocks), blocks, off, if FirstMaps(g, old(blocks).Keys, old(room), off) then d[..Chunk(g, off, |d|)] else [])
    {
      hide SameBytes, Patched, Coherent, BlocksOk, Count, Chunk, MapUp, Done, FirstMaps;
      NoneYet(g, blocks, off, room);
      var total := 0;
      ghost var k := 0;
      NothingPatched(g, blocks, blocks, off);
      assert SameBytes(g, blocks, blocks) by { SameSelf(g, blocks); }
      assert d[..0] == [];
      DoneStart(g, off, |d|);
      while total < |d|
        invariant 0 <= total <= |d| && Valid() && Patched(g, old(blocks), blocks, off, d[..total])
        invariant (k == 0 && total == 0) || (k > 0 && FirstMaps(g, old(blocks).Keys, old(room), off) && total in {Chunk(g, off, |d|), |d|})
        invariant Done(g, off, |d|, total, k)
        invariant Stock(blocks.Keys, room, true) == MapUp(old(blocks).Keys, old(room), off / g.bs, k)
      {
        ghost var was := blocks;
        DoneMeans(g, off, |d|, total, k);
        DoneNext(g, off, |d|, total, k);
        OneMore(blocks.Keys, room, old(blocks).Keys, old(room), off / g.bs, k);
        ok := Bmap(off + total);
        SamePatched(g, old(blocks), was, blocks, off, d[..total]);
        if !ok {
          FirstIs(g, old(blocks).Keys, old(room), off);
          Stuck(old(blocks).Keys, old(room), off / g.bs, k + 1, Count(g, off, |d|));
          return;
        }
        var bytes := Chunk(g, off + total, |d| - total);
        ChunkFits(g, off + total, |d| - total);
        SecondBlock(g, off, |d|, total);
        FirstIs(g, old(blocks).Keys, old(room), off);
        was := blocks;
        PutChunk(off + total, d[total..total + bytes]);
        PatchOn(g, old(blocks), was, blocks, off, d, total, bytes);
        total, k := total + bytes, k + 1;
      }
      assert d[..total] == d;
      DoneMeans(g, off, |d|, total, k);
      return true;
    }

    /** ext2_file_write. It fails when it runs out of blocks; a large write has then changed no byte,
        a small one has put what goes into its first block if that could be mapped. */
    method Write(pos: nat, append: bool, d: seq<Byte>) returns (r: Option<nat>)
      requires Valid()
      modifies this
      ensures Valid() && var off := if append then old(size) else pos;
        && Stock(blocks.Keys, room, r.Some?) == MapUp(old(blocks).Keys, old(room), off / g.bs, Count(g, off, |d|))
        && (r.Some? ==> r.value == off + |d| && Patched(g, old(blocks), blocks, off, d) && size == Max(old(size), off + |d|))
        && (r == None ==> Patched(g, old(blocks), blocks, off, Put(g, old(blocks).Keys, old(room), off, d)) && size == old(size))
    {
      hide SameBytes, Patched, Coherent, BlocksOk, Count, Chunk, MapUp;
      var off := if append then size else pos;
      var ok;
      if |d| > g.bs {
        ok := MapAll(off, |d|);
        if ok {
          ghost var was := blocks;
          PutAll(off, d);
          SamePatched(g, old(blocks), was, blocks, off, d);
        } else {
          NothingPatched(g, old(blocks), blocks, off);
        }
      } else {
        ok := PutSmall(off, d);
      }
      if !ok { return None; }
      if off + |d| > size { size := off + |d|; }
      return Some(off + |d|);
    }

    /** bread_page: a page put together from its blocks, holes as zeros. */
    method BreadPage(p: nat) returns (data: seq<Byte>)
      requires Valid()
      ensures PageIs(g, blocks, p, data)
    {
      data := [];
      var i := 0;
      while i < g.per
        invariant 0 <= i <= g.per && |data| == i * g.bs
        invariant forall y :: 0 <= y < |data| ==> data[y] == At(g, blocks, p * Page(g) + y)
      {
        var b := p * g.per + i;
        var more := if b in blocks then blocks[b] else Zeros(g.bs);
        BlockOfPage(g, blocks, p, i, more);
        data := data + more;
        i := i + 1;
      }
    }

    /** file_read: through the page cache, a page at a time, up to the end of the file. */
    method Read(pos: nat, n: nat) returns (data: seq<Byte>, next: nat)
      requires Valid()
      modifies this`cache
      ensures Valid() && next == Min(pos, size) + |data| && |data| == Min(n, size - Min(pos, size))
      ensures forall j :: 0 <= j < |data| ==> data[j] == At(g, blocks, Min(pos, size) + j)
    {
      var off := Min(pos, size);
      var count := Min(n, size - off);
      data := [];
      next := off;
      while count > 0
        invariant Valid() && count >= 0 && next == off + |data| && |data| + count == Min(n, size - off)
        invariant forall j :: 0 <= j < |data| ==> data[j] == At(g, blocks, off + j)
      {
        var bytes := ReadPage(next, count);
        data, count, next := data + bytes, count - |bytes|, next + |bytes|;
      }
    }

    /** One page's worth of a read. */
    method ReadPage(at: nat, count: nat) returns (bytes: seq<Byte>)
      requires Valid() && count > 0
      modifies this`cache
      ensures Valid() && 0 < |bytes| <= count
      ensures forall j :: 0 <= j < |bytes| ==> bytes[j] == At(g, blocks, at + j)
    {
      PagePositive(g);
      var p: nat, poffset: nat := at / Page(g), at % Page(g);
      if p !in cache {
        var page := BreadPage(p);
        cache := cache[p := page];
      }
      assert PageIs(g, blocks, p, cache[p]);
      bytes := cache[p][poffset..poffset + Min(Page(g) - poffset, count)];
      assert at == p * Page(g) + poffset;
      forall j | 0 <= j < |bytes| ensures bytes[j] == At(g, blocks, at + j) {
        assert bytes[j] == At(g, blocks, p * Page(g) + (poffset + j));
      }
    }

    /** A cached page is reclaimed. */
    method Evict(p: nat)
      requires Valid()
      modifies this`cache
      ensures Valid() && cache == old(cache) - {p}
    {
      cache := cache - {p};
    }
  }

  lemma PagePositive(g: Shape)
    requires Sane(g)
    ensures Page(g) > 0
  {
    MulLe(1, g.per, g.bs);
  }

  lemma SameSelf(g: Shape, blocks: map<nat, seq<Byte>>)
    requires Sane(g)
    ensures SameBytes(g, blocks, blocks)
  {
  }

  lemma ChunkFits(g: Shape, off: nat, n: nat)
    requires Sane(g)
    ensures off % g.bs + Chunk(g, off, n) <= g.bs && Chunk(g, off, n) <= n
  {
  }

  lemma NoneYet(g: Shape, blocks: map<nat, seq<Byte>>, off: nat, room: nat)
    requires Sane(g)
    ensures Mapped(g, blocks, off, 0) && MapUp(blocks.Keys, room, off / g.bs, 0) == Stock(blocks.Keys, room, true)
  {
  }

  lemma FirstIs(g: Shape, have: set<nat>, room: nat, off: nat)
    requires Sane(g)
    ensures MapUp(have, room, off / g.bs, 1).ok <==> FirstMaps(g, have, room, off)
  {
    assert MapUp(have, room, off / g.bs, 0) == Stock(have, room, true);
  }

  lemma KeepsMapped(g: Shape, was: map<nat, seq<Byte>>, blocks: map<nat, seq<Byte>>, off: nat, n: nat)
    requires Sane(g) && Mapped(g, was, off, n) && was.Keys <= blocks.Keys
    ensures Mapped(g, blocks, off, n)
  {
  }

  /** One block after `k`. */
  lemma OneMore(have: set<nat>, room: nat, from: set<nat>, start: nat, first: nat, k: nat)
    requires Stock(have, room, true) == MapUp(from, start, first, k)
    ensures MapUp(have, room, first + k, 1) == MapUp(from, start, first, k + 1)
    ensures have <= MapUp(have, room, first + k, 1).have
  {
    assert MapUp(have, room, first + k, 0) == Stock(have, room, true);
  }

  /** A write of no more than a block reaches its end in the block after its first. */
  lemma SecondBlock(g: Shape, off: nat, n: nat, t: nat)
    requires Sane(g) && n <= g.bs && t < n && (t == 0 || t == Chunk(g, off, n))
    ensures t > 0 ==> Chunk(g, off + t, n - t) == n - t
  {
    if t > 0 {
      var q := off / g.bs;
      assert off + t == (q + 1) * g.bs + 0;
      DivUnique(g.bs, q + 1, 0);
    }
  }

  lemma BlockOfPage(g: Shape, blocks: map<nat, seq<Byte>>, p: nat, i: nat, data: seq<Byte>)
    requires Sane(g) && i < g.per && BlocksOk(g, blocks)
    requires data == if p * g.per + i in blocks then blocks[p * g.per + i] else Zeros(g.bs)
    ensures |data| == g.bs && (i + 1) * g.bs == i * g.bs + g.bs
    ensures forall r :: 0 <= r < g.bs ==> data[r] == At(g, blocks, p * Page(g) + (i * g.bs + r))
  {
    hide Page;
    forall r | 0 <= r < g.bs ensures data[r] == At(g, blocks, p * Page(g) + (i * g.bs + r)) {
      Place(g, p, i, r);
    }
  }

  // ---------------------------------------------------------------- a file without its pages

  /** A file: the bytes put into its blocks, with zeros after them; its size; its blocks; and the
      blocks that are left to take. */
  datatype Image = Image(bytes: seq<Byte>, size: nat, have: set<nat>, room: nat)

  function ByteAt(s: seq<Byte>, x: nat): Byte {
    if x < |s| then s[x] else 0
  }

  /** A write to a plain sequence, which grows with zeros as far as it has to. */
  function PlainWrite(s: seq<Byte>, off: nat, d: seq<Byte>): (r: seq<Byte>)
    ensures |r| == Max(|s|, off + |d|)
    ensures forall x: nat :: ByteAt(r, x) == if off <= x < off + |d| then d[x - off] else ByteAt(s, x)
  {
    seq(Max(|s|, off + |d|), x requires 0 <= x < Max(|s|, off + |d|) => if off <= x < off + |d| then d[x - off] else if x < |s| then s[x] else 0)
  }

  function PlainRead(s: seq<Byte>, pos: nat, n: nat): seq<Byte> {
    var off := Min(pos, |s|);
    s[off..off + Min(n, |s| - off)]
  }

  /** The bytes up to the size. */
  function Text(i: Image): (r: seq<Byte>)
    ensures |r| == i.size && forall x :: 0 <= x < i.size ==> r[x] == ByteAt(i.bytes, x)
  {
    seq(i.size, x requires 0 <= x < i.size => ByteAt(i.bytes, x))
  }

  function Needs(g: Shape, i: Image, off: nat, d: seq<Byte>): Stock
    requires Sane(g)
  {
    MapUp(i.have, i.room, off / g.bs, Count(g, off, |d|))
  }

  function Written(g: Shape, i: Image, off: nat, d: seq<Byte>): Image
    requires Sane(g)
  {
    var m := Needs(g, i, off, d);
    if m.ok then Image(PlainWrite(i.bytes, off, d), Max(i.size, off + |d|), m.have, m.room)
    else Image(PlainWrite(i.bytes, off, Put(g, i.have, i.room, off, d)), i.size, m.have, m.room)
  }

  /** Past its end a file has no bytes but zeros, so that growing it shows zeros in the gap. */
  ghost predicate ZeroTail(i: Image) {
    forall x: nat :: i.size <= x ==> ByteAt(i.bytes, x) == 0
  }

  /** A write that finds its blocks is the write to a plain sequence. */
  lemma WriteIsPlain(g: Shape, i: Image, off: nat, d: seq<Byte>)
    requires Sane(g) && ZeroTail(i) && Needs(g, i, off, d).ok
    ensures ZeroTail(Written(g, i, off, d)) && Text(Written(g, i, off, d)) == PlainWrite(Text(i), off, d)
  {
    hide Needs, Count;
    var t, r := Text(Written(g, i, off, d)), PlainWrite(Text(i), off, d);
    forall x | 0 <= x < |t| ensures t[x] == r[x] {
      assert r[x] == ByteAt(r, x) && ByteAt(PlainWrite(i.bytes, off, d), x) == t[x];
    }
  }

  /** What the write had put all the same is what was there already. */
  ghost predicate Harmless(g: Shape, i: Image, off: nat, d: seq<Byte>)
    requires Sane(g)
  {
    |d| <= g.bs && FirstMaps(g, i.have, i.room, off) ==>
      forall j :: 0 <= j < Chunk(g, off, |d|) ==> d[j] == ByteAt(i.bytes, off + j)
  }

  /** A write that fails leaves the file as it was exactly when it could not put its first chunk, or
      that is what was there, zeros past the end. */
  lemma FailedKeepsIff(g: Shape, i: Image, off: nat, d: seq<Byte>)
    requires Sane(g) && ZeroTail(i) && !Needs(g, i, off, d).ok
    ensures var w := Written(g, i, off, d); ZeroTail(w) && Text(w) == Text(i) <==> Harmless(g, i, off, d)
  {
    hide Needs, Count, Chunk;
    var w, c := Written(g, i, off, d), Put(g, i.have, i.room, off, d);
    ChunkFits(g, off, |d|);
    if ZeroTail(w) && Text(w) == Text(i) {
      forall j | 0 <= j < |c| ensures c[j] == ByteAt(i.bytes, off + j) {
        assert ByteAt(w.bytes, off + j) == c[j];
        if off + j < i.size { assert Text(w)[off + j] == Text(i)[off + j]; }
      }
    }
    if Harmless(g, i, off, d) {
      forall x: nat ensures ByteAt(w.bytes, x) == ByteAt(i.bytes, x) {
        if off <= x < off + |c| { assert c[x - off] == d[x - off]; }
      }
      assert Text(w) == Text(i);
    }
  }

  // ---------------------------------------------------------------- every run

  datatype Op = Store(pos: nat, append: bool, d: seq<Byte>) | Fetch(pos: nat, n: nat) | Reclaim(page: nat)

  /** What a call shows: where the write ended, if it did not fail, or what the read read and where
      it ended. */
  datatype Seen = Wrote(end: Option<nat>) | Got(data: seq<Byte>, next: nat) | Dropped

  function Offset(i: Image, op: Op): nat
    requires op.Store?
  {
    if op.append then i.size else op.pos
  }

  function Step(g: Shape, i: Image, op: Op): (Seen, Image)
    requires Sane(g)
  {
    match op
    case Store(_, _, d) =>
      var off := Offset(i, op);
      (Wrote(if Needs(g, i, off, d).ok then Some(off + |d|) else None), Written(g, i, off, d))
    case Fetch(pos, n) =>
      var data := PlainRead(Text(i), pos, n);
      (Got(data, Min(pos, i.size) + |data|), i)
    case Reclaim(_) => (Dropped, i)
  }

  function Final(g: Shape, room: nat, ops: seq<Op>): Image
    requires Sane(g)
  {
    if ops == [] then Image([], 0, {}, room) else Step(g, Final(g, room, ops[..|ops| - 1]), ops[|ops| - 1]).1
  }

  function Shown(g: Shape, room: nat, ops: seq<Op>): (r: seq<Seen>)
    requires Sane(g)
    ensures |r| == |ops|
  {
    if ops == [] then []
    else
      var n := |ops| - 1;
      Shown(g, room, ops[..n]) + [Step(g, Final(g, room, ops[..n]), ops[n]).0]
  }

  /** The plain sequence of bytes after these calls: each write that did not fail is done to it. */
  function Plain(ops: seq<Op>, seen: seq<Seen>): seq<Byte>
    requires |ops| == |seen|
  {
    if ops == [] then []
    else
      var n := |ops| - 1;
      var s := Plain(ops[..n], seen[..n]);
      if ops[n].Store? && seen[n].Wrote? && seen[n].end.Some?
      then PlainWrite(s, if ops[n].append then |s| else ops[n].pos, ops[n].d) else s
  }

  /** No write of the run that fails leaves anything behind. */
  ghost predicate AllHarmless(g: Shape, room: nat, ops: seq<Op>)
    requires Sane(g)
  {
    forall n :: 0 <= n < |ops| && ops[n].Store? ==>
      var i := Final(g, room, ops[..n]); var off := Offset(i, ops[n]);
      Needs(g, i, off, ops[n].d).ok || Harmless(g, i, off, ops[n].d)
  }

  lemma HarmlessLess(g: Shape, room: nat, ops: seq<Op>)
    requires Sane(g) && ops != [] && AllHarmless(g, room, ops)
    ensures AllHarmless(g, room, ops[..|ops| - 1])
  {
    hide Final, Needs, Harmless;
    var o := ops[..|ops| - 1];
    assert forall n :: 0 <= n < |o| ==> o[..n] == ops[..n];
  }

  /** In a run in which no failing write leaves anything behind, the file is at every moment the
      plain sequence of bytes; so that is what every read shows. */
  lemma {:induction false} FileIsPlain(g: Shape, room: nat, ops: seq<Op>)
    requires Sane(g) && AllHarmless(g, room, ops)
    ensures var i := Final(g, room, ops); ZeroTail(i) && Text(i) == Plain(ops, Shown(g, room, ops))
  {
    if ops != [] {
      var n := |ops| - 1;
      HarmlessLess(g, room, ops);
      FileIsPlain(g, room, ops[..n]);
      var i, op := Final(g, room, ops[..n]), ops[n];
      assert Shown(g, room, ops)[..n] == Shown(g, room, ops[..n]);
      hide Written, Needs, Harmless, ZeroTail, Plain;
      PlainNext(ops, Shown(g, room, ops));
      if op.Store? {
        var off := Offset(i, op);
        if Needs(g, i, off, op.d).ok { WriteIsPlain(g, i, off, op.d); } else { FailedKeepsIff(g, i, off, op.d); }
      }
    }
  }

  lemma PlainNext(ops: seq<Op>, seen: seq<Seen>)
    requires |ops| == |seen| > 0
    ensures var n := |ops| - 1; var s := Plain(ops[..n], seen[..n]);
      Plain(ops, seen) == if ops[n].Store? && seen[n].Wrote? && seen[n].end.Some?
        then PlainWrite(s, if ops[n].append then |s| else ops[n].pos, ops[n].d) else s
  {
  }

  // ---------------------------------------------------------------- pages and blocks do the same

  ghost predicate Shows(g: Shape, blocks: map<nat, seq<Byte>>, size: nat, room: nat, i: Image)
    requires Sane(g)
  {
    && blocks.Keys == i.have && size == i.size && room == i.room
    && forall x: nat :: At(g, blocks, x) == ByteAt(i.bytes, x)
  }

  lemma ShowsWrite(g: Shape, from: map<nat, seq<Byte>>, to: map<nat, seq<Byte>>, size: nat, room: nat, left: nat,
                   i: Image, off: nat, d: seq<Byte>, ok: bool)
    requires Sane(g) && Shows(g, from, size, room, i)
    requires Stock(to.Keys, left, ok) == MapUp(from.Keys, room, off / g.bs, Count(g, off, |d|))
    requires Patched(g, from, to, off, if ok then d else Put(g, from.Keys, room, off, d))
    ensures Shows(g, to, if ok then Max(size, off + |d|) else size, left, Written(g, i, off, d))
  {
    hide At, MapUp, Count, Chunk;
  }

  /** Over every sequence of writes, reads and evictions, whether or not blocks run out, each call
      shows what it shows of the image. */
  method Run(g: Shape, room: nat, ops: seq<Op>) returns (seen: seq<Seen>)
    requires Sane(g)
    ensures seen == Shown(g, room, ops)
  {
    hide Shows, Patched, SameBytes, BlocksOk, Coherent, At, PlainRead, MapUp, Count, Written, Text;
    var f := new Inode(g, room);
    seen := [];
    ShowsStart(g, room);
    for n := 0 to |ops|
      invariant fresh(f) && f.Valid() && f.g == g && seen == Shown(g, room, ops[..n])
      invariant Shows(g, f.blocks, f.size, f.room, Final(g, room, ops[..n]))
    {
      assert ops[..n + 1][..n] == ops[..n];
      var o := Perform(f, ops[n], Final(g, room, ops[..n]));
      seen := seen + [o];
    }
    assert ops[..|ops|] == ops;
  }

  method Perform(f: Inode, op: Op, ghost i: Image) returns (o: Seen)
    requires f.Valid() && Shows(f.g, f.blocks, f.size, f.room, i)
    modifies f
    ensures f.Valid() && o == Step(f.g, i, op).0 && Shows(f.g, f.blocks, f.size, f.room, Step(f.g, i, op).1)
  {
    hide Patched, SameBytes, BlocksOk, Coherent, At, PlainRead, MapUp, Count, Written, Text, Put;
    match op {
      case Store(pos, append, d) =>
        ghost var was, size, room := f.blocks, f.size, f.room;
        var r := f.Write(pos, append, d);
        ShowsWrite(f.g, was, f.blocks, size, room, f.room, i, Offset(i, op), d, r.Some?);
        o := Wrote(r);
      case Fetch(pos, n) =>
        var data, next := f.Read(pos, n);
        ReadShows(f.g, f.blocks, f.size, f.room, i, pos, n, data);
        o := Got(data, next);
      case Reclaim(p) =>
        f.Evict(p);
        o := Dropped;
    }
  }

  lemma ShowsStart(g: Shape, room: nat)
    requires Sane(g)
    ensures Shows(g, map[], 0, room, Final(g, room, []))
  {
  }

  lemma ReadShows(g: Shape, blocks: map<nat, seq<Byte>>, size: nat, room: nat, i: Image, pos: nat, n: nat, data: seq<Byte>)
    requires Sane(g) && Shows(g, blocks, size, room, i) && |data| == Min(n, size - Min(pos, size))
    requires forall j :: 0 <= j < |data| ==> data[j] == At(g, blocks, Min(pos, size) + j)
    ensures data == PlainRead(Text(i), pos, n)
  {
    hide At;
  }

  /** With two blocks left to take: a byte in the third block of a file leaves a gap before it. Two
      more bytes across the end of the first block fail for want of the second, and yet the first
      of them is then read in the gap. */
  lemma FailedExample()
    ensures Shown(Shape(1024, 4), 2, [Store(2048, false, [1]), Store(1023, false, [7, 7]), Fetch(1023, 1)]) ==
      [Wrote(Some(2049)), Wrote(None), Got([7], 1024)]
  {
    hide MapUp, Count, PlainWrite;
    var g := Shape(1024, 4);
    var d: seq<Byte> := [7, 7];
    var ops := [Store(2048, false, [1]), Store(1023, false, d), Fetch(1023, 1)];
    ExampleStock(g);
    assert ops[..1][..0] == [] && ops[..2][..1] == ops[..1] && ops[..3] == ops;
    var i := Final(g, 2, ops[..1]);
    assert i.size == 2049 && i.have == {2} && i.room == 1 && 1023 / g.bs == 0 && 2048 / g.bs == 2;
    assert Chunk(g, 1023, 2) == 1 && d[..1] == [7];
    var j := Final(g, 2, ops[..2]);
    assert j == Image(PlainWrite(i.bytes, 1023, [7]), 2049, {0, 2}, 0);
    assert ByteAt(j.bytes, 1023) == 7;
    assert PlainRead(Text(j), 1023, 1) == [7];
  }

  lemma ExampleStock(g: Shape)
    requires g.bs == 1024 && Sane(g)
    ensures Count(g, 2048, 1) == 1 && MapUp({}, 2, 2, 1) == Stock({2}, 1, true)
    ensures Count(g, 1023, 2) == 2 && MapUp({2}, 1, 0, 2) == Stock({0, 2}, 0, false)
  {
    assert MapUp({}, 2, 2, 0) == Stock({}, 2, true);
    assert MapUp({2}, 1, 0, 0) == Stock({2}, 1, true);
    assert MapUp({2}, 1, 0, 1) == Stock({0, 2}, 0, true);
  }
}
