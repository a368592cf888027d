/**
 The character queues of the terminals: each a list of fixed-size blocks, all taken from one pool.
 */
module Charq {
  import opened Lists
  import opened Wrappers

  type Byte = bv8

  /** CBSIZE and NR_CB_QUEUE. */
  datatype Limits = Limits(size: nat, blocks: nat)

  /** A cblock: the bytes from `start` to `end` of its data are queued. */
  datatype Block = Block(id: nat, start: nat, end: nat, data: seq<Byte>)

  datatype Queue = Queue(blocks: seq<Block>, count: int)

  // ---------------------------------------------------------------- what a queue holds

  predicate BlockOk(c: Limits, b: Block) {
    |b.data| == c.size && b.start < b.end <= c.size
  }

  function Text(l: seq<Block>): seq<Byte>
    requires forall i :: 0 <= i < |l| ==> l[i].start <= l[i].end <= |l[i].data|
  {
    if l == [] then [] else l[0].data[l[0].start..l[0].end] + Text(l[1..])
  }

  ghost predicate AllOk(c: Limits, l: seq<Block>) {
    forall i :: 0 <= i < |l| ==> BlockOk(c, l[i])
  }

  /** Only the first block has been read from, and only the last has room behind its bytes. */
  ghost predicate Packed(c: Limits, l: seq<Block>) {
    forall i :: 0 <= i < |l| ==> (i > 0 ==> l[i].start == 0) && (i + 1 < |l| ==> l[i].end == c.size)
  }

  /** No queued block is empty, the counters are right, and there are no more blocks than allowed. */
  ghost predicate QueueOk(c: Limits, q: Queue) {
    AllOk(c, q.blocks) && Packed(c, q.blocks) && q.count == |Text(q.blocks)| && |q.blocks| <= c.blocks
  }

  // ---------------------------------------------------------------- a queue without its blocks

  /** The bytes in a queue, and how many were read from its first block before them. */
  datatype Line = Line(s: seq<Byte>, first: nat)

  function View(l: seq<Block>): Line
    requires forall i :: 0 <= i < |l| ==> l[i].start <= l[i].end <= |l[i].data|
  {
    Line(Text(l), if l == [] then 0 else l[0].start)
  }

  /** How many blocks `n` bytes take, and how many of them are in the last one. */
  function Needs(size: nat, n: nat): nat
    requires size > 0
  {
    if n == 0 then 0 else if n <= size then 1 else 1 + Needs(size, n - size)
  }

  function Tail(size: nat, n: nat): nat
    requires size > 0
  {
    if n <= size then n else Tail(size, n - size)
  }

  function BlocksOf(c: Limits, x: Line): nat
    requires c.size > 0
  {
    if x.s == [] then 0 else Needs(c.size, x.first + |x.s|)
  }

  /** One more byte gets in: the last block has room behind its bytes, or one more block is allowed
      and there is one to spare. */
  predicate Fits(c: Limits, x: Line, spare: nat)
    requires c.size > 0
  {
    (x.s != [] && Tail(c.size, x.first + |x.s|) < c.size) || (BlocksOf(c, x) < c.blocks && spare > 0)
  }

  /** Read up to `first`: a block that has been read is gone. */
  function Trim(c: Limits, s: seq<Byte>, first: nat): Line {
    Line(s, if s == [] || first >= c.size then 0 else first)
  }

  /** The blocks of a queue are as many as its bytes need. */
  lemma {:induction false} BlocksAre(c: Limits, l: seq<Block>)
    requires AllOk(c, l) && Packed(c, l) && c.size > 0
    ensures |l| == BlocksOf(c, View(l))
    ensures l != [] ==> Text(l) != [] && l[|l| - 1].end == Tail(c.size, View(l).first + |Text(l)|)
  {
    if |l| == 1 {
      assert l[1..] == [];
      assert BlockOk(c, l[0]);
    } else if l != [] {
      SplitFirst(c, l);
      BlocksAre(c, l[1..]);
      assert BlockOk(c, l[1]);
    }
  }

  lemma {:induction false} TextAppend(a: seq<Block>, b: seq<Block>)
    requires forall i :: 0 <= i < |a| ==> a[i].start <= a[i].end <= |a[i].data|
    requires forall i :: 0 <= i < |b| ==> b[i].start <= b[i].end <= |b[i].data|
    ensures Text(a + b) == Text(a) + Text(b)
  {
    if a == [] {
      assert a + b == b;
    } else {
      assert (a + b)[1..] == a[1..] + b;
      TextAppend(a[1..], b);
    }
  }

  lemma TextOne(b: Block)
    requires b.start <= b.end <= |b.data|
    ensures Text([b]) == b.data[b.start..b.end]
  {
    assert [b][1..] == [];
  }

  function Ids(l: seq<Block>): seq<nat> {
    if l == [] then [] else [l[0].id] + Ids(l[1..])
  }

  // ---------------------------------------------------------------- changes at either end

  lemma GrownText(a: seq<Block>, t: Block, ch: Byte)
    requires (forall i :: 0 <= i < |a| ==> a[i].start <= a[i].end <= |a[i].data|) && t.start <= t.end < |t.data|
    ensures Text(a + [t.(data := t.data[t.end := ch], end := t.end + 1)]) == Text(a + [t]) + [ch]
  {
    var u := t.(data := t.data[t.end := ch], end := t.end + 1);
    TextAppend(a, [t]);
    TextAppend(a, [u]);
    TextOne(t);
    TextOne(u);
    assert u.data[u.start..u.end] == t.data[t.start..t.end] + [ch];
  }

  lemma ShrunkText(a: seq<Block>, t: Block)
    requires (forall i :: 0 <= i < |a| ==> a[i].start <= a[i].end <= |a[i].data|) && t.start < t.end <= |t.data|
    ensures Text(a + [t]) == Text(a + [t.(end := t.end - 1)]) + [t.data[t.end - 1]]
    ensures t.start + 1 == t.end ==> Text(a + [t.(end := t.end - 1)]) == Text(a)
  {
    var u := t.(end := t.end - 1);
    TextAppend(a, [t]);
    TextAppend(a, [u]);
    TextOne(t);
    TextOne(u);
    assert t.data[t.start..t.end] == u.data[u.start..u.end] + [t.data[t.end - 1]];
  }

  lemma DrainedText(h: Block, b: seq<Block>)
    requires (forall i :: 0 <= i < |b| ==> b[i].start <= b[i].end <= |b[i].data|) && h.start < h.end <= |h.data|
    ensures Text([h] + b) == [h.data[h.start]] + Text([h.(start := h.start + 1)] + b)
    ensures h.start + 1 == h.end ==> Text([h.(start := h.start + 1)] + b) == Text(b)
  {
    var u := h.(start := h.start + 1);
    TextAppend([h], b);
    TextAppend([u], b);
    TextOne(h);
    TextOne(u);
    assert h.data[h.start..h.end] == [h.data[h.start]] + u.data[u.start..u.end];
  }

  // ---------------------------------------------------------------- whose block is whose

  /** Every block is in the pool or in one queue, and there once. */
  ghost predicate PlacesOk(pool: seq<nat>, queues: map<nat, Queue>, owner: map<nat, Option<nat>>) {
    InPool(pool, owner) && InQueues(queues, owner)
  }

  ghost predicate InPool(pool: seq<nat>, owner: map<nat, Option<nat>>) {
    NoDup(pool) && forall id :: id in pool <==> id in owner && owner[id] == None
  }

  ghost predicate InQueues(queues: map<nat, Queue>, owner: map<nat, Option<nat>>) {
    && (forall id :: id in owner && owner[id].Some? ==> owner[id].value in queues)
    && (forall q :: q in queues ==> Places(Ids(queues[q].blocks), q, owner))
  }

  ghost predicate Places(ids: seq<nat>, q: nat, owner: map<nat, Option<nat>>) {
    NoDup(ids) && forall id :: id in ids <==> id in owner && owner[id] == Some(q)
  }

  lemma {:induction false} IdsAppend(a: seq<Block>, b: seq<Block>)
    ensures Ids(a + b) == Ids(a) + Ids(b)
  {
    if a == [] {
      assert a + b == b;
    } else {
      assert (a + b)[1..] == a[1..] + b;
      IdsAppend(a[1..], b);
    }
  }

  lemma {:induction false} NoDupFront(s: seq<nat>, x: nat)
    requires NoDup(s + [x])
    ensures NoDup(s) && x !in s
  {
    if s != [] {
      assert (s + [x])[1..] == s[1..] + [x];
      NoDupFront(s[1..], x);
    }
  }

  /** A block from the pool at the end of queue `q`. */
  lemma PlacesMore(pool: seq<nat>, queues: map<nat, Queue>, owner: map<nat, Option<nat>>, q: nat, t: Queue)
    requires PlacesOk(pool, queues, owner) && q in queues && pool != [] && Ids(t.blocks) == Ids(queues[q].blocks) + [pool[0]]
    ensures PlacesOk(pool[1..], queues[q := t], owner[pool[0] := Some(q)]) && pool[0] in owner
  {
    var x := pool[0];
    assert pool == [x] + pool[1..];
    assert InPool(pool[1..], owner[x := Some(q)]);
    assert x in pool && x in owner && owner[x] == None;
    assert Places(Ids(queues[q].blocks), q, owner);
    NoDupAppend(Ids(queues[q].blocks), x);
    hide NoDup, Ids, InPool;
    Moved(queues, owner, q, t, x, Some(q));
  }

  /** Block `x` changes hands, and with it the list of queue `q`. */
  lemma Moved(queues: map<nat, Queue>, owner: map<nat, Option<nat>>, q: nat, t: Queue, x: nat, to: Option<nat>)
    requires InQueues(queues, owner) && q in queues && x in owner && (owner[x] == None || owner[x] == Some(q)) && (to == None || to == Some(q))
    requires Places(Ids(t.blocks), q, owner[x := to])
    ensures InQueues(queues[q := t], owner[x := to])
  {
    hide NoDup, Ids;
    forall k | k in queues ensures Places(Ids(queues[q := t][k].blocks), k, owner[x := to]) {
      assert Places(Ids(queues[k].blocks), k, owner);
    }
  }

  /** A block of queue `q`, at one of its ends, into the pool. */
  lemma PlacesLess(pool: seq<nat>, queues: map<nat, Queue>, owner: map<nat, Option<nat>>, q: nat, t: Queue, x: nat)
    requires PlacesOk(pool, queues, owner) && q in queues
    requires Ids(queues[q].blocks) == Ids(t.blocks) + [x] || Ids(queues[q].blocks) == [x] + Ids(t.blocks)
    ensures PlacesOk([x] + pool, queues[q := t], owner[x := None]) && x in owner
  {
    var ids := Ids(t.blocks);
    assert Places(Ids(queues[q].blocks), q, owner);
    if Ids(queues[q].blocks) == ids + [x] {
      NoDupFront(ids, x);
    } else {
      assert ([x] + ids)[1..] == ids;
    }
    assert NoDup(ids) && x !in ids && owner[x] == Some(q);
    NoDupPrepend(pool, x);
    hide NoDup, Ids;
    assert InPool([x] + pool, owner[x := None]);
    Moved(queues, owner, q, t, x, None);
  }

  /** The blocks of a queue change, but not which they are. */
  lemma PlacesSame(pool: seq<nat>, queues: map<nat, Queue>, owner: map<nat, Option<nat>>, q: nat, t: Queue)
    requires PlacesOk(pool, queues, owner) && q in queues && Ids(t.blocks) == Ids(queues[q].blocks)
    ensures PlacesOk(pool, queues[q := t], owner)
  {
    hide Places, InPool;
  }

  ghost predicate AllQueuesOk(c: Limits, queues: map<nat, Queue>) {
    forall q :: q in queues ==> QueueOk(c, queues[q])
  }

  function Blank(names: set<nat>): map<nat, Queue> {
    map q | q in names :: Queue([], 0)
  }

  function Zeros(n: nat): (r: seq<Byte>)
    ensures |r| == n
  {
    seq(n, i => 0)
  }

  // ---------------------------------------------------------------- the queues

  lemma SplitLast(c: Limits, l: seq<Block>)
    requires AllOk(c, l) && l != []
    ensures l == l[..|l| - 1] + [l[|l| - 1]] && AllOk(c, l[..|l| - 1]) && BlockOk(c, l[|l| - 1])
  {
  }

  lemma SplitFirst(c: Limits, l: seq<Block>)
    requires AllOk(c, l) && l != []
    ensures l == [l[0]] + l[1..] && AllOk(c, l[1..]) && BlockOk(c, l[0]) && (Packed(c, l) ==> Packed(c, l[1..]))
  {
  }

  lemma PackedLast(c: Limits, l: seq<Block>, t: Block)
    ensures Packed(c, l + [t]) <==> Packed(c, l) && (l != [] ==> l[|l| - 1].end == c.size && t.start == 0)
  {
    var k := l + [t];
    assert forall i :: 0 <= i < |l| ==> k[i] == l[i];
    if Packed(c, k) && l != [] { assert k[|l| - 1] == l[|l| - 1] && k[|l|] == t; }
  }

  lemma PackedFirst(c: Limits, h: Block, l: seq<Block>)
    ensures Packed(c, [h] + l) <==> Packed(c, l) && (l != [] ==> h.end == c.size && l[0].start == 0)
  {
    var k := [h] + l;
    assert forall i :: 0 <= i < |l| ==> l[i] == k[i + 1];
    if Packed(c, k) && l != [] { assert k[0] == h && k[1] == l[0]; }
  }

  lemma PutOk(c: Limits, l: seq<Block>, t: Block, count: int, ch: Byte)
    requires AllOk(c, l) && |t.data| == c.size && t.start <= t.end < c.size && |l| < c.blocks
    requires count == |Text(l + [t])| && Packed(c, l + [t])
    ensures var u := t.(data := t.data[t.end := ch], end := t.end + 1); var x := View(l + [t]);
      && QueueOk(c, Queue(l + [u], count + 1)) && View(l + [u]) == Line(x.s + [ch], x.first)
      && Ids(l + [u]) == Ids(l + [t])
  {
    hide Packed, Text;
    var u := t.(data := t.data[t.end := ch], end := t.end + 1);
    GrownText(l, t, ch);
    PackedLast(c, l, t);
    PackedLast(c, l, u);
    SameId(l, t, u);
  }

  lemma NewBlock(c: Limits, l: seq<Block>, id: nat)
    requires AllOk(c, l) && Packed(c, l) && (l != [] ==> l[|l| - 1].end == c.size)
    ensures var b := Block(id, 0, 0, Zeros(c.size));
      View(l + [b]) == View(l) && Ids(l + [b]) == Ids(l) + [id] && Packed(c, l + [b])
  {
    hide Packed, Text;
    var b := Block(id, 0, 0, Zeros(c.size));
    TextAppend(l, [b]);
    TextOne(b);
    IdsLast(l, b);
    PackedLast(c, l, b);
  }

  lemma UnputOk(c: Limits, l: seq<Block>, t: Block, count: int)
    requires AllOk(c, l) && BlockOk(c, t) && |l| < c.blocks && count == |Text(l + [t])| && Packed(c, l + [t])
    ensures var u := t.(end := t.end - 1); var x := View(l + [t]);
      && x.s != [] && x.s[|x.s| - 1] == t.data[t.end - 1] && Ids(l + [t]) == Ids(l) + [t.id] && Ids(l + [u]) == Ids(l + [t])
      && (u.start < u.end ==> QueueOk(c, Queue(l + [u], count - 1)) && View(l + [u]) == Trim(c, x.s[..|x.s| - 1], x.first))
      && (u.start == u.end ==> QueueOk(c, Queue(l, count - 1)) && View(l) == Trim(c, x.s[..|x.s| - 1], x.first))
  {
    hide Packed, Text, Ids;
    var u, x := t.(end := t.end - 1), View(l + [t]);
    ShrunkText(l, t);
    assert x.s[..|x.s| - 1] == Text(l + [u]);
    SameId(l, t, u);
    IdsLast(l, t);
    PackedLast(c, l, t);
    PackedLast(c, l, u);
    FirstInside(c, l + [t]);
    if u.start < u.end {
      HasText(l, u);
    } else if l == [] {
      NoText();
    } else {
      SplitLast(c, l);
      HasText(l[..|l| - 1], l[|l| - 1]);
    }
  }

  lemma NoText()
    ensures Text([]) == []
  {
  }

  lemma IdsLast(l: seq<Block>, t: Block)
    ensures Ids(l + [t]) == Ids(l) + [t.id]
  {
    IdsAppend(l, [t]);
    assert [t][1..] == [];
  }

  lemma SameId(l: seq<Block>, t: Block, u: Block)
    requires u.id == t.id
    ensures Ids(l + [t]) == Ids(l + [u])
  {
    IdsLast(l, t);
    IdsLast(l, u);
  }

  lemma FirstInside(c: Limits, l: seq<Block>)
    requires AllOk(c, l) && l != []
    ensures View(l).first < c.size
  {
    assert BlockOk(c, l[0]);
  }

  lemma HasText(a: seq<Block>, t: Block)
    requires (forall i :: 0 <= i < |a| ==> a[i].start <= a[i].end <= |a[i].data|) && t.start < t.end <= |t.data|
    ensures Text(a + [t]) != []
  {
    TextAppend(a, [t]);
    TextOne(t);
  }

  lemma GetOk(c: Limits, h: Block, l: seq<Block>, count: int)
    requires AllOk(c, l) && BlockOk(c, h) && |l| < c.blocks && count == |Text([h] + l)| && Packed(c, [h] + l)
    ensures var u := h.(start := h.start + 1); var x := View([h] + l);
      && x.s != [] && x.s[0] == h.data[h.start] && Ids([h] + l) == [h.id] + Ids(l) && Ids([u] + l) == Ids([h] + l)
      && (u.start < u.end ==> QueueOk(c, Queue([u] + l, count - 1)) && View([u] + l) == Trim(c, x.s[1..], x.first + 1))
      && (u.start == u.end ==> QueueOk(c, Queue(l, count - 1)) && View(l) == Trim(c, x.s[1..], x.first + 1))
  {
    hide Packed, Text;
    var u, x := h.(start := h.start + 1), View([h] + l);
    DrainedText(h, l);
    assert x.s[1..] == Text([u] + l);
    IdsAppend([h], l);
    IdsAppend([u], l);
    PackedFirst(c, h, l);
    PackedFirst(c, u, l);
    if u.start < u.end {
      TextAppend([u], l);
      TextOne(u);
    } else if l == [] {
      NoText();
    } else {
      SplitLast(c, l);
      HasText(l[..|l| - 1], l[|l| - 1]);
    }
  }

  lemma TheQueue(c: Limits, queues: map<nat, Queue>, q: nat)
    requires AllQueuesOk(c, queues) && q in queues
    ensures QueueOk(c, queues[q])
  {
  }

  lemma OneQueue(c: Limits, queues: map<nat, Queue>, q: nat, t: Queue)
    requires AllQueuesOk(c, queues) && QueueOk(c, t)
    ensures AllQueuesOk(c, queues[q := t])
  {
    hide QueueOk;
  }

  /** There is room for one more byte: in the last block, or for one more block. A block drained
      at its front has no more room for it. */
  predicate Room(c: Limits, l: seq<Block>, pool: seq<nat>) {
    (l != [] && l[|l| - 1].end < c.size) || (|l| < c.blocks && pool != [])
  }

  /** A byte leaves at the front, or at the back. */
  predicate Takes(c: Limits, x: Line, ch: Byte, y: Line) {
    x.s != [] && ch == x.s[0] && y == Trim(c, x.s[1..], x.first + 1)
  }

  predicate TakesLast(c: Limits, x: Line, ch: Byte, y: Line) {
    x.s != [] && ch == x.s[|x.s| - 1] && y == Trim(c, x.s[..|x.s| - 1], x.first)
  }

  class Queues {
    const c: Limits
    var pool: seq<nat>
    var queues: map<nat, Queue>
    ghost var owner: map<nat, Option<nat>>

    ghost predicate Valid()
      reads this
    {
      c.size > 0 && AllQueuesOk(c, queues) && PlacesOk(pool, queues, owner)
    }

    /** charq_init: all blocks in the pool. */
    constructor (c: Limits, blocks: seq<nat>, names: set<nat>)
      requires c.size > 0 && NoDup(blocks)
      ensures Valid() && this.c == c && owner.Keys == Elements(blocks)
      ensures queues == Blank(names) && pool == blocks
    {
      this.c, pool := c, blocks;
      queues := Blank(names);
      owner := map id | id in blocks :: None;
    }

    ghost function Held(q: nat): Line
      requires Valid() && q in queues
      reads this
    {
      View(queues[q].blocks)
    }

    /** The blocks of queue `q` and those in the pool. */
    ghost function Stock(q: nat): nat
      requires Valid() && q in queues
      reads this
    {
      |pool| + |queues[q].blocks|
    }

    /** charq_putchar: at the back, in the last block or in a new one; or nothing happens. */
    method Putchar(q: nat, ch: Byte) returns (ok: bool)
      requires Valid() && q in queues
      modifies this
      ensures Valid() && queues.Keys == old(queues).Keys && owner.Keys == old(owner).Keys
      ensures ok <==> Room(c, old(queues)[q].blocks, old(pool))
      ensures Stock(q) == old(Stock(q)) && (ok ==> Held(q) == old(Held(q)).(s := old(Held(q)).s + [ch]))
      ensures !ok ==> queues == old(queues) && pool == old(pool)
      ensures forall k :: k in queues && k != q ==> queues[k] == old(queues)[k]
    {
      hide PlacesOk, Ids;
      assert QueueOk(c, queues[q]);
      var l := queues[q].blocks;
      if l != [] && l[|l| - 1].end < c.size {
        PutLast(q, ch);
        return true;
      }
      if |l| >= c.blocks || pool == [] { return false; }
      PutNew(q, ch);
      return true;
    }

    method PutLast(q: nat, ch: Byte)
      requires Valid() && q in queues && queues[q].blocks != [] && queues[q].blocks[|queues[q].blocks| - 1].end < c.size
      modifies this`queues
      ensures Valid() && q in queues && queues == old(queues)[q := queues[q]] && Stock(q) == old(Stock(q))
      ensures Held(q) == old(Held(q)).(s := old(Held(q)).s + [ch])
    {
      hide PlacesOk, AllQueuesOk, Ids, Text, Packed, AllOk;
      TheQueue(c, queues, q);
      var l := queues[q].blocks;
      var a, t := l[..|l| - 1], l[|l| - 1];
      SplitLast(c, l);
      PutOk(c, a, t, queues[q].count, ch);
      var u := Queue(a + [t.(data := t.data[t.end := ch], end := t.end + 1)], queues[q].count + 1);
      PlacesSame(pool, queues, owner, q, u);
      OneQueue(c, queues, q, u);
      queues := queues[q := u];
    }

    method PutNew(q: nat, ch: Byte)
      requires Valid() && q in queues && |queues[q].blocks| < c.blocks && pool != []
      requires queues[q].blocks != [] ==> queues[q].blocks[|queues[q].blocks| - 1].end == c.size
      modifies this`queues, this`pool, this`owner
      ensures Valid() && q in queues && queues == old(queues)[q := queues[q]] && owner.Keys == old(owner).Keys && Stock(q) == old(Stock(q))
      ensures Held(q) == old(Held(q)).(s := old(Held(q)).s + [ch])
    {
      hide PlacesOk, AllQueuesOk, Ids, Text, Packed, AllOk;
      TheQueue(c, queues, q);
      var l := queues[q].blocks;
      var b := Block(pool[0], 0, 0, Zeros(c.size));
      NewBlock(c, l, pool[0]);
      PutOk(c, l, b, queues[q].count, ch);
      var u := Queue(l + [b.(data := b.data[0 := ch], end := 1)], queues[q].count + 1);
      PlacesMore(pool, queues, owner, q, u);
      OneQueue(c, queues, q, u);
      owner := owner[pool[0] := Some(q)];
      pool := pool[1..];
      queues := queues[q := u];
    }

    /** charq_getchar: from the front; 0 when there is nothing. */
    method Getchar(q: nat) returns (ch: Byte)
      requires Valid() && q in queues
      modifies this
      ensures Valid() && queues.Keys == old(queues).Keys && owner.Keys == old(owner).Keys
      ensures Stock(q) == old(Stock(q)) && (old(Held(q)).s == [] ==> ch == 0 && queues == old(queues) && pool == old(pool))
      ensures old(Held(q)).s != [] ==> Takes(c, old(Held(q)), ch, Held(q))
      ensures forall k :: k in queues && k != q ==> queues[k] == old(queues)[k]
    {
      hide PlacesOk, Ids;
      assert QueueOk(c, queues[q]);
      var l := queues[q].blocks;
      if l == [] { return 0; }
      if l[0].start + 1 < l[0].end { ch := GetOne(q); } else { ch := GetLast(q); }
    }

    /** One of several bytes of the first block. */
    method GetOne(q: nat) returns (ch: Byte)
      requires Valid() && q in queues && queues[q].blocks != [] && queues[q].blocks[0].start + 1 < queues[q].blocks[0].end
      modifies this`queues
      ensures Valid() && q in queues && queues == old(queues)[q := queues[q]] && Stock(q) == old(Stock(q))
      ensures Takes(c, old(Held(q)), ch, Held(q))
    {
      hide PlacesOk, AllQueuesOk, Ids, Text, Packed, AllOk;
      TheQueue(c, queues, q);
      var l := queues[q].blocks;
      var h, b := l[0], l[1..];
      SplitFirst(c, l);
      GetOk(c, h, b, queues[q].count);
      var t := Queue([h.(start := h.start + 1)] + b, queues[q].count - 1);
      PlacesSame(pool, queues, owner, q, t);
      OneQueue(c, queues, q, t);
      ch := h.data[h.start];
      queues := queues[q := t];
    }

    /** The last byte of the first block, which goes back to the pool: delete_cblock_from_head. */
    method GetLast(q: nat) returns (ch: Byte)
      requires Valid() && q in queues && queues[q].blocks != [] && queues[q].blocks[0].start + 1 >= queues[q].blocks[0].end
      modifies this`queues, this`pool, this`owner
      ensures Valid() && q in queues && queues == old(queues)[q := queues[q]] && owner.Keys == old(owner).Keys
      ensures Stock(q) == old(Stock(q)) && Takes(c, old(Held(q)), ch, Held(q))
    {
      hide PlacesOk, AllQueuesOk, Ids, Text, Packed, AllOk;
      TheQueue(c, queues, q);
      var l := queues[q].blocks;
      var h, b := l[0], l[1..];
      SplitFirst(c, l);
      GetOk(c, h, b, queues[q].count);
      var t := Queue(b, queues[q].count - 1);
      PlacesLess(pool, queues, owner, q, t, h.id);
      OneQueue(c, queues, q, t);
      ch := h.data[h.start];
      owner := owner[h.id := None];
      pool := [h.id] + pool;
      queues := queues[q := t];
    }

    /** charq_unputchar: from the back; 0 when there is nothing. */
    method Unputchar(q: nat) returns (ch: Byte)
      requires Valid() && q in queues
      modifies this
      ensures Valid() && queues.Keys == old(queues).Keys && owner.Keys == old(owner).Keys
      ensures Stock(q) == old(Stock(q)) && (old(Held(q)).s == [] ==> ch == 0 && queues == old(queues) && pool == old(pool))
      ensures old(Held(q)).s != [] ==> TakesLast(c, old(Held(q)), ch, Held(q))
      ensures forall k :: k in queues && k != q ==> queues[k] == old(queues)[k]
    {
      hide PlacesOk, Ids;
      assert QueueOk(c, queues[q]);
      var l := queues[q].blocks;
      if l == [] { return 0; }
      var t := l[|l| - 1];
      if t.start + 1 < t.end { ch := UnputOne(q); } else { ch := UnputLast(q); }
    }

    method UnputOne(q: nat) returns (ch: Byte)
      requires Valid() && q in queues && queues[q].blocks != []
      requires var t := queues[q].blocks[|queues[q].blocks| - 1]; t.start + 1 < t.end
      modifies this`queues
      ensures Valid() && q in queues && queues == old(queues)[q := queues[q]] && Stock(q) == old(Stock(q))
      ensures TakesLast(c, old(Held(q)), ch, Held(q))
    {
      hide PlacesOk, AllQueuesOk, Ids, Text, Packed, AllOk;
      TheQueue(c, queues, q);
      var l := queues[q].blocks;
      var a, b := l[..|l| - 1], l[|l| - 1];
      SplitLast(c, l);
      UnputOk(c, a, b, queues[q].count);
      var t := Queue(a + [b.(end := b.end - 1)], queues[q].count - 1);
      PlacesSame(pool, queues, owner, q, t);
      OneQueue(c, queues, q, t);
      ch := b.data[b.end - 1];
      queues := queues[q := t];
    }

    /** delete_cblock_from_tail. */
    method UnputLast(q: nat) returns (ch: Byte)
      requires Valid() && q in queues && queues[q].blocks != []
      requires var t := queues[q].blocks[|queues[q].blocks| - 1]; t.start + 1 >= t.end
      modifies this`queues, this`pool, this`owner
      ensures Valid() && q in queues && queues == old(queues)[q := queues[q]] && owner.Keys == old(owner).Keys
      ensures Stock(q) == old(Stock(q)) && TakesLast(c, old(Held(q)), ch, Held(q))
    {
      hide PlacesOk, AllQueuesOk, Ids, Text, Packed, AllOk;
      TheQueue(c, queues, q);
      var l := queues[q].blocks;
      var a, b := l[..|l| - 1], l[|l| - 1];
      SplitLast(c, l);
      UnputOk(c, a, b, queues[q].count);
      var t := Queue(a, queues[q].count - 1);
      PlacesLess(pool, queues, owner, q, t, b.id);
      OneQueue(c, queues, q, t);
      ch := b.data[b.end - 1];
      owner := owner[b.id := None];
      pool := [b.id] + pool;
      queues := queues[q := t];
    }

    /** charq_flush: every block goes back. */
    method Flush(q: nat)
      requires Valid() && q in queues
      modifies this
      ensures Valid() && queues.Keys == old(queues).Keys && owner.Keys == old(owner).Keys
      ensures Stock(q) == old(Stock(q)) && Held(q) == Line([], 0)
      ensures forall k :: k in queues && k != q ==> queues[k] == old(queues)[k]
    {
      hide PlacesOk, Ids, AllQueuesOk, QueueOk;
      while queues[q].blocks != []
        invariant Valid() && q in queues && queues.Keys == old(queues).Keys && owner.Keys == old(owner).Keys
        invariant Stock(q) == old(Stock(q)) && forall k :: k in queues && k != q ==> queues[k] == old(queues)[k]
        decreases |queues[q].blocks|
      {
        DeleteHead(q);
      }
    }

    /** delete_cblock_from_head, whatever is left in the block. */
    method DeleteHead(q: nat)
      requires Valid() && q in queues && queues[q].blocks != []
      modifies this`queues, this`pool, this`owner
      ensures Valid() && q in queues && queues == old(queues)[q := queues[q]] && owner.Keys == old(owner).Keys
      ensures queues[q].blocks == old(queues)[q].blocks[1..] && Stock(q) == old(Stock(q))
    {
      hide PlacesOk, AllQueuesOk, Ids, Text, Packed, AllOk;
      TheQueue(c, queues, q);
      var l := queues[q].blocks;
      var h, b := l[0], l[1..];
      SplitFirst(c, l);
      DeleteOk(c, h, b, queues[q].count);
      var t := Queue(b, queues[q].count - (h.end - h.start));
      PlacesLess(pool, queues, owner, q, t, h.id);
      OneQueue(c, queues, q, t);
      owner := owner[h.id := None];
      pool := [h.id] + pool;
      queues := queues[q := t];
    }
  }

  lemma DeleteOk(c: Limits, h: Block, l: seq<Block>, count: int)
    requires AllOk(c, l) && BlockOk(c, h) && |l| < c.blocks && count == |Text([h] + l)| && Packed(c, l)
    ensures QueueOk(c, Queue(l, count - (h.end - h.start))) && Ids([h] + l) == [h.id] + Ids(l)
  {
    TextAppend([h], l);
    TextOne(h);
    IdsAppend([h], l);
  }

  // ---------------------------------------------------------------- every run

  datatype Op = Put(q: nat, ch: Byte) | Get(q: nat) | Unput(q: nat) | Clear(q: nat)

  /** What an operation shows: whether a byte got in, or the byte that came out. */
  datatype Seen = In(ok: bool) | Out(ch: Byte) | Done

  /** All queues without their blocks, and how many blocks there are to spare. */
  datatype Plain = Plain(lines: map<nat, Line>, spare: nat)

  function Next(c: Limits, x: Line, spare: nat, op: Op): (Seen, Line)
    requires c.size > 0
  {
    match op
    case Put(_, ch) => if Fits(c, x, spare) then (In(true), Line(x.s + [ch], x.first)) else (In(false), x)
    case Get(_) => if x.s == [] then (Out(0), x) else (Out(x.s[0]), Trim(c, x.s[1..], x.first + 1))
    case Unput(_) => if x.s == [] then (Out(0), x) else (Out(x.s[|x.s| - 1]), Trim(c, x.s[..|x.s| - 1], x.first))
    case Clear(_) => (Done, Line([], 0))
  }

  /** The line an operation is not about stays as it is; the blocks it needs less are to spare. */
  function Step(c: Limits, p: Plain, op: Op): (Seen, Plain)
    requires c.size > 0 && op.q in p.lines
  {
    var x := p.lines[op.q];
    var (o, y) := Next(c, x, p.spare, op);
    var spare := p.spare + BlocksOf(c, x) - BlocksOf(c, y);
    (o, Plain(p.lines[op.q := y], if spare >= 0 then spare else 0))
  }

  predicate Known(ops: seq<Op>, names: set<nat>) {
    forall i :: 0 <= i < |ops| ==> ops[i].q in names
  }

  function After(c: Limits, blocks: nat, names: set<nat>, ops: seq<Op>): (p: Plain)
    requires c.size > 0 && Known(ops, names)
    ensures p.lines.Keys == names
  {
    if ops == [] then Plain(map q | q in names :: Line([], 0), blocks)
    else Step(c, After(c, blocks, names, ops[..|ops| - 1]), ops[|ops| - 1]).1
  }

  function Shown(c: Limits, blocks: nat, names: set<nat>, ops: seq<Op>): (r: seq<Seen>)
    requires c.size > 0 && Known(ops, names)
    ensures |r| == |ops|
  {
    if ops == [] then []
    else
      var n := |ops| - 1;
      Shown(c, blocks, names, ops[..n]) + [Step(c, After(c, blocks, names, ops[..n]), ops[n]).0]
  }

  // ---------------------------------------------------------------- what a user may rely on

  lemma {:induction false} NeedsIs(size: nat, n: nat)
    requires size > 0 && n > 0
    ensures Needs(size, n) > 0 && size * (Needs(size, n) - 1) < n <= size * Needs(size, n)
    ensures Tail(size, n) == n - size * (Needs(size, n) - 1)
  {
    if n > size {
      NeedsIs(size, n - size);
      assert size * Needs(size, n) == size * Needs(size, n - size) + size;
      assert size * (Needs(size, n) - 1) == size * (Needs(size, n - size) - 1) + size;
    }
  }

  lemma Multiples(size: nat, a: nat, b: nat)
    requires size > 0
    ensures a < b ==> size * a + size <= size * b
    ensures a <= b ==> size * a <= size * b
  {
    assert a < b ==> size * (a + 1) <= size * b;
    assert size * (a + 1) == size * a + size;
  }

  /** `n` bytes fit in `k` blocks just when that many are needed at most. */
  lemma NeedsAtMost(size: nat, n: nat, k: nat)
    requires size > 0
    ensures Needs(size, n) <= k <==> n <= size * k
  {
    if n > 0 {
      NeedsIs(size, n);
      Multiples(size, Needs(size, n), k);
      Multiples(size, k, Needs(size, n) - 1);
    }
  }

  /** What holds of a queue at all times. */
  predicate LineOk(c: Limits, x: Line)
    requires c.size > 0
  {
    x.first < c.size && (x.s == [] ==> x.first == 0) && BlocksOf(c, x) <= c.blocks
  }

  function Less(a: nat, b: nat): nat {
    if a < b then a else b
  }

  /** A byte gets in just when the bytes, with those read from the first block, do not fill the blocks that the queue
      may have: as many as are allowed, and as it has and there are to spare. */
  lemma FitsInBytes(c: Limits, x: Line, spare: nat)
    requires c.size > 0 && LineOk(c, x)
    ensures Fits(c, x, spare) <==> x.first + |x.s| < c.size * Less(c.blocks, BlocksOf(c, x) + spare)
  {
    var n, k := x.first + |x.s|, Less(c.blocks, BlocksOf(c, x) + spare);
    if x.s == [] {
      Multiples(c.size, 0, k);
    } else {
      NeedsIs(c.size, n);
      hide Needs, Tail;
      Multiples(c.size, BlocksOf(c, x), k);
      Multiples(c.size, k, BlocksOf(c, x));
      assert c.size * BlocksOf(c, x) == c.size * (BlocksOf(c, x) - 1) + c.size;
    }
  }

  lemma NextOk(c: Limits, x: Line, spare: nat, op: Op)
    requires c.size > 0 && LineOk(c, x)
    ensures LineOk(c, Next(c, x, spare, op).1)
  {
    var y := Next(c, x, spare, op).1;
    var n, m := x.first + |x.s|, y.first + |y.s|;
    NeedsAtMost(c.size, n, c.blocks);
    NeedsAtMost(c.size, m, c.blocks);
    FitsInBytes(c, x, spare);
    hide Needs, Tail, Fits;
    Multiples(c.size, Less(c.blocks, BlocksOf(c, x) + spare), c.blocks);
  }

  lemma {:induction false} LinesOk(c: Limits, blocks: nat, names: set<nat>, ops: seq<Op>, q: nat)
    requires c.size > 0 && Known(ops, names) && q in names
    ensures LineOk(c, After(c, blocks, names, ops).lines[q])
  {
    if ops != [] {
      var n := |ops| - 1;
      LinesOk(c, blocks, names, ops[..n], q);
      var p := After(c, blocks, names, ops[..n]);
      if ops[n].q == q { NextOk(c, p.lines[q], p.spare, ops[n]); }
    }
  }

  /** A byte put and taken back at once leaves the queue as it was. */
  lemma PutUnput(c: Limits, x: Line, spare: nat, left: nat, q: nat, ch: Byte)
    requires c.size > 0 && LineOk(c, x) && Fits(c, x, spare)
    ensures Next(c, Next(c, x, spare, Put(q, ch)).1, left, Unput(q)) == (Out(ch), x)
  {
    assert (x.s + [ch])[..|x.s|] == x.s;
  }

  /** The bytes that got into a queue, and those that came out of it at the front. */
  function Entered(c: Limits, blocks: nat, names: set<nat>, ops: seq<Op>, q: nat): seq<Byte>
    requires c.size > 0 && Known(ops, names)
  {
    if ops == [] then []
    else
      var n := |ops| - 1;
      Entered(c, blocks, names, ops[..n], q) +
      if ops[n].Put? && ops[n].q == q && Shown(c, blocks, names, ops)[n] == In(true) then [ops[n].ch] else []
  }

  function Left(c: Limits, blocks: nat, names: set<nat>, ops: seq<Op>, q: nat): seq<Byte>
    requires c.size > 0 && Known(ops, names) && q in names
  {
    if ops == [] then []
    else
      var n := |ops| - 1;
      var seen := Shown(c, blocks, names, ops)[n];
      Left(c, blocks, names, ops[..n], q) +
      if ops[n].Get? && ops[n].q == q && seen.Out? && After(c, blocks, names, ops[..n]).lines[q].s != [] then [seen.ch] else []
  }

  /** First in, first out: in a run that takes nothing back from a queue and does not clear it, the bytes that came out
      followed by those in it are the bytes that got in, whatever is done to other queues. */
  lemma {:induction false} Fifo(c: Limits, blocks: nat, names: set<nat>, ops: seq<Op>, q: nat)
    requires c.size > 0 && Known(ops, names) && q in names
    requires forall i :: 0 <= i < |ops| && ops[i].q == q ==> ops[i].Put? || ops[i].Get?
    ensures Left(c, blocks, names, ops, q) + After(c, blocks, names, ops).lines[q].s == Entered(c, blocks, names, ops, q)
  {
    hide Step;
    if ops != [] {
      var n := |ops| - 1;
      Fifo(c, blocks, names, ops[..n], q);
      var p, op := After(c, blocks, names, ops[..n]), ops[n];
      FifoStep(c, p, op, q);
      var (o, t) := Step(c, p, op);
      var x := if op.Get? && op.q == q && o.Out? && p.lines[q].s != [] then [o.ch] else [];
      var y := if op.Put? && op.q == q && o == In(true) then [op.ch] else [];
      Regroup(Left(c, blocks, names, ops[..n], q), x, t.lines[q].s, p.lines[q].s, y);
    }
  }

  lemma Regroup(a: seq<Byte>, x: seq<Byte>, t: seq<Byte>, s: seq<Byte>, y: seq<Byte>)
    requires x + t == s + y
    ensures (a + x) + t == (a + s) + y
  {
    assert (a + x) + t == a + (x + t) && (a + s) + y == a + (s + y);
  }

  lemma FifoStep(c: Limits, p: Plain, op: Op, q: nat)
    requires c.size > 0 && op.q in p.lines && q in p.lines && (op.q == q ==> op.Put? || op.Get?)
    ensures var (o, t) := Step(c, p, op);
      q in t.lines && (if op.Get? && op.q == q && o.Out? && p.lines[q].s != [] then [o.ch] else []) + t.lines[q].s ==
        p.lines[q].s + (if op.Put? && op.q == q && o == In(true) then [op.ch] else [])
  {
    hide Fits, BlocksOf;
    var s := p.lines[q].s;
    assert s != [] ==> s == [s[0]] + s[1..];
  }

  // ---------------------------------------------------------------- the blocks do the same

  ghost predicate Agrees(queues: map<nat, Queue>, pool: seq<nat>, c: Limits, p: Plain)
    requires AllQueuesOk(c, queues)
  {
    && p.lines.Keys == queues.Keys && p.spare == |pool|
    && forall q :: q in queues ==> QueueOk(c, queues[q]) && View(queues[q].blocks) == p.lines[q]
  }

  /** Every queue is a double-ended queue of bytes, whatever is done to the others; a byte is turned
      away only when the last block is full and no block may be added; and once all are empty, every
      block is back in the pool, once. */
  method Run(c: Limits, blocks: seq<nat>, names: set<nat>, ops: seq<Op>) returns (seen: seq<Seen>, pool: seq<nat>)
    requires c.size > 0 && NoDup(blocks) && Known(ops, names)
    ensures seen == Shown(c, |blocks|, names, ops) && |pool| == After(c, |blocks|, names, ops).spare
    ensures (forall q :: q in names ==> After(c, |blocks|, names, ops).lines[q].s == []) ==>
      NoDup(pool) && forall id :: id in pool <==> id in blocks
  {
    hide PlacesOk, AllQueuesOk, QueueOk, Ids, Text, View, Agrees, NoDup, Step;
    var s := new Queues(c, blocks, names);
    AgreesStart(c, |blocks|, names, blocks);
    seen := [];
    for i := 0 to |ops|
      invariant fresh(s) && s.Valid() && s.c == c && s.queues.Keys == names && s.owner.Keys == Elements(blocks)
      invariant seen == Shown(c, |blocks|, names, ops[..i])
      invariant Agrees(s.queues, s.pool, c, After(c, |blocks|, names, ops[..i]))
    {
      assert ops[..i + 1][..i] == ops[..i];
      var o := Perform(s, ops[i], After(c, |blocks|, names, ops[..i]));
      seen := seen + [o];
    }
    assert ops[..|ops|] == ops;
    pool := s.pool;
    Spare(s.queues, s.pool, c, After(c, |blocks|, names, ops));
    if forall q :: q in names ==> After(c, |blocks|, names, ops).lines[q].s == [] {
      AllBack(c, s.pool, s.queues, s.owner, After(c, |blocks|, names, ops));
    }
  }

  lemma Spare(queues: map<nat, Queue>, pool: seq<nat>, c: Limits, p: Plain)
    requires AllQueuesOk(c, queues) && Agrees(queues, pool, c, p)
    ensures p.spare == |pool| && p.lines.Keys == queues.Keys
  {
  }

  lemma AgreesMore(from: map<nat, Queue>, to: map<nat, Queue>, pool: seq<nat>, left: seq<nat>, c: Limits, p: Plain, op: Op)
    requires AllQueuesOk(c, from) && AllQueuesOk(c, to) && c.size > 0 && op.q in from && Agrees(from, pool, c, p)
    requires to.Keys == from.Keys && forall k :: k in to && k != op.q ==> to[k] == from[k]
    requires QueueOk(c, to[op.q]) && |left| + |to[op.q].blocks| == |pool| + |from[op.q].blocks|
    requires View(to[op.q].blocks) == Next(c, p.lines[op.q], p.spare, op).1
    ensures Agrees(to, left, c, Step(c, p, op).1)
  {
    hide Text, Next;
    assert QueueOk(c, from[op.q]);
    BlocksAre(c, from[op.q].blocks);
    BlocksAre(c, to[op.q].blocks);
    hide QueueOk, View, BlocksOf;
  }

  lemma FitsIff(c: Limits, q: Queue, pool: seq<nat>)
    requires QueueOk(c, q) && c.size > 0
    ensures Fits(c, View(q.blocks), |pool|) <==> Room(c, q.blocks, pool)
  {
    BlocksAre(c, q.blocks);
  }

  method Perform(s: Queues, op: Op, ghost p: Plain) returns (o: Seen)
    requires s.Valid() && op.q in s.queues && Agrees(s.queues, s.pool, s.c, p)
    modifies s
    ensures s.Valid() && s.queues.Keys == old(s.queues).Keys && s.owner.Keys == old(s.owner).Keys
    ensures op.q in p.lines && o == Step(s.c, p, op).0 && Agrees(s.queues, s.pool, s.c, Step(s.c, p, op).1)
  {
    hide PlacesOk, Ids, Text, BlocksOf, Fits, Trim, Room;
    assert QueueOk(s.c, s.queues[op.q]) && View(s.queues[op.q].blocks) == p.lines[op.q];
    FitsIff(s.c, s.queues[op.q], s.pool);
    ghost var from, pool := s.queues, s.pool;
    match op {
      case Put(q, ch) =>
        var ok := s.Putchar(q, ch);
        o := In(ok);
      case Get(q) =>
        var ch := s.Getchar(q);
        o := Out(ch);
      case Unput(q) =>
        var ch := s.Unputchar(q);
        o := Out(ch);
      case Clear(q) =>
        s.Flush(q);
        o := Done;
    }
    assert QueueOk(s.c, s.queues[op.q]);
    AgreesMore(from, s.queues, pool, s.pool, s.c, p, op);
  }

  lemma AllBack(c: Limits, pool: seq<nat>, queues: map<nat, Queue>, owner: map<nat, Option<nat>>, p: Plain)
    requires AllQueuesOk(c, queues) && PlacesOk(pool, queues, owner) && Agrees(queues, pool, c, p)
    requires forall q :: q in queues ==> p.lines[q].s == []
    ensures NoDup(pool) && forall id :: id in pool <==> id in owner
  {
    forall q | q in queues ensures Ids(queues[q].blocks) == [] { Emptied(c, queues[q]); }
    hide Ids, Text;
    forall id | id in owner ensures owner[id] == None {
      if owner[id].Some? { HasBlocks(queues, owner, id); }
    }
  }

  lemma HasBlocks(queues: map<nat, Queue>, owner: map<nat, Option<nat>>, id: nat)
    requires InQueues(queues, owner) && id in owner && owner[id].Some?
    ensures owner[id].value in queues && Ids(queues[owner[id].value].blocks) != []
  {
    assert Places(Ids(queues[owner[id].value].blocks), owner[id].value, owner);
  }

  lemma Emptied(c: Limits, q: Queue)
    requires QueueOk(c, q) && Text(q.blocks) == []
    ensures Ids(q.blocks) == []
  {
    if q.blocks != [] { NotEmpty(c, q); }
  }

  lemma NotEmpty(c: Limits, q: Queue)
    requires QueueOk(c, q) && q.blocks != []
    ensures Text(q.blocks) != []
  {
    assert BlockOk(c, q.blocks[0]);
  }

  lemma AgreesStart(c: Limits, n: nat, names: set<nat>, pool: seq<nat>)
    requires c.size > 0 && n == |pool|
    ensures AllQueuesOk(c, Blank(names)) && Agrees(Blank(names), pool, c, After(c, n, names, []))
  {
  }
}
