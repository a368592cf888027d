/**
 The buffer cache: hashed, reference-locked copies of disk blocks, a free list and a dirty
 list per block size, and the reuse, flushing and reclaiming that go on behind its users.

 A buffer is a number. Blocks of several sizes may be read from one device, which holds bytes.
 Device transfers succeed.
 */
module BufferCache {
  import opened Links
  import opened Lists
  import opened Wrappers

  type Data = seq<bv8>

  /** The bytes of all devices, by device and place. */
  type Device = (nat, nat) -> bv8

  datatype Key = Key(dev: nat, block: nat, size: nat)

  datatype Buf = Buf(key: Key, valid: bool, dirty: bool, locked: bool, data: Data)

  /** sizes: the block sizes; bucket: the hash function, of device and block. */
  datatype Setup = Setup(sizes: set<nat>, bucket: (nat, nat) -> nat)

  /** bufs: the pool; page: which page of memory a buffer is cut from (its siblings share it);
      disk: what the devices hold; used: the blocks that are ever asked for. */
  datatype Cache = Cache(
    bufs: map<nat, Buf>,
    page: map<nat, nat>,
    free: map<nat, seq<nat>>,
    dirty: map<nat, seq<nat>>,
    hash: map<nat, seq<nat>>,
    disk: Device,
    used: set<Key>)

  // ---------------------------------------------------------------- the invariant

  ghost predicate Tables(c: Setup, s: Cache) {
    && s.free.Keys == c.sizes && s.dirty.Keys == c.sizes
    && (forall k: Key :: Bucket(c, k) in s.hash)
    && s.page.Keys == s.bufs.Keys
  }

  function Bucket(c: Setup, k: Key): nat {
    c.bucket(k.dev, k.block)
  }

  ghost predicate Hashed(c: Setup, s: Cache, x: nat)
    requires x in s.bufs
  {
    var i := Bucket(c, s.bufs[x].key);
    i in s.hash && x in s.hash[i]
  }

  /** Where one buffer may be, and what it may hold. */
  ghost predicate BufOk(c: Setup, s: Cache, x: nat)
    requires Tables(c, s) && x in s.bufs
  {
    var b := s.bufs[x];
    && b.key.size in c.sizes
    && (x in s.free[b.key.size] <==> !b.locked)
    && (x in s.dirty[b.key.size] ==> b.dirty)
    && (b.dirty && !b.locked ==> x in s.dirty[b.key.size])
    && (b.dirty ==> b.valid)
    && (b.valid ==> Hashed(c, s, x) && |b.data| == b.key.size)
  }

  /** Every free or dirty list holds each of its buffers once, and only buffers of its size. */
  ghost predicate SizedOk(bufs: map<nat, Buf>, lists: map<nat, seq<nat>>) {
    forall z :: z in lists ==> NoDup(lists[z]) && forall x :: x in lists[z] ==> x in bufs && bufs[x].key.size == z
  }

  /** Every hash chain holds each of its buffers once, and only buffers that hash to it. */
  ghost predicate HashOk(c: Setup, bufs: map<nat, Buf>, hash: map<nat, seq<nat>>) {
    forall i :: i in hash ==> NoDup(hash[i]) && forall x :: x in hash[i] ==> x in bufs && Bucket(c, bufs[x].key) == i
  }

  /** `at` finds every hashed buffer by its block, so no two stand for the same block. */
  ghost predicate AtOk(c: Setup, s: Cache, at: map<Key, nat>) {
    && (forall x :: x in s.bufs && Hashed(c, s, x) ==> s.bufs[x].key in at && at[s.bufs[x].key] == x)
    && (forall k :: k in at ==> at[k] in s.bufs && s.bufs[at[k]].key == k && Hashed(c, s, at[k]) && k in s.used)
  }

  ghost predicate BufsOk(c: Setup, s: Cache)
    requires Tables(c, s)
  {
    forall x :: x in s.bufs ==> BufOk(c, s, x)
  }

  ghost predicate Inv(c: Setup, s: Cache, at: map<Key, nat>) {
    && Tables(c, s)
    && SizedOk(s.bufs, s.free) && SizedOk(s.bufs, s.dirty) && HashOk(c, s.bufs, s.hash)
    && AtOk(c, s, at) && BufsOk(c, s)
  }

  // ---------------------------------------------------------------- the disk it stands for

  /** Where on its device a block begins. */
  function Begin(k: Key): nat {
    k.block * k.size
  }

  function Get(disk: Device, k: Key): (d: Data)
    ensures |d| == k.size && forall i :: 0 <= i < k.size ==> d[i] == disk(k.dev, Begin(k) + i)
  {
    seq(k.size, i requires 0 <= i < k.size => disk(k.dev, Begin(k) + i))
  }

  function Put(disk: Device, k: Key, d: Data): Device {
    (dev: nat, x: nat) => if dev == k.dev && Begin(k) <= x < Begin(k) + |d| then d[x - Begin(k)] else disk(dev, x)
  }

  /** Two blocks with a byte in common. */
  predicate Overlap(k: Key, l: Key) {
    k.dev == l.dev && Begin(k) < Begin(l) + l.size && Begin(l) < Begin(k) + k.size
  }

  ghost predicate Separate(used: set<Key>) {
    forall k, l :: k in used && l in used && k != l ==> !Overlap(k, l)
  }

  lemma GetPut(disk: Device, k: Key, d: Data)
    requires |d| == k.size
    ensures Get(Put(disk, k, d), k) == d
  {
  }

  lemma GetElsewhere(disk: Device, k: Key, d: Data, l: Key)
    requires k.dev != l.dev || (|d| == k.size && !Overlap(k, l))
    ensures Get(Put(disk, k, d), l) == Get(disk, l)
  {
    hide Begin;
  }

  ghost function DirtyKeys(s: Cache): set<Key> {
    set x | x in s.bufs && s.bufs[x].dirty :: s.bufs[x].key
  }

  /** With the cache in front of it, the devices hold what `plain` holds, in the blocks in use. That
      is only said when no two of them overlap. */
  ghost predicate Stands(s: Cache, plain: Device) {
    Separate(s.used) ==> Copies(s, plain) && Clean(s, plain)
  }

  ghost predicate Copies(s: Cache, plain: Device) {
    forall x :: x in s.bufs && s.bufs[x].valid ==> s.bufs[x].data == Get(plain, s.bufs[x].key)
  }

  ghost predicate Clean(s: Cache, plain: Device) {
    forall k :: k in s.used && k !in DirtyKeys(s) ==> Get(s.disk, k) == Get(plain, k)
  }

  // ---------------------------------------------------------------- the steps

  /** Lock a buffer and take it off its free list. */
  function Take(s: Cache, x: nat): Cache
    requires x in s.bufs && s.bufs[x].key.size in s.free
  {
    var z := s.bufs[x].key.size;
    s.(bufs := s.bufs[x := s.bufs[x].(locked := true)], free := s.free[z := Without(s.free[z], x)])
  }

  /** sync_one_buffer and remove_from_dirty_list: the block is written and clean. */
  function Flush(s: Cache, x: nat): Cache
    requires x in s.bufs && s.bufs[x].key.size in s.dirty
  {
    var b := s.bufs[x];
    s.(bufs := s.bufs[x := b.(dirty := false)],
       dirty := s.dirty[b.key.size := Without(s.dirty[b.key.size], x)],
       disk := Put(s.disk, b.key, b.data))
  }

  /** Give a clean locked buffer a new block to stand for. */
  function Rekey(c: Setup, s: Cache, x: nat, k: Key): Cache
    requires x in s.bufs && Bucket(c, s.bufs[x].key) in s.hash && Bucket(c, k) in s.hash
  {
    var b := s.bufs[x];
    var i, j := Bucket(c, b.key), Bucket(c, k);
    var h := s.hash[i := Without(s.hash[i], x)];
    s.(bufs := s.bufs[x := b.(key := k, valid := false)], hash := h[j := [x] + h[j]])
  }

  /** Read the block from its device. */
  function Fill(s: Cache, x: nat): Cache
    requires x in s.bufs
  {
    var b := s.bufs[x];
    s.(bufs := s.bufs[x := b.(valid := true, data := Get(s.disk, b.key))])
  }

  /** The data a user hands to bwrite. */
  function Store(s: Cache, x: nat, d: Data): Cache
    requires x in s.bufs
  {
    s.(bufs := s.bufs[x := s.bufs[x].(valid := true, dirty := true, data := d)])
  }

  function InsertDirty(l: seq<nat>, x: nat): seq<nat> {
    if x in l then l else l + [x]
  }

  /** Onto the dirty list when dirty, onto one end of the free list, and unlocked. */
  function Release(s: Cache, x: nat, tail: bool): Cache
    requires x in s.bufs && s.bufs[x].key.size in s.free && s.bufs[x].key.size in s.dirty
  {
    var b := s.bufs[x];
    var z := b.key.size;
    s.(bufs := s.bufs[x := b.(locked := false)],
       dirty := if b.dirty then s.dirty[z := InsertDirty(s.dirty[z], x)] else s.dirty,
       free := s.free[z := if tail then s.free[z] + [x] else [x] + s.free[z]])
  }

  /** A new buffer, cut from page `pg`, not yet on any list. */
  function Add(s: Cache, x: nat, size: nat, pg: nat): Cache {
    s.(bufs := s.bufs[x := Buf(Key(0, 0, size), false, false, true, [])], page := s.page[x := pg])
  }

  /** A clean locked buffer leaves the hash table and the pool. */
  function Discard(c: Setup, s: Cache, x: nat): Cache
    requires x in s.bufs && Bucket(c, s.bufs[x].key) in s.hash
  {
    var i := Bucket(c, s.bufs[x].key);
    s.(bufs := s.bufs - {x}, page := s.page - {x}, hash := s.hash[i := Without(s.hash[i], x)])
  }

  // ---------------------------------------------------------------- every step keeps the invariant

  lemma SizedWithout(bufs: map<nat, Buf>, x: nat, b: Buf, lists: map<nat, seq<nat>>, z: nat)
    requires SizedOk(bufs, lists) && z in lists && x in bufs && b.key.size == bufs[x].key.size
    ensures SizedOk(bufs[x := b], lists[z := Without(lists[z], x)])
  {
  }

  lemma SizedWith(bufs: map<nat, Buf>, x: nat, b: Buf, lists: map<nat, seq<nat>>, z: nat)
    requires SizedOk(bufs, lists) && z in lists && x in bufs && b.key.size == bufs[x].key.size == z && x !in lists[z]
    ensures SizedOk(bufs[x := b], lists[z := lists[z] + [x]]) && SizedOk(bufs[x := b], lists[z := [x] + lists[z]])
  {
    NoDupAppend(lists[z], x);
    NoDupPrepend(lists[z], x);
  }

  lemma SizedSame(bufs: map<nat, Buf>, x: nat, b: Buf, lists: map<nat, seq<nat>>)
    requires SizedOk(bufs, lists) && x in bufs && b.key.size == bufs[x].key.size
    ensures SizedOk(bufs[x := b], lists)
  {
  }

  lemma KeysKept(c: Setup, s: Cache, t: Cache, at: map<Key, nat>, x: nat, b: Buf)
    requires HashOk(c, s.bufs, s.hash) && AtOk(c, s, at) && t.hash == s.hash && t.used == s.used
    requires x in s.bufs && b.key == s.bufs[x].key && t.bufs == s.bufs[x := b]
    ensures HashOk(c, t.bufs, t.hash) && AtOk(c, t, at)
  {
    forall y | y in t.bufs ensures Hashed(c, t, y) <==> Hashed(c, s, y) {}
  }

  /** What the lists say of buffer `y` is the same in both states. */
  ghost predicate SameFor(c: Setup, s: Cache, t: Cache, y: nat)
    requires Tables(c, s) && Tables(c, t)
  {
    && y in s.bufs && y in t.bufs && t.bufs[y] == s.bufs[y]
    && var z := s.bufs[y].key.size;
    && (z in c.sizes ==> (y in t.free[z] <==> y in s.free[z]) && (y in t.dirty[z] <==> y in s.dirty[z]))
    && (Hashed(c, t, y) <==> Hashed(c, s, y))
  }

  ghost predicate OthersSame(c: Setup, s: Cache, t: Cache, x: nat)
    requires Tables(c, s) && Tables(c, t)
  {
    forall y :: y in t.bufs && y != x ==> SameFor(c, s, t, y)
  }

  lemma OthersOk(c: Setup, s: Cache, t: Cache, x: nat)
    requires Tables(c, s) && Tables(c, t) && BufsOk(c, s) && OthersSame(c, s, t, x)
    requires x in t.bufs ==> BufOk(c, t, x)
    ensures BufsOk(c, t)
  {
    forall y | y in t.bufs ensures BufOk(c, t, y) {
      if y != x { assert BufOk(c, s, y) && SameFor(c, s, t, y); }
    }
  }

  /** A step that changes one buffer, and no key and no chain. */
  lemma OneChanged(c: Setup, s: Cache, t: Cache, at: map<Key, nat>, x: nat, b: Buf)
    requires Inv(c, s, at) && Tables(c, t)
    requires x in s.bufs && b.key == s.bufs[x].key && t.bufs == s.bufs[x := b] && t.hash == s.hash && t.used == s.used
    requires SizedOk(t.bufs, t.free) && SizedOk(t.bufs, t.dirty)
    requires OthersSame(c, s, t, x) && BufOk(c, t, x)
    ensures Inv(c, t, at)
  {
    KeysKept(c, s, t, at, x, b);
    OthersOk(c, s, t, x);
  }

  lemma TakeBufs(c: Setup, s: Cache, x: nat)
    requires Tables(c, s) && x in s.bufs && BufOk(c, s, x)
    ensures Tables(c, Take(s, x)) && OthersSame(c, s, Take(s, x), x) && BufOk(c, Take(s, x), x)
  {
  }

  lemma TakeKeeps(c: Setup, s: Cache, at: map<Key, nat>, x: nat)
    requires Inv(c, s, at) && x in s.bufs
    ensures s.bufs[x].key.size in s.free && Inv(c, Take(s, x), at)
  {
    assert BufOk(c, s, x);
    var b := s.bufs[x].(locked := true);
    SizedWithout(s.bufs, x, b, s.free, b.key.size);
    SizedSame(s.bufs, x, b, s.dirty);
    TakeBufs(c, s, x);
    OneChanged(c, s, Take(s, x), at, x, b);
  }

  lemma FlushBufs(c: Setup, s: Cache, x: nat)
    requires Tables(c, s) && x in s.bufs && BufOk(c, s, x)
    ensures Tables(c, Flush(s, x)) && OthersSame(c, s, Flush(s, x), x) && BufOk(c, Flush(s, x), x)
  {
  }

  lemma FlushKeeps(c: Setup, s: Cache, at: map<Key, nat>, x: nat)
    requires Inv(c, s, at) && x in s.bufs
    ensures s.bufs[x].key.size in s.dirty && Inv(c, Flush(s, x), at)
  {
    assert BufOk(c, s, x);
    FlushBufs(c, s, x);
    var b := s.bufs[x].(dirty := false);
    SizedWithout(s.bufs, x, b, s.dirty, b.key.size);
    SizedSame(s.bufs, x, b, s.free);
    OneChanged(c, s, Flush(s, x), at, x, b);
  }

  /** Changing what a buffer holds, while it stays where it is. */
  lemma ContentsKeep(c: Setup, s: Cache, at: map<Key, nat>, x: nat, b: Buf)
    requires Inv(c, s, at) && x in s.bufs && b.key == s.bufs[x].key && b.locked == s.bufs[x].locked
    requires BufOk(c, s.(bufs := s.bufs[x := b]), x)
    ensures Inv(c, s.(bufs := s.bufs[x := b]), at)
  {
    var t := s.(bufs := s.bufs[x := b]);
    SizedSame(s.bufs, x, b, s.dirty);
    SizedSame(s.bufs, x, b, s.free);
    ContentsOthers(c, s, x, b);
    OneChanged(c, s, t, at, x, b);
  }

  lemma ContentsOthers(c: Setup, s: Cache, x: nat, b: Buf)
    requires Tables(c, s) && x in s.bufs
    ensures Tables(c, s.(bufs := s.bufs[x := b])) && OthersSame(c, s, s.(bufs := s.bufs[x := b]), x)
  {
  }

  lemma FillKeeps(c: Setup, s: Cache, at: map<Key, nat>, x: nat)
    requires Inv(c, s, at) && x in s.bufs && !s.bufs[x].valid && Hashed(c, s, x)
    ensures Inv(c, Fill(s, x), at)
  {
    assert BufOk(c, s, x);
    ContentsOthers(c, s, x, Fill(s, x).bufs[x]);
    ContentsKeep(c, s, at, x, Fill(s, x).bufs[x]);
  }

  lemma StoreKeeps(c: Setup, s: Cache, at: map<Key, nat>, x: nat, d: Data)
    requires Inv(c, s, at) && x in s.bufs && s.bufs[x].locked && Hashed(c, s, x) && |d| == s.bufs[x].key.size
    ensures Inv(c, Store(s, x, d), at)
  {
    assert BufOk(c, s, x);
    ContentsOthers(c, s, x, Store(s, x, d).bufs[x]);
    ContentsKeep(c, s, at, x, Store(s, x, d).bufs[x]);
  }

  lemma ReleaseSized(c: Setup, s: Cache, x: nat, tail: bool)
    requires Tables(c, s) && x in s.bufs && s.bufs[x].locked && BufOk(c, s, x)
    requires SizedOk(s.bufs, s.free) && SizedOk(s.bufs, s.dirty)
    ensures SizedOk(Release(s, x, tail).bufs, Release(s, x, tail).free) && SizedOk(Release(s, x, tail).bufs, Release(s, x, tail).dirty)
  {
    var b, z := s.bufs[x].(locked := false), s.bufs[x].key.size;
    SizedWith(s.bufs, x, b, s.free, z);
    SizedSame(s.bufs, x, b, s.dirty);
    if x !in s.dirty[z] { SizedWith(s.bufs, x, b, s.dirty, z); }
  }

  lemma ReleaseBufs(c: Setup, s: Cache, x: nat, tail: bool)
    requires Tables(c, s) && x in s.bufs && BufOk(c, s, x)
    ensures Tables(c, Release(s, x, tail)) && OthersSame(c, s, Release(s, x, tail), x) && BufOk(c, Release(s, x, tail), x)
  {
  }

  lemma ReleaseKeeps(c: Setup, s: Cache, at: map<Key, nat>, x: nat, tail: bool)
    requires Inv(c, s, at) && x in s.bufs && s.bufs[x].locked
    ensures s.bufs[x].key.size in s.free && s.bufs[x].key.size in s.dirty
    ensures Inv(c, Release(s, x, tail), at)
  {
    assert BufOk(c, s, x);
    ReleaseSized(c, s, x, tail);
    ReleaseBufs(c, s, x, tail);
    OneChanged(c, s, Release(s, x, tail), at, x, s.bufs[x].(locked := false));
  }

  // ---------------------------------------------------------------- steps that change the chains

  ghost function Rekeyed(s: Cache, at: map<Key, nat>, x: nat, k: Key): map<Key, nat>
    requires x in s.bufs
  {
    Unkeyed(s, at, x)[k := x]
  }

  ghost function Unkeyed(s: Cache, at: map<Key, nat>, x: nat): map<Key, nat>
    requires x in s.bufs
  {
    var was := s.bufs[x].key;
    if was in at && at[was] == x then at - {was} else at
  }

  lemma RekeyBufs(c: Setup, s: Cache, at: map<Key, nat>, x: nat, k: Key)
    requires Tables(c, s) && x in s.bufs && BufOk(c, s, x)
    requires s.bufs[x].locked && !s.bufs[x].dirty && k.size == s.bufs[x].key.size
    ensures Tables(c, Rekey(c, s, x, k)) && OthersSame(c, s, Rekey(c, s, x, k), x) && BufOk(c, Rekey(c, s, x, k), x)
  {
  }

  lemma RekeyHash(c: Setup, s: Cache, x: nat, k: Key)
    requires Tables(c, s) && x in s.bufs && HashOk(c, s.bufs, s.hash)
    ensures HashOk(c, Rekey(c, s, x, k).bufs, Rekey(c, s, x, k).hash)
  {
    var i, j := Bucket(c, s.bufs[x].key), Bucket(c, k);
    var h := s.hash[i := Without(s.hash[i], x)];
    assert x !in h[j];
    NoDupPrepend(h[j], x);
  }

  lemma RekeyAt(c: Setup, s: Cache, at: map<Key, nat>, x: nat, k: Key)
    requires Tables(c, s) && x in s.bufs && AtOk(c, s, at) && k !in at && k in s.used
    requires OthersSame(c, s, Rekey(c, s, x, k), x) && Tables(c, Rekey(c, s, x, k))
    ensures AtOk(c, Rekey(c, s, x, k), Rekeyed(s, at, x, k))
  {
    var t, to := Rekey(c, s, x, k), Rekeyed(s, at, x, k);
    forall y | y in t.bufs && Hashed(c, t, y) ensures t.bufs[y].key in to && to[t.bufs[y].key] == y {
      if y != x { assert SameFor(c, s, t, y); }
    }
    forall l | l in to ensures to[l] in t.bufs && t.bufs[to[l]].key == l && Hashed(c, t, to[l]) && l in t.used {
      if l != k { assert SameFor(c, s, t, to[l]); }
    }
  }

  lemma RekeyKeeps(c: Setup, s: Cache, at: map<Key, nat>, x: nat, k: Key)
    requires Inv(c, s, at) && x in s.bufs && s.bufs[x].locked && !s.bufs[x].dirty
    requires k.size == s.bufs[x].key.size && k !in at && k in s.used
    ensures Bucket(c, s.bufs[x].key) in s.hash && Bucket(c, k) in s.hash
    ensures Inv(c, Rekey(c, s, x, k), Rekeyed(s, at, x, k))
  {
    assert BufOk(c, s, x);
    var b := s.bufs[x].(key := k, valid := false);
    SizedSame(s.bufs, x, b, s.free);
    SizedSame(s.bufs, x, b, s.dirty);
    RekeyBufs(c, s, at, x, k);
    RekeyHash(c, s, x, k);
    RekeyAt(c, s, at, x, k);
    OthersOk(c, s, Rekey(c, s, x, k), x);
  }

  lemma AddKeeps(c: Setup, s: Cache, at: map<Key, nat>, x: nat, size: nat, pg: nat)
    requires Inv(c, s, at) && x !in s.bufs && size in c.sizes
    ensures Inv(c, Add(s, x, size, pg), at)
  {
    NotListed(c, s, at, x);
    AddBufs(c, s, x, size, pg);
    AddAt(c, s, at, x, size, pg);
    OthersOk(c, s, Add(s, x, size, pg), x);
  }

  lemma AddBufs(c: Setup, s: Cache, x: nat, size: nat, pg: nat)
    requires Tables(c, s) && x !in s.bufs && size in c.sizes && x !in s.free[size] && x !in s.dirty[size]
    ensures var t := Add(s, x, size, pg); Tables(c, t) && OthersSame(c, s, t, x) && BufOk(c, t, x)
  {
  }

  lemma AddAt(c: Setup, s: Cache, at: map<Key, nat>, x: nat, size: nat, pg: nat)
    requires HashOk(c, s.bufs, s.hash) && AtOk(c, s, at) && x !in s.bufs && forall i :: i in s.hash ==> x !in s.hash[i]
    ensures var t := Add(s, x, size, pg); HashOk(c, t.bufs, t.hash) && AtOk(c, t, at)
  {
    var t := Add(s, x, size, pg);
    forall y | y in s.bufs ensures Hashed(c, t, y) <==> Hashed(c, s, y) {}
  }

  lemma NotListed(c: Setup, s: Cache, at: map<Key, nat>, x: nat)
    requires Inv(c, s, at) && x !in s.bufs
    ensures forall z :: z in c.sizes ==> x !in s.free[z] && x !in s.dirty[z]
    ensures forall i :: i in s.hash ==> x !in s.hash[i]
  {
  }

  lemma DiscardBufs(c: Setup, s: Cache, at: map<Key, nat>, x: nat)
    requires Tables(c, s) && x in s.bufs && BufOk(c, s, x)
    ensures Tables(c, Discard(c, s, x)) && OthersSame(c, s, Discard(c, s, x), x)
  {
  }

  lemma DiscardLists(c: Setup, s: Cache, x: nat)
    requires Tables(c, s) && x in s.bufs && BufOk(c, s, x) && s.bufs[x].locked && !s.bufs[x].dirty
    requires SizedOk(s.bufs, s.free) && SizedOk(s.bufs, s.dirty) && HashOk(c, s.bufs, s.hash)
    ensures var t := Discard(c, s, x);
            SizedOk(t.bufs, t.free) && SizedOk(t.bufs, t.dirty) && HashOk(c, t.bufs, t.hash)
  {
  }

  lemma DiscardAt(c: Setup, s: Cache, at: map<Key, nat>, x: nat)
    requires Tables(c, s) && x in s.bufs && AtOk(c, s, at)
    requires Tables(c, Discard(c, s, x)) && OthersSame(c, s, Discard(c, s, x), x)
    ensures AtOk(c, Discard(c, s, x), Unkeyed(s, at, x))
  {
    var t, to := Discard(c, s, x), Unkeyed(s, at, x);
    forall y | y in t.bufs && Hashed(c, t, y) ensures t.bufs[y].key in to && to[t.bufs[y].key] == y {
      assert SameFor(c, s, t, y);
    }
    forall l | l in to ensures to[l] in t.bufs && t.bufs[to[l]].key == l && Hashed(c, t, to[l]) && l in t.used {
      assert at[l] != x;
      assert SameFor(c, s, t, to[l]);
    }
  }

  lemma DiscardKeeps(c: Setup, s: Cache, at: map<Key, nat>, x: nat)
    requires Inv(c, s, at) && x in s.bufs && s.bufs[x].locked && !s.bufs[x].dirty
    ensures Bucket(c, s.bufs[x].key) in s.hash
    ensures Inv(c, Discard(c, s, x), Unkeyed(s, at, x))
  {
    assert BufOk(c, s, x);
    DiscardBufs(c, s, at, x);
    DiscardLists(c, s, x);
    DiscardAt(c, s, at, x);
    OthersOk(c, s, Discard(c, s, x), x);
  }

  // ---------------------------------------------------------------- and the disk it stands for

  lemma DirtyKept(s: Cache, t: Cache, x: nat)
    requires forall y :: y in s.bufs && s.bufs[y].dirty && y != x ==> y in t.bufs && t.bufs[y].dirty && t.bufs[y].key == s.bufs[y].key
    ensures forall k :: k in DirtyKeys(s) && (x in s.bufs && s.bufs[x].dirty ==> k != s.bufs[x].key) ==> k in DirtyKeys(t)
  {
    forall k | k in DirtyKeys(s) && (x in s.bufs && s.bufs[x].dirty ==> k != s.bufs[x].key) ensures k in DirtyKeys(t) {
      var y :| y in s.bufs && s.bufs[y].dirty && s.bufs[y].key == k;
      assert y in t.bufs && t.bufs[y].dirty && t.bufs[y].key == k;
    }
  }

  /** Locking, unlocking, and forgetting or losing a clean copy change nothing. */
  lemma LockStands(s: Cache, t: Cache, x: nat, b: Buf, plain: Device)
    requires Stands(s, plain) && t.disk == s.disk && t.used == s.used && t.bufs == s.bufs[x := b]
    requires x in s.bufs && s.bufs[x].dirty ==> b.dirty && b.key == s.bufs[x].key
    requires b.valid ==> x in s.bufs && s.bufs[x].valid && s.bufs[x].data == b.data && s.bufs[x].key == b.key
    ensures Stands(t, plain)
  {
    hide Get, Separate;
    DirtyKept(s, t, x);
    if b.dirty { assert t.bufs[x].key in DirtyKeys(t); }
  }

  lemma DiscardStands(c: Setup, s: Cache, x: nat, plain: Device)
    requires x in s.bufs && Bucket(c, s.bufs[x].key) in s.hash && Stands(s, plain) && !s.bufs[x].dirty
    ensures Stands(Discard(c, s, x), plain)
  {
    hide Get, Separate;
    DirtyKept(s, Discard(c, s, x), x);
  }

  lemma FlushStands(s: Cache, x: nat, plain: Device)
    requires x in s.bufs && s.bufs[x].key.size in s.dirty && Stands(s, plain) && s.bufs[x].valid
    requires s.bufs[x].key in s.used && |s.bufs[x].data| == s.bufs[x].key.size
    ensures Stands(Flush(s, x), plain)
  {
    hide Get, Put, Overlap;
    var t, b := Flush(s, x), s.bufs[x];
    DirtyKept(s, t, x);
    GetPut(s.disk, b.key, b.data);
    if Separate(s.used) {
      forall k | k in t.used && k !in DirtyKeys(t) ensures Get(t.disk, k) == Get(plain, k) {
        if k != b.key { GetElsewhere(s.disk, b.key, b.data, k); }
      }
    }
  }

  /** No other valid buffer stands for the block of a hashed one. */
  ghost predicate Sole(s: Cache, x: nat) {
    && x in s.bufs && s.bufs[x].key in s.used
    && forall y :: y in s.bufs && s.bufs[y].valid ==> s.bufs[y].key in s.used && (y != x ==> s.bufs[y].key != s.bufs[x].key)
  }

  lemma OnlyOne(c: Setup, s: Cache, at: map<Key, nat>, x: nat)
    requires Inv(c, s, at) && x in s.bufs && Hashed(c, s, x)
    ensures Sole(s, x) && forall y :: y in s.bufs && s.bufs[y].dirty ==> s.bufs[y].valid
  {
    forall y | y in s.bufs
      ensures s.bufs[y].valid ==> s.bufs[y].key in s.used && (y != x ==> s.bufs[y].key != s.bufs[x].key)
      ensures s.bufs[y].dirty ==> s.bufs[y].valid
    {
      assert BufOk(c, s, y);
    }
  }

  lemma FillStands(s: Cache, x: nat, plain: Device)
    requires Stands(s, plain) && Sole(s, x) && !s.bufs[x].valid
    requires forall y :: y in s.bufs && s.bufs[y].dirty ==> s.bufs[y].valid
    ensures Stands(Fill(s, x), plain)
  {
    hide Get, Separate;
    DirtyKept(s, Fill(s, x), x);
    assert s.bufs[x].key !in DirtyKeys(s);
  }

  lemma StoreStands(s: Cache, x: nat, d: Data, plain: Device)
    requires Stands(s, plain) && Sole(s, x) && |d| == s.bufs[x].key.size
    ensures Stands(Store(s, x, d), Put(plain, s.bufs[x].key, d))
  {
    hide Get, Put, Overlap;
    var t, k, after := Store(s, x, d), s.bufs[x].key, Put(plain, s.bufs[x].key, d);
    DirtyKept(s, t, x);
    assert t.bufs[x].key in DirtyKeys(t);
    GetPut(plain, k, d);
    if Separate(s.used) {
      forall l | l in s.used && l != k ensures Get(after, l) == Get(plain, l) { GetElsewhere(plain, k, d, l); }
    }
  }

  // ---------------------------------------------------------------- counting dirty buffers

  /** BUFHEAD_INDEX(size) + 1: a size in KB. */
  function Kb(size: nat): nat {
    if size == 1024 then 1 else if size == 2048 then 2 else if size == 4096 then 4 else 0
  }

  const SIZES: set<nat> := {1024, 2048, 4096}

  /** kstat.nr_dirty_buffers and kstat.dirty_buffers: how many are listed as dirty, and how many KB. */
  ghost predicate Counted(dirty: map<nat, seq<nat>>, nr: int, kb: int) {
    && dirty.Keys == SIZES
    && nr == |dirty[1024]| + |dirty[2048]| + |dirty[4096]|
    && kb == |dirty[1024]| + 2 * |dirty[2048]| + 4 * |dirty[4096]|
  }

  lemma CountedUpdate(dirty: map<nat, seq<nat>>, nr: int, kb: int, z: nat, l: seq<nat>)
    requires Counted(dirty, nr, kb) && z in SIZES
    ensures Counted(dirty[z := l], nr + |l| - |dirty[z]|, kb + (|l| - |dirty[z]|) * Kb(z))
  {
  }

  // ---------------------------------------------------------------- the cache

  /** What is kept beside the cache: where each hashed block's buffer is, the two dirty counters, and
      the number of the next new buffer. */
  datatype Books = Books(at: map<Key, nat>, nr: int, kb: int, next: nat)

  function Fewer(w: Books, size: nat): Books {
    w.(nr := w.nr - 1, kb := w.kb - Kb(size))
  }

  /** What holds all the time, also in the middle of getblk. */
  ghost predicate Sound(c: Setup, s: Cache, w: Books) {
    && c.sizes == SIZES && Inv(c, s, w.at) && Counted(s.dirty, w.nr, w.kb)
    && (forall x :: x in s.bufs ==> x < w.next) && (forall x :: x in s.page ==> s.page[x] < w.next)
  }

  /** At rest, whoever holds a buffer holds it for a block. */
  ghost predicate HeldHashed(c: Setup, s: Cache) {
    forall x :: x in s.bufs && s.bufs[x].locked ==> Hashed(c, s, x)
  }

  lemma TakeSound(c: Setup, s: Cache, w: Books, x: nat)
    requires Sound(c, s, w) && x in s.bufs
    ensures s.bufs[x].key.size in s.free && Sound(c, Take(s, x), w)
  {
    TakeKeeps(c, s, w.at, x);
  }

  lemma FlushSound(c: Setup, s: Cache, w: Books, x: nat)
    requires Sound(c, s, w) && x in s.bufs
    requires s.bufs[x].key.size in s.dirty && x in s.dirty[s.bufs[x].key.size]
    ensures Sound(c, Flush(s, x), Fewer(w, s.bufs[x].key.size))
  {
    assert BufOk(c, s, x);
    FlushKeeps(c, s, w.at, x);
    FlushCounted(s, w.nr, w.kb, x);
  }

  lemma FlushCounted(s: Cache, nr: int, kb: int, x: nat)
    requires Counted(s.dirty, nr, kb) && x in s.bufs && s.bufs[x].key.size in s.dirty
    requires x in s.dirty[s.bufs[x].key.size] && NoDup(s.dirty[s.bufs[x].key.size])
    ensures Counted(Flush(s, x).dirty, nr - 1, kb - Kb(s.bufs[x].key.size))
  {
    var z := s.bufs[x].key.size;
    WithoutLength(s.dirty[z], x);
    CountedUpdate(s.dirty, nr, kb, z, Without(s.dirty[z], x));
  }

  /** Whether releasing `x` puts it onto its dirty list, and by how many KB the counter then grows. */
  predicate NewlyDirty(s: Cache, x: nat)
    requires x in s.bufs && s.bufs[x].key.size in s.dirty
  {
    s.bufs[x].dirty && x !in s.dirty[s.bufs[x].key.size]
  }

  function NewKb(s: Cache, x: nat): nat
    requires x in s.bufs && s.bufs[x].key.size in s.dirty
  {
    if NewlyDirty(s, x) then Kb(s.bufs[x].key.size) else 0
  }

  function More(w: Books, s: Cache, x: nat): Books
    requires x in s.bufs && s.bufs[x].key.size in s.dirty
  {
    w.(nr := if NewlyDirty(s, x) then w.nr + 1 else w.nr, kb := w.kb + NewKb(s, x))
  }

  lemma ReleaseSound(c: Setup, s: Cache, w: Books, x: nat, tail: bool)
    requires Sound(c, s, w) && x in s.bufs && s.bufs[x].locked
    ensures s.bufs[x].key.size in s.free && s.bufs[x].key.size in s.dirty
    ensures Sound(c, Release(s, x, tail), More(w, s, x))
  {
    ReleaseKeeps(c, s, w.at, x, tail);
    ReleaseCounted(s, w.nr, w.kb, x, tail);
  }

  lemma ReleaseCounted(s: Cache, nr: int, kb: int, x: nat, tail: bool)
    requires Counted(s.dirty, nr, kb) && x in s.bufs
    requires s.bufs[x].key.size in s.free && s.bufs[x].key.size in s.dirty
    ensures Counted(Release(s, x, tail).dirty, if NewlyDirty(s, x) then nr + 1 else nr, kb + NewKb(s, x))
  {
    var z := s.bufs[x].key.size;
    CountedUpdate(s.dirty, nr, kb, z, InsertDirty(s.dirty[z], x));
    assert s.dirty[z := s.dirty[z]] == s.dirty;
  }

  lemma RekeySound(c: Setup, s: Cache, w: Books, x: nat, k: Key)
    requires Sound(c, s, w) && x in s.bufs && s.bufs[x].locked && !s.bufs[x].dirty
    requires k.size == s.bufs[x].key.size && k !in w.at && k in s.used
    ensures Bucket(c, s.bufs[x].key) in s.hash && Bucket(c, k) in s.hash
    ensures Sound(c, Rekey(c, s, x, k), w.(at := Rekeyed(s, w.at, x, k)))
  {
    RekeyKeeps(c, s, w.at, x, k);
  }

  lemma FillSound(c: Setup, s: Cache, w: Books, x: nat)
    requires Sound(c, s, w) && x in s.bufs && !s.bufs[x].valid && Hashed(c, s, x)
    ensures Sound(c, Fill(s, x), w)
  {
    FillKeeps(c, s, w.at, x);
  }

  lemma StoreSound(c: Setup, s: Cache, w: Books, x: nat, d: Data)
    requires Sound(c, s, w) && x in s.bufs && s.bufs[x].locked && Hashed(c, s, x) && |d| == s.bufs[x].key.size
    ensures Sound(c, Store(s, x, d), w)
  {
    StoreKeeps(c, s, w.at, x, d);
  }

  lemma AddSound(c: Setup, s: Cache, w: Books, size: nat, pg: nat)
    requires Sound(c, s, w) && size in SIZES && pg <= w.next
    ensures Sound(c, Add(s, w.next, size, pg), w.(next := w.next + 1))
  {
    hide Inv, Counted;
    AddKeeps(c, s, w.at, w.next, size, pg);
  }

  lemma DiscardSound(c: Setup, s: Cache, w: Books, x: nat)
    requires Sound(c, s, w) && x in s.bufs && s.bufs[x].locked && !s.bufs[x].dirty
    ensures Bucket(c, s.bufs[x].key) in s.hash
    ensures Sound(c, Discard(c, s, x), w.(at := Unkeyed(s, w.at, x)))
  {
    DiscardKeeps(c, s, w.at, x);
  }

  lemma ValidKey(c: Setup, s: Cache, w: Books, x: nat)
    requires Sound(c, s, w) && x in s.bufs && s.bufs[x].valid
    ensures s.bufs[x].key in s.used && |s.bufs[x].data| == s.bufs[x].key.size
  {
    assert BufOk(c, s, x);
  }

  // ---------------------------------------------------------------- the links of the lists

  /** The links of the free lists, the dirty lists and the hash chains. */
  ghost predicate Wired(f: Threads, d: Threads, h: Threads, s: Cache) {
    Woven(f, s.free, s.bufs.Keys) && Woven(d, s.dirty, s.bufs.Keys) && Chained(h, s.hash, s.bufs.Keys)
  }

  lemma WiredSame(f: Threads, d: Threads, h: Threads, s: Cache, t: Cache)
    requires Wired(f, d, h, s) && t.bufs.Keys == s.bufs.Keys && t.free == s.free && t.dirty == s.dirty && t.hash == s.hash
    ensures Wired(f, d, h, t)
  {
  }

  /** On which lists a buffer is. */
  ghost predicate Located(c: Setup, s: Cache, x: nat) {
    && x in s.bufs && s.bufs[x].key.size in s.free && s.bufs[x].key.size in s.dirty && Bucket(c, s.bufs[x].key) in s.hash
    && OnlyOn(s.free, s.bufs[x].key.size, x) && OnlyOn(s.dirty, s.bufs[x].key.size, x)
    && OnlyOn(s.hash, Bucket(c, s.bufs[x].key), x)
    && (x in s.free[s.bufs[x].key.size] <==> !s.bufs[x].locked)
    && (x in s.dirty[s.bufs[x].key.size] ==> s.bufs[x].dirty)
  }

  lemma Locate(c: Setup, s: Cache, w: Books, x: nat)
    requires Sound(c, s, w) && x in s.bufs
    ensures Located(c, s, x)
  {
    assert BufOk(c, s, x);
  }

  // ---------------------------------------------------------------- what there is of buffers

  /** The size and the page of every buffer. */
  ghost function Pool(s: Cache): map<nat, (nat, nat)> {
    map x | x in s.bufs && x in s.page :: (s.bufs[x].key.size, s.page[x])
  }

  lemma PoolSame(s: Cache, t: Cache)
    requires t.page == s.page && t.bufs.Keys == s.bufs.Keys && forall x :: x in s.bufs ==> t.bufs[x].key.size == s.bufs[x].key.size
    ensures Pool(t) == Pool(s)
  {
  }

  /** A page, of a new number, has been cut into `n` buffers of one size. */
  ghost predicate CutFrom(p: map<nat, (nat, nat)>, q: map<nat, (nat, nat)>, from: nat, n: nat, size: nat) {
    && (forall y :: y in q <==> y in p || from <= y < from + n)
    && (forall y :: from <= y < from + n ==> y !in p && q[y] == (size, from))
    && (forall y :: y in p ==> q[y] == p[y] && p[y].1 != from)
  }

  /** There is as much as before, or a page has become buffers of this size. */
  ghost predicate Grew(p: map<nat, (nat, nat)>, q: map<nat, (nat, nat)>, pages: nat, left: nat, size: nat) {
    (q == p && left == pages) || (left + 1 == pages && exists from: nat :: CutFrom(p, q, from, PerPage(size), size))
  }

  /** How many buffers a page makes. */
  function PerPage(size: nat): nat {
    if size == 0 then 0 else 4096 / size
  }

  /** They fill it. */
  lemma PageFilled(size: nat)
    requires size in SIZES
    ensures PerPage(size) * size == 4096
  {
  }

  /** A page's buffers are gone, all of them. */
  ghost predicate PageGone(p: map<nat, (nat, nat)>, q: map<nat, (nat, nat)>, pg: nat) {
    && (exists y :: y in p && p[y].1 == pg)
    && q.Keys <= p.Keys && forall y :: y in p ==> (y in q <==> p[y].1 != pg) && (y in q ==> q[y] == p[y])
  }

  lemma InChain(c: Setup, s: Cache, at: map<Key, nat>, k: Key)
    requires Tables(c, s) && AtOk(c, s, at)
    ensures Bucket(c, k) in s.hash
    ensures k in at ==> at[k] in s.hash[Bucket(c, k)] && at[k] in s.bufs && s.bufs[at[k]].key == k
  {
  }

  lemma FoundAt(c: Setup, s: Cache, at: map<Key, nat>, k: Key, x: nat)
    requires Tables(c, s) && AtOk(c, s, at) && HashOk(c, s.bufs, s.hash) && x in s.hash[Bucket(c, k)]
    ensures x in s.bufs && (s.bufs[x].key == k ==> k in at && at[k] == x)
  {
    if s.bufs[x].key == k { assert Hashed(c, s, x); }
  }

  ghost predicate InTable(c: Setup, buckets: set<nat>) {
    forall k: Key :: Bucket(c, k) in buckets
  }

  class Buffers {
    const c: Setup
    const used: set<Key>
    var bufs: map<nat, Buf>
    var page: map<nat, nat>
    var freeLinks: Threads
    var dirtyLinks: Threads
    var hashLinks: Threads
    var disk: Device
    var nrDirty: int
    var dirtyKb: int
    var freePages: nat
    var next: nat
    ghost var free: map<nat, seq<nat>>
    ghost var dirty: map<nat, seq<nat>>
    ghost var hash: map<nat, seq<nat>>
    ghost var at: map<Key, nat>

    ghost function S(): Cache
      reads this
    {
      Cache(bufs, page, free, dirty, hash, disk, used)
    }

    ghost function K(): Books
      reads this
    {
      Books(at, nrDirty, dirtyKb, next)
    }

    ghost predicate Threaded()
      reads this
    {
      Wired(freeLinks, dirtyLinks, hashLinks, S())
    }

    ghost predicate Good()
      reads this
    {
      Sound(c, S(), K()) && Threaded()
    }

    ghost predicate Valid()
      reads this
    {
      Good() && HeldHashed(c, S())
    }

    /** buffer_init: no buffer yet, and `pages` pages to cut some from. */
    constructor (c: Setup, buckets: set<nat>, pages: nat, disk: Device, used: set<Key>)
      requires c.sizes == SIZES && InTable(c, buckets)
      ensures Valid() && Stands(S(), disk) && HeldBy(S(), map[]) && Pool(S()) == map[] && freePages == pages
      ensures this.c == c && this.used == used && this.disk == disk && at == map[] && free == NoLists(SIZES)
    {
      hide Sound, HeldHashed, Stands, Wired, InTable, Pool, HeldBy;
      StartOk(c, buckets, disk, used);
      this.c, this.used := c, used;
      bufs, page, this.disk := map[], map[], disk;
      freeLinks, dirtyLinks, hashLinks := NoThreads(SIZES), NoThreads(SIZES), NoThreads(buckets);
      free, dirty, hash := NoLists(SIZES), NoLists(SIZES), NoLists(buckets);
      nrDirty, dirtyKb, freePages, next, at := 0, 0, pages, 0, map[];
    }

    /** search_buffer_hash: the buffer that stands for block `k`. */
    method Search(k: Key) returns (r: Option<nat>)
      requires Good()
      ensures r.Some? ==> k in at && at[k] == r.value && r.value in bufs
      ensures r == None ==> k !in at
    {
      hide SizedOk, BufsOk, Counted, AtOk, HashOk, Chain, Woven;
      var i := Bucket(c, k);
      InChain(c, S(), at, k);
      ghost var chain := hash[i];
      ghost var n := 0;
      Heads(hashLinks, hash, bufs.Keys, i);
      var p := hashLinks.heads[i];
      while p.Some?
        invariant n <= |chain| && p == if n < |chain| then Some(chain[n]) else None
        invariant forall j :: 0 <= j < n ==> chain[j] in bufs && bufs[chain[j]].key != k
        decreases |chain| - n
      {
        FoundAt(c, S(), at, k, chain[n]);
        if bufs[p.value].key == k { return p; }
        Onward(hashLinks.heads[i], hashLinks.next, hashLinks.prev, chain, n);
        p := hashLinks.next[p.value];
        n := n + 1;
      }
      return None;
    }

    /** remove_from_free_list, and the lock. */
    method TakeBuf(x: nat)
      requires Threaded() && Located(c, S(), x) && !bufs[x].locked
      modifies this`bufs, this`free, this`freeLinks
      ensures Threaded() && S() == Take(old(S()), x)
    {
      hide Woven, Chained, OnlyOn;
      var z := bufs[x].key.size;
      freeLinks := Remove(freeLinks, z, x, free, bufs.Keys);
      free := free[z := Without(free[z], x)];
      bufs := bufs[x := bufs[x].(locked := true)];
      assert bufs.Keys == old(bufs).Keys;
    }

    /** sync_one_buffer and remove_from_dirty_list. */
    method FlushBuf(x: nat)
      requires Threaded() && x in bufs && bufs[x].key.size in dirty && x in dirty[bufs[x].key.size]
      modifies this`bufs, this`dirty, this`dirtyLinks, this`disk, this`nrDirty, this`dirtyKb
      ensures Threaded() && S() == Flush(old(S()), x)
      ensures nrDirty == old(nrDirty) - 1 && dirtyKb == old(dirtyKb) - Kb(old(bufs[x].key.size))
    {
      hide Woven, Chained;
      var b := bufs[x];
      disk := Put(disk, b.key, b.data);
      bufs := bufs[x := b.(dirty := false)];
      assert bufs.Keys == old(bufs).Keys;
      dirtyLinks := Remove(dirtyLinks, b.key.size, x, dirty, bufs.Keys);
      dirty := dirty[b.key.size := Without(dirty[b.key.size], x)];
      dirtyKb := dirtyKb - Kb(b.key.size);
      nrDirty := nrDirty - 1;
    }

    /** brelse: insert_on_dirty_list when dirty, insert_on_free_list, and the unlock. An invalid
        buffer goes to the head of the free list, for the next user to take. */
    method ReleaseBuf(x: nat, tail: bool)
      requires Threaded() && Located(c, S(), x) && bufs[x].locked
      modifies this`bufs, this`dirty, this`free, this`dirtyLinks, this`freeLinks, this`nrDirty, this`dirtyKb
      ensures Threaded() && S() == Release(old(S()), x, tail)
      ensures nrDirty == if NewlyDirty(old(S()), x) then old(nrDirty) + 1 else old(nrDirty)
      ensures dirtyKb == old(dirtyKb) + NewKb(old(S()), x)
    {
      hide Woven, Chained, InsertDirty;
      var z := bufs[x].key.size;
      assert OnNone(free, x);
      ListDirty(x);
      freeLinks := Insert(freeLinks, z, x, !tail, free, bufs.Keys);
      free := free[z := if tail then free[z] + [x] else [x] + free[z]];
      bufs := bufs[x := bufs[x].(locked := false)];
      assert bufs.Keys == old(bufs).Keys;
    }

    /** insert_on_dirty_list, when dirty. */
    method ListDirty(x: nat)
      requires Threaded() && Located(c, S(), x)
      modifies this`dirty, this`dirtyLinks, this`nrDirty, this`dirtyKb
      ensures Threaded() && S() == old(S()).(dirty := Release(old(S()), x, true).dirty)
      ensures nrDirty == if NewlyDirty(old(S()), x) then old(nrDirty) + 1 else old(nrDirty)
      ensures dirtyKb == old(dirtyKb) + NewKb(old(S()), x)
    {
      hide Woven, Chained;
      var z := bufs[x].key.size;
      if bufs[x].dirty {
        var added;
        dirtyLinks, added := InsertOnce(dirtyLinks, z, x, dirty, bufs.Keys);
        if added {
          dirty := dirty[z := dirty[z] + [x]];
          dirtyKb := dirtyKb + Kb(z);
          nrDirty := nrDirty + 1;
        } else {
          assert dirty[z := dirty[z]] == dirty;
        }
      }
    }

    /** remove_from_hash, the new block, insert_to_hash. */
    method RekeyBuf(x: nat, k: Key)
      requires Threaded() && Located(c, S(), x) && Bucket(c, k) in hash
      modifies this`bufs, this`hash, this`hashLinks
      ensures Threaded() && S() == Rekey(c, old(S()), x, k)
    {
      hide Woven, Chained;
      var i, j := Bucket(c, bufs[x].key), Bucket(c, k);
      hashLinks := Unhash(hashLinks, i, x, hash, bufs.Keys);
      hash := hash[i := Without(hash[i], x)];
      bufs := bufs[x := bufs[x].(key := k, valid := false)];
      assert bufs.Keys == old(bufs).Keys;
      assert OnNone(hash, x);
      hashLinks := Push(hashLinks, j, x, hash, bufs.Keys);
      hash := hash[j := [x] + hash[j]];
    }

    /** remove_from_hash and del_buffer_from_pool. */
    method DiscardBuf(x: nat)
      requires Threaded() && Located(c, S(), x) && bufs[x].locked && !bufs[x].dirty
      modifies this`bufs, this`page, this`hash, this`freeLinks, this`dirtyLinks, this`hashLinks
      ensures Threaded() && S() == Discard(c, old(S()), x)
    {
      hide Woven, Chained;
      var i := Bucket(c, bufs[x].key);
      hashLinks := Unhash(hashLinks, i, x, hash, bufs.Keys);
      hash := hash[i := Without(hash[i], x)];
      assert OnNone(hash, x) && OnNone(free, x) && OnNone(dirty, x);
      LessWoven(freeLinks, free, bufs.Keys, x);
      LessWoven(dirtyLinks, dirty, bufs.Keys, x);
      LessChained(hashLinks, hash, bufs.Keys, x);
      freeLinks, dirtyLinks, hashLinks := Less(freeLinks, x), Less(dirtyLinks, x), Less(hashLinks, x);
      bufs := bufs - {x};
      page := page - {x};
      assert bufs.Keys == old(bufs).Keys - {x};
    }

    /** get_dirty_buffer and insert_on_dirty_list: the head of the dirty list becomes its tail. */
    method RequeueBuf(x: nat)
      requires Threaded() && x in bufs && bufs[x].key.size in dirty && x in dirty[bufs[x].key.size]
      modifies this`dirty, this`dirtyLinks
      ensures Threaded() && S() == Requeue(old(S()), x)
    {
      hide Woven, Chained, OnNone, OnlyOn, Without;
      var z := bufs[x].key.size;
      OnWoven(dirtyLinks, dirty, bufs.Keys, z, x);
      TakenOff(dirty, z, x);
      dirtyLinks := Remove(dirtyLinks, z, x, dirty, bufs.Keys);
      dirty := dirty[z := Without(dirty[z], x)];
      dirtyLinks := Insert(dirtyLinks, z, x, false, dirty, bufs.Keys);
      dirty := dirty[z := dirty[z] + [x]];
      assert dirty == Requeue(old(S()), x).dirty;
    }

    /** The head of the free list, locked. */
    method TakeHead(size: nat, ghost plain: Device) returns (x: nat)
      requires Valid() && size in SIZES && size in free && free[size] != [] && Stands(S(), plain)
      modifies this`bufs, this`free, this`freeLinks
      ensures Good() && Stands(S(), plain) && Pool(S()) == old(Pool(S()))
      ensures Held(c, old(S()), S(), x) && Ready(S(), x, size) && bufs.Keys == old(bufs).Keys
      ensures IsFirst(old(S()), size, x) && TakenFrom(old(S()), S(), size, x)
    {
      hide Sound, HeldHashed, Stands, Held, Ready, Wired, OnlyOn, Pool;
      FirstOff(c, S(), K(), size);
      HeadOk(c, S(), K(), size);
      HeadLink(freeLinks, dirtyLinks, hashLinks, S(), size);
      x := freeLinks.heads[size].value;
      TakeHeadOk(c, S(), K(), x, plain);
      PoolSame(S(), Take(S(), x));
      TakeBuf(x);
    }

    /** A new buffer of create_buffers, on no list yet. */
    method NewBuf(size: nat, pg: nat, ghost plain: Device) returns (x: nat)
      requires Good() && size in SIZES && Stands(S(), plain) && pg <= next
      modifies this`bufs, this`page, this`next, this`freeLinks, this`dirtyLinks, this`hashLinks
      ensures Good() && Stands(S(), plain)
      ensures x == old(next) && next == old(next) + 1 && x !in old(bufs) && S() == Add(old(S()), x, size, pg)
    {
      hide Sound, HeldHashed, Stands, Wired;
      NewOk(c, S(), K(), size, pg, plain);
      x := next;
      AddBuf(x, size, pg);
      next := next + 1;
    }

    /** add_buffer_to_pool. */
    method AddBuf(x: nat, size: nat, pg: nat)
      requires Threaded() && x !in bufs
      modifies this`bufs, this`page, this`freeLinks, this`dirtyLinks, this`hashLinks
      ensures Threaded() && S() == Add(old(S()), x, size, pg)
    {
      hide Woven, Chained;
      WithWoven(freeLinks, free, bufs.Keys, x);
      WithWoven(dirtyLinks, dirty, bufs.Keys, x);
      WithChained(hashLinks, hash, bufs.Keys, x);
      freeLinks, dirtyLinks, hashLinks := With(freeLinks, x), With(dirtyLinks, x), With(hashLinks, x);
      bufs := bufs[x := Buf(Key(0, 0, size), false, false, true, [])];
      page := page[x := pg];
      assert bufs.Keys == old(bufs).Keys + {x};
    }

    /** The brelse of a buffer that create_buffers has just made. */
    method ReleaseNew(x: nat, size: nat, ghost plain: Device)
      requires Good() && Stands(S(), plain) && Fresh(S(), x, size)
      modifies this`bufs, this`dirty, this`free, this`dirtyLinks, this`freeLinks, this`nrDirty, this`dirtyKb
      ensures Good() && Stands(S(), plain) && nrDirty == old(nrDirty)
      ensures bufs == old(bufs)[x := old(bufs)[x].(locked := false)] && dirty == old(dirty)
      ensures size in old(free) && free == old(free)[size := [x] + old(free)[size]]
    {
      hide Sound, HeldHashed, Stands, Wired, OnlyOn;
      ReleaseNewOk(c, S(), K(), x, size, plain);
      ReleaseBuf(x, false);
    }

    /** One more round of create_buffers: the buffer of the round before is released. */
    method AnotherBuf(size: nat, pg: nat, prev: nat, ghost s: Cache, ghost plain: Device) returns (x: nat)
      requires Good() && size in SIZES && Stands(S(), plain) && Growing(s, S(), pg, prev, next, size)
      modifies this`bufs, this`page, this`next, this`dirty, this`free, this`dirtyLinks, this`freeLinks, this`hashLinks, this`nrDirty, this`dirtyKb
      ensures Good() && Stands(S(), plain) && nrDirty == old(nrDirty)
      ensures Growing(s, S(), pg, x, next, size) && next == old(next) + 1
    {
      hide Sound, HeldHashed, Stands, Wired;
      ghost var t := S();
      ReleaseNew(prev, size, plain);
      x := NewBuf(size, pg, plain);
      hide Growing, Grown, Fresh, Made;
      GrowingNext(s, t, S(), pg, prev, x, size);
    }

    /** create_buffers: a page is cut into buffers; all but the last go onto the free list, each in
        front of the one before; all else is as it was. */
    method CreateBuffers(size: nat, ghost plain: Device) returns (x: nat)
      requires Valid() && size in SIZES && freePages > 0 && Stands(S(), plain)
      modifies this`freePages, this`bufs, this`page, this`next, this`dirty, this`free, this`dirtyLinks, this`freeLinks, this`hashLinks, this`nrDirty, this`dirtyKb
      ensures Good() && Stands(S(), plain) && nrDirty == old(nrDirty) && freePages == old(freePages) - 1
      ensures Held(c, old(S()), S(), x) && Ready(S(), x, size)
      ensures Growing(old(S()), S(), old(next), x, next, size) && next == old(next) + PerPage(size)
      ensures CutFrom(old(Pool(S())), Pool(S()), old(next), PerPage(size), size)
    {
      hide Sound, HeldHashed, Stands, Held, Ready, Growing, Wired, Pool, CutFrom;
      ghost var s := S();
      freePages := freePages - 1;
      var pg := next;
      HeadOk(c, s, K(), size);
      x := NewBuf(size, pg, plain);
      GrowingFirst(s, S(), x, size);
      var n := 1;
      while n < PerPage(size)
        invariant 1 <= n <= PerPage(size) && Good() && Stands(S(), plain) && nrDirty == old(nrDirty)
        invariant Growing(s, S(), pg, x, next, size) && freePages == old(freePages) - 1 && next == pg + n
      {
        x := AnotherBuf(size, pg, x, s, plain);
        n := n + 1;
      }
      GrowingHeld(c, s, S(), pg, x, next, size);
      SamePages(c, S(), K());
      GrowingCut(c, s, old(K()), S(), x, next, size);
    }

    /** get_free_buffer: a new page when there is one and no unused buffer is left, else the
        least recently used buffer; none when the list is empty. */
    method GetFreeBuffer(size: nat, grow: bool, ghost plain: Device) returns (r: Option<nat>)
      requires Valid() && size in SIZES && Stands(S(), plain)
      modifies this`freePages, this`bufs, this`page, this`next, this`dirty, this`free, this`dirtyLinks, this`freeLinks, this`hashLinks, this`nrDirty, this`dirtyKb
      ensures size in old(free)
      ensures var l := old(free)[size];
        (freePages < old(freePages)) == (grow && old(freePages) > 0 && (l == [] || (l[0] in old(bufs) && old(bufs)[l[0]].key.dev != 0)))
      ensures Good() && Stands(S(), plain) && nrDirty == old(nrDirty)
      ensures r == None ==> Valid() && S() == old(S()) && NoneFree(S(), size) && (grow ==> freePages == 0)
      ensures r.Some? ==> Held(c, old(S()), S(), r.value) && Ready(S(), r.value, size)
      ensures Grows(old(S()), size, grow, old(freePages)) ==>
        && r.Some? && freePages == old(freePages) - 1 && Growing(old(S()), S(), old(next), r.value, next, size)
        && CutFrom(old(Pool(S())), Pool(S()), old(next), PerPage(size), size) && next == old(next) + PerPage(size)
      ensures !Grows(old(S()), size, grow, old(freePages)) ==>
        freePages == old(freePages) && Pool(S()) == old(Pool(S())) && page == old(page) && next == old(next)
      ensures r.Some? && !Grows(old(S()), size, grow, old(freePages)) ==> IsFirst(old(S()), size, r.value) && TakenFrom(old(S()), S(), size, r.value)
    {
      hide Sound, HeldHashed, Stands, Held, Ready, Growing, Wired, Pool, CutFrom, TakenFrom;
      HeadOk(c, S(), K(), size);
      HeadLink(freeLinks, dirtyLinks, hashLinks, S(), size);
      var h := freeLinks.heads[size];
      if (h == None || bufs[h.value].key.dev != 0) && grow && freePages > 0 {
        var x := CreateBuffers(size, plain);
        return Some(x);
      }
      if freeLinks.heads[size] == None { return None; }
      var x := TakeHead(size, plain);
      return Some(x);
    }

    /** The buffer found in the hash table, locked. */
    method TakeHit(x: nat, ghost k: Key, ghost plain: Device)
      requires Valid() && Stands(S(), plain) && k in at && at[k] == x && x in bufs && !bufs[x].locked
      modifies this`bufs, this`free, this`freeLinks
      ensures Valid() && Stands(S(), plain) && Got(c, old(S()), S(), x, k) && Pool(S()) == old(Pool(S()))
      ensures k.size in old(free) && free == old(free)[k.size := Without(old(free)[k.size], x)]
      ensures bufs == old(bufs)[x := old(bufs)[x].(locked := true)]
    {
      hide Sound, HeldHashed, Stands, Got, Wired, OnlyOn, Pool;
      AtKey(c, S(), K(), k);
      TakeHitOk(c, S(), K(), x, k, plain);
      PoolSame(S(), Take(S(), x));
      TakeBuf(x);
    }

    /** sync_one_buffer on a buffer one holds. */
    method FlushHeld(x: nat, ghost s: Cache, ghost size: nat, ghost plain: Device)
      requires Good() && Stands(S(), plain) && Held(c, s, S(), x) && Ready(S(), x, size) && bufs[x].dirty
      modifies this`bufs, this`dirty, this`dirtyLinks, this`disk, this`nrDirty, this`dirtyKb
      ensures Good() && Stands(S(), plain) && Held(c, s, S(), x) && nrDirty == old(nrDirty) - 1 && Pool(S()) == old(Pool(S()))
      ensures x in old(bufs) && bufs == old(bufs)[x := old(bufs)[x].(dirty := false)] && bufs[x].key.size == size && bufs[x].valid
      ensures size in old(dirty) && dirty == old(dirty)[size := Without(old(dirty)[size], x)]
    {
      hide Sound, Stands, Held, Wired, Pool;
      FlushHeldOk(c, s, S(), K(), x, size, plain);
      PoolSame(S(), Flush(S(), x));
      FlushBuf(x);
    }

    /** Giving a clean buffer back. */
    method ReleaseHeld(x: nat, tail: bool, ghost s: Cache, ghost plain: Device)
      requires Good() && Stands(S(), plain) && Held(c, s, S(), x) && !bufs[x].dirty
      modifies this`bufs, this`dirty, this`dirtyLinks, this`nrDirty, this`dirtyKb, this`free, this`freeLinks
      ensures Valid() && Stands(S(), plain) && Rest(s, S()) && nrDirty == old(nrDirty) && bufs.Keys == old(bufs).Keys
      ensures Pool(S()) == old(Pool(S())) && x in old(bufs) && bufs == old(bufs)[x := old(bufs)[x].(locked := false)]
      ensures dirty == old(dirty) && Placed(old(S()), S(), x, tail)
    {
      hide Sound, HeldHashed, Stands, Held, Rest, Wired, OnlyOn, Pool;
      ReleaseHeldOk(c, s, S(), K(), x, tail, plain);
      PoolSame(S(), Release(S(), x, tail));
      ReleaseBuf(x, tail);
    }

    /** A dirty buffer that getblk came upon is written and given back. */
    method PutAside(x: nat, ghost s: Cache, ghost size: nat, ghost plain: Device)
      requires Good() && Stands(S(), plain) && Held(c, s, S(), x) && Ready(S(), x, size) && bufs[x].dirty
      modifies this`bufs, this`dirty, this`dirtyLinks, this`disk, this`nrDirty, this`dirtyKb, this`free, this`freeLinks
      ensures Valid() && Stands(S(), plain) && Rest(s, S()) && nrDirty == old(nrDirty) - 1 && Pool(S()) == old(Pool(S()))
      ensures x in old(bufs) && bufs == old(bufs)[x := old(bufs)[x].(dirty := false, locked := false)]
      ensures size in old(free) && free == old(free)[size := old(free)[size] + [x]]
      ensures size in old(dirty) && dirty == old(dirty)[size := Without(old(dirty)[size], x)]
    {
      hide Sound, HeldHashed, Stands, Held, Rest, Wired, Pool, Ready;
      ReadyIn(S(), x, size);
      FlushHeld(x, s, size, plain);
      ReleaseHeld(x, bufs[x].valid, s, plain);
    }

    /** A clean buffer taken from the free list is given block `k` to stand for. */
    method Assign(x: nat, k: Key, ghost s: Cache, ghost plain: Device)
      requires Good() && Stands(S(), plain) && Held(c, s, S(), x) && Ready(S(), x, k.size) && !bufs[x].dirty && k !in at && k in used
      modifies this`bufs, this`hash, this`hashLinks, this`at
      ensures Valid() && Stands(S(), plain) && Got(c, s, S(), x, k) && Pool(S()) == old(Pool(S()))
      ensures at.Keys <= old(at).Keys + {k} && x in old(bufs) && bufs == old(bufs)[x := old(bufs)[x].(key := k, valid := false)]
    {
      hide Sound, HeldHashed, Stands, Held, Got, Wired, OnlyOn, Pool;
      AssignOk(c, s, S(), K(), x, k, plain);
      PoolSame(S(), Rekey(c, S(), x, k));
      at := Rekeyed(S(), at, x, k);
      RekeyBuf(x, k);
    }

    /** One round of getblk: it is done, or a dirty buffer has been written out on the way. */
    method TryGetblk(k: Key, ghost plain: Device) returns (r: Option<nat>, done: bool)
      requires Valid() && k.size in SIZES && k in used && Stands(S(), plain)
      modifies this
      ensures Valid() && Stands(S(), plain) && at.Keys <= old(at).Keys + {k}
      ensures Result(c, old(S()), S(), r, k, old(freePages), freePages)
      ensures if done then r == None ==> Busy(S(), at, k, freePages) else r == None && nrDirty < old(nrDirty)
      ensures Missed(old(S()), old(at), S(), r, k, old(freePages), freePages)
      ensures Turn(old(S()), old(at), S(), r, done, k, old(freePages), freePages, old(next))
      ensures r == None ==> at == old(at) && next == old(next) && freePages == old(freePages)
    {
      hide Sound, HeldHashed, Stands, Held, Got, Rest, Wired, Pool, CutFrom, Growing, Grows;
      ghost var s := S();
      RestSelf(s);
      r := Search(k);
      if r.Some? {
        if bufs[r.value].locked { return None, true; }
        TakeHit(r.value, k, plain);
        return r, true;
      }
      r, done := Replace(k, plain);
    }

    /** The part of that round for a block that has no buffer. */
    method Replace(k: Key, ghost plain: Device) returns (r: Option<nat>, done: bool)
      requires Valid() && k.size in SIZES && k in used && k !in at && Stands(S(), plain)
      modifies this
      ensures Valid() && Stands(S(), plain) && at.Keys <= old(at).Keys + {k}
      ensures Result(c, old(S()), S(), r, k, old(freePages), freePages)
      ensures if done then r == None ==> Busy(S(), at, k, freePages) else r == None && nrDirty < old(nrDirty)
      ensures Missed(old(S()), old(at), S(), r, k, old(freePages), freePages)
      ensures Turn(old(S()), old(at), S(), r, done, k, old(freePages), freePages, old(next))
      ensures r == None ==> at == old(at) && next == old(next) && freePages == old(freePages)
    {
      hide Sound, HeldHashed, Stands, Held, Got, Rest, Wired, Pool, CutFrom, Growing, Grows, Result, Missed, Busy, NoneFree, IsFirst, TakenFrom, Served, WashedOff;
      ghost var s := S();
      r := GetFreeBuffer(k.size, true, plain);
      if r == None {
        Refused(c, s, old(at), k);
        return None, true;
      }
      var x := r.value;
      ghost var t := S();
      if bufs[x].dirty {
        NotGrowing(s, S(), old(next), x, next, k.size);
        PutAside(x, s, k.size, plain);
        WashTurn(s, t, S(), k.size, x);
        Again(c, s, old(at), S(), k, freePages);
        return None, false;
      }
      Assign(x, k, s, plain);
      Replaced(c, s, old(at), t, S(), x, k, old(freePages), freePages, old(next), next);
      ServedTurn(s, old(at), t, S(), x, k, old(freePages), freePages, old(next), next);
      return r, true;
    }

    /** getblk: the one buffer that stands for `k`, locked for the caller. It waits only while
        somebody holds that buffer, or while no buffer of the size is free and no page is left.
        Without a page it reuses the first clean buffer of the free list, once the dirty ones before it
        have been written and put at its end. */
    method Getblk(k: Key, ghost plain: Device) returns (r: Option<nat>, ghost way: Way)
      requires Valid() && k.size in SIZES && k in used && Stands(S(), plain)
      modifies this
      ensures Valid() && Stands(S(), plain) && at.Keys <= old(at).Keys + {k}
      ensures Result(c, old(S()), S(), r, k, old(freePages), freePages) && (r == None ==> Busy(S(), at, k, freePages))
      ensures Missed(old(S()), old(at), S(), r, k, old(freePages), freePages)
      ensures r == None ==> S() == old(S()) && at == old(at)
      ensures r.Some? ==> Reached(old(S()), old(at), way, S(), r.value, k, old(freePages), freePages, old(next))
    {
      hide Sound, HeldHashed, Stands, Wired, Busy, Missed, Misses, Result, Turn, Washing, Reached;
      ghost var s, w := S(), K();
      RestSelf(s);
      NoneWashed(c, s, w, k.size, freePages);
      FirstResult(c, s, k, freePages);
      var done := false;
      r, way := None, Way(s, 0);
      while !done
        invariant Valid() && Stands(S(), plain) && at.Keys <= old(at).Keys + {k}
        invariant Result(c, s, S(), r, k, old(freePages), freePages)
        invariant done ==> Missed(s, old(at), S(), r, k, old(freePages), freePages) && (r == None ==> S() == s && Busy(S(), at, k, freePages))
        invariant r == None ==> at == old(at) && next == old(next) && freePages == old(freePages)
        invariant !done ==> r == None && way.mid == S() && Washing(s, S(), k.size, way.d, freePages)
        invariant !done ==> if way.d == 0 then S() == s else k !in at && !Misses(s, at, k, freePages)
        invariant done && r.Some? ==> Reached(s, old(at), way, S(), r.value, k, old(freePages), freePages, old(next))
        decreases !done, nrDirty
      {
        NrNat(c, S(), K());
        ghost var t, m := S(), freePages;
        r, done := TryGetblk(k, plain);
        Through(c, s, t, S(), r, k, old(freePages), m, freePages);
        if done {
          Arrived(c, s, w, old(at), t, way.d, S(), r, k, m, freePages, old(next));
        } else {
          Onwards(c, s, w, at, t, way.d, S(), k, m);
          way := Way(S(), way.d + 1);
        }
      }
    }

    /** bread: what is read is what the disk would hold without the cache. A block that is not
        cached, and for which a page is cut, is read from the device. */
    method Bread(k: Key, ghost plain: Device) returns (r: Option<nat>, ghost way: Way, ghost got: Cache)
      requires Valid() && k.size in SIZES && k in used && Stands(S(), plain)
      modifies this
      ensures Valid() && Stands(S(), plain) && at.Keys <= old(at).Keys + {k}
      ensures Result(c, old(S()), S(), r, k, old(freePages), freePages) && (r == None ==> Busy(S(), at, k, freePages))
      ensures r.Some? ==> r.value in bufs && bufs[r.value].valid && (Separate(used) ==> bufs[r.value].data == Get(plain, k))
      ensures Fetched(old(S()), old(at), S(), r, k, old(freePages), freePages)
      ensures if r == None then S() == old(S()) else Brings(old(S()), old(at), way, got, S(), r.value, k, old(freePages), freePages, old(next))
    {
      hide Sound, HeldHashed, Stands, Wired, Busy, Got, Rest, Pool, Misses, Grew, Get, Reached;
      ghost var s := S();
      r, way := Getblk(k, plain);
      got := S();
      if r == None { return; }
      GotFor(c, s, S(), r.value, k);
      ValidData(S(), r.value, plain);
      if !bufs[r.value].valid {
        FillOk(c, s, S(), K(), r.value, k, plain);
        PoolSame(S(), Fill(S(), r.value));
        WiredSame(freeLinks, dirtyLinks, hashLinks, S(), Fill(S(), r.value));
        bufs := bufs[r.value := bufs[r.value].(valid := true, data := Get(disk, k))];
      }
    }

    /** bwrite, of a held buffer into which `d` has been put. */
    method Bwrite(x: nat, d: Data, ghost plain: Device)
      requires Valid() && Stands(S(), plain) && x in bufs && bufs[x].locked && |d| == bufs[x].key.size
      modifies this`bufs, this`dirty, this`free, this`dirtyLinks, this`freeLinks, this`nrDirty, this`dirtyKb
      ensures Valid() && Stands(S(), Put(plain, old(bufs[x].key), d)) && Pool(S()) == old(Pool(S()))
      ensures Freed(old(S()), S(), x) && Placed(old(S()), S(), x, true)
      ensures bufs == old(bufs)[x := Buf(old(bufs)[x].key, true, true, false, d)] && disk == old(disk) && QueuedDirty(old(S()), S(), x)
    {
      hide Sound, HeldHashed, Stands, Freed, Wired, OnlyOn, Pool, Put;
      ghost var s := S();
      StoreOk(c, S(), K(), x, d, plain);
      WiredSame(freeLinks, dirtyLinks, hashLinks, S(), Store(S(), x, d));
      bufs := bufs[x := bufs[x].(valid := true, dirty := true, data := d)];
      GiveOk(c, s, S(), K(), x, true, Put(plain, bufs[x].key, d));
      PoolSame(s, Release(S(), x, true));
      ReleaseBuf(x, true);
    }

    /** brelse, of a held buffer. */
    method Brelse(x: nat, ghost plain: Device)
      requires Valid() && Stands(S(), plain) && x in bufs && bufs[x].locked
      modifies this`bufs, this`dirty, this`free, this`dirtyLinks, this`freeLinks, this`nrDirty, this`dirtyKb
      ensures Valid() && Stands(S(), plain) && Pool(S()) == old(Pool(S()))
      ensures Freed(old(S()), S(), x) && Placed(old(S()), S(), x, old(bufs)[x].valid)
      ensures bufs == old(bufs)[x := old(bufs)[x].(locked := false)] && disk == old(disk)
      ensures if old(bufs)[x].dirty then QueuedDirty(old(S()), S(), x) else dirty == old(dirty)
    {
      hide Sound, HeldHashed, Stands, Freed, Wired, OnlyOn, Pool;
      GiveOk(c, S(), S(), K(), x, bufs[x].valid, plain);
      PoolSame(S(), Release(S(), x, bufs[x].valid));
      ReleaseBuf(x, bufs[x].valid);
    }

    /** One block size of sync_buffers: round the dirty list until the first buffer left on it
        comes back. */
    method SyncSize(size: nat, dev: nat, ghost plain: Device)
      requires Valid() && size in SIZES && Stands(S(), plain) && NoDirtyHeld(S())
      modifies this`bufs, this`dirty, this`dirtyLinks, this`disk, this`nrDirty, this`dirtyKb
      ensures Valid() && Stands(S(), plain) && NoDirtyHeld(S())
      ensures Synced(old(S()), S(), size, dev)
    {
      hide Sound, HeldHashed, Stands, NoDirtyHeld, Midway, Synced, Wired, Requeue, Flush;
      ghost var s := S();
      MidwayStart(c, s, K(), size, dev);
      ghost var done: seq<nat>, rest := [], dirty[size];
      var first: Option<nat> := None;
      DirtyLink(freeLinks, dirtyLinks, hashLinks, S(), size);
      while dirtyLinks.heads[size].Some?
        invariant Calm(c, S(), K(), plain) && Threaded() && Midway(s, S(), size, dev, done, rest)
        invariant size in dirty && size in dirtyLinks.heads && dirtyLinks.heads[size] == First(dirty[size])
        invariant first == FirstOf(Spared(s.bufs, done, dev))
        decreases |rest|
      {
        var x := dirtyLinks.heads[size].value;
        ghost var t := S();
        MidwayHead(c, t, K(), s, old(K()), size, dev, done, rest, plain);
        if first == Some(x) {
          RequeueBuf(x);
          return;
        }
        if For(bufs[x], dev) {
          FlushBuf(x);
        } else {
          if first == None { first := Some(x); }
          RequeueBuf(x);
        }
        done, rest := done + [x], rest[1..];
        StillSized(c, S(), K(), size);
        DirtyLink(freeLinks, dirtyLinks, hashLinks, S(), size);
      }
      MidwayEmpty(c, S(), K(), s, old(K()), size, dev, done, rest);
    }

    /** sync_buffers: every buffer of the device is written and clean; the dirty buffers of the
        other devices stay dirty, and stay on their lists. */
    method SyncBuffers(dev: nat, ghost plain: Device)
      requires Valid() && Stands(S(), plain) && NoDirtyHeld(S())
      modifies this`bufs, this`dirty, this`dirtyLinks, this`disk, this`nrDirty, this`dirtyKb
      ensures Valid() && Stands(S(), plain) && NoDirtyHeld(S())
      ensures AllSynced(old(S()), S(), dev) && OnDevice(S(), dev, plain)
    {
      hide Sound, HeldHashed, Stands, NoDirtyHeld, SyncedBelow, Synced, AllSynced, OnDevice, Sizes, Wired;
      ghost var s := S();
      AllSized(c, s, K());
      SyncedNone(s, dev);
      var size := 1024;
      while size <= 4096
        invariant size in {1024, 2048, 4096, 8192}
        invariant Calm(c, S(), K(), plain) && Threaded() && SyncedBelow(s, S(), dev, size)
        decreases 8192 - size
      {
        ghost var t := S();
        SyncSize(size, dev, plain);
        SyncedNext(s, t, S(), dev, size);
        size := 2 * size;
      }
      SyncedEnd(s, S(), dev, plain);
    }

    /** The end of a buffer whose page is reclaimed: written if need be, and gone from every list. */
    method Drop(y: nat, ghost s: Cache, ghost x: nat, ghost plain: Device)
      requires Good() && Stands(S(), plain) && Held(c, s, S(), x) && y in bufs && y != x && !bufs[y].locked
      modifies this
      ensures Good() && Stands(S(), plain) && Held(c, s, S(), x)
      ensures Dropped(old(S()), S(), {y}) && freePages == old(freePages)
    {
      hide Sound, Stands, Held, Dropped, Discard, Wired, OnlyOn;
      DropOk(c, s, S(), K(), x, y, plain);
      CleanBuf(y);
      at := Unkeyed(S(), at, y);
      DiscardBuf(y);
    }

    /** Locked, and written if dirty. */
    method CleanBuf(y: nat)
      requires Threaded() && Located(c, S(), y) && !bufs[y].locked && (bufs[y].dirty ==> y in dirty[bufs[y].key.size])
      modifies this`bufs, this`free, this`freeLinks, this`dirty, this`dirtyLinks, this`disk, this`nrDirty, this`dirtyKb
      ensures Threaded() && S() == Cleaned(Take(old(S()), y), y)
      ensures K() == if old(bufs)[y].dirty then Fewer(old(K()), old(bufs)[y].key.size) else old(K())
    {
      hide Wired, OnlyOn;
      TakeBuf(y);
      if bufs[y].dirty { FlushBuf(y); }
    }

    /** reclaim_siblings, once none of them is held. */
    method DropAll(siblings: set<nat>, ghost x: nat, ghost s: Cache, ghost plain: Device)
      requires Good() && Stands(S(), plain) && Held(c, s, S(), x) && x in bufs && x !in siblings
      requires forall y :: y in siblings ==> y in bufs && !bufs[y].locked
      modifies this
      ensures Good() && Stands(S(), plain) && Held(c, s, S(), x)
      ensures Dropped(old(S()), S(), siblings) && freePages == old(freePages)
    {
      hide Sound, Stands, Held, Wired, Struck;
      var left := siblings;
      DroppedNone(S());
      assert siblings - left == {};
      while left != {}
        invariant left <= siblings
        invariant Good() && Stands(S(), plain) && Held(c, s, S(), x) && Dropped(old(S()), S(), siblings - left)
        invariant freePages == old(freePages)
      {
        var y :| y in left;
        ghost var t := S();
        Drop(y, s, x, plain);
        DroppedToo(old(S()), t, S(), siblings - left, {y});
        assert siblings - (left - {y}) == (siblings - left) + {y};
        left := left - {y};
      }
      assert siblings - left == siblings;
    }

    /** One turn of reclaim_buffers: the least recently used buffer of a size goes, with all that
        is cut from the same page, and the page is free; unless one of them is held: then it goes to the
        end of the list, so that the next turn meets another. */
    method Reclaim(size: nat, ghost plain: Device) returns (r: Option<nat>)
      requires Valid() && size in SIZES && Stands(S(), plain)
      modifies this
      ensures Valid() && Stands(S(), plain) && Rest(old(S()), S()) && size in old(free)
      ensures r == None ==> Pool(S()) == old(Pool(S())) && freePages == old(freePages)
      ensures r == None && NoneFree(old(S()), size) ==> S() == old(S())
      ensures r == None && !NoneFree(old(S()), size) ==> SiblingHeld(old(S()), old(free)[size][0]) && PutLast(old(S()), S(), size)
      ensures r.Some? ==> freePages == old(freePages) + 1 && PageGone(old(Pool(S())), Pool(S()), r.value)
      ensures r.Some? ==> Struck(old(free), free, PageBufs(old(S()), r.value))
    {
      hide Sound, HeldHashed, Stands, Held, Rest, Dropped, PageGone, Wired, Pool, TakenFrom, Struck, PutLast, PageBufs, SiblingHeld;
      ghost var s := S();
      HeadAlone(c, s, K(), size);
      r := GetFreeBuffer(size, false, plain);
      if r == None {
        RestSelf(s);
        return;
      }
      var x := r.value;
      ReadyIn(S(), x, size);
      ghost var t := S();
      if bufs[x].dirty { FlushHeld(x, s, size, plain); }
      ghost var u := S();
      ReclaimStart(s, t, u, size, x);
      r := ReclaimWith(x, s, plain);
      ReclaimEnd(s, u, S(), size, x, r);
    }

    /** reclaim_siblings, and what follows it. */
    method ReclaimWith(x: nat, ghost s: Cache, ghost plain: Device) returns (r: Option<nat>)
      requires Good() && Stands(S(), plain) && Held(c, s, S(), x) && x in bufs && !bufs[x].dirty && page == s.page
      modifies this
      ensures Valid() && Stands(S(), plain) && Rest(s, S())
      ensures r == None ==> Pool(S()) == old(Pool(S())) && freePages == old(freePages) && SiblingHeld(s, x)
      ensures r == None ==> Placed(old(S()), S(), x, true) && bufs == old(bufs)[x := old(bufs)[x].(locked := false)]
      ensures r.Some? ==> freePages == old(freePages) + 1 && PageGone(old(Pool(S())), Pool(S()), r.value)
      ensures r.Some? ==> Struck(old(free), free, PageBufs(old(S()), r.value)) && x in PageBufs(old(S()), r.value)
    {
      hide Sound, HeldHashed, Stands, Held, Rest, PageGone, Wired, Pool, SiblingHeld, Struck;
      HeldIn(c, s, S(), K(), x);
      var pg := page[x];
      var siblings := set y | y in page && page[y] == pg && y != x;
      if y :| y in siblings && y in bufs && bufs[y].locked {
        WasHeld(c, s, S(), x, y);
        ReleaseHeld(x, true, s, plain);
        return None;
      }
      ghost var t := S();
      assert siblings + {x} == PageBufs(t, pg);
      FreePage(x, siblings, s, plain);
      PageDone(t, t, S(), x, siblings, pg);
      return Some(pg);
    }

    /** A page whose buffers nobody else holds goes back. */
    method FreePage(x: nat, siblings: set<nat>, ghost s: Cache, ghost plain: Device)
      requires Good() && Stands(S(), plain) && Held(c, s, S(), x) && x in bufs && x !in siblings && !bufs[x].dirty
      requires forall y :: y in siblings ==> y in bufs && !bufs[y].locked
      modifies this
      ensures Valid() && Stands(S(), plain) && Rest(s, S())
      ensures Dropped(old(S()), S(), siblings + {x}) && freePages == old(freePages) + 1
    {
      hide Sound, HeldHashed, Stands, Held, Rest, Wired, OnlyOn, Dropped, Discard, Unkeyed;
      ghost var s0 := S();
      DropAll(siblings, x, s, plain);
      HeldIn(c, s, S(), K(), x);
      SameStill(s0, S(), siblings, x);
      ghost var s1 := S();
      DropLast(x, s, plain);
      DroppedToo(s0, s1, S(), siblings, {x});
      freePages := freePages + 1;
    }

    /** The buffer that was taken first is the last to go. */
    method DropLast(x: nat, ghost s: Cache, ghost plain: Device)
      requires Good() && Stands(S(), plain) && Held(c, s, S(), x) && x in bufs && !bufs[x].dirty
      modifies this`bufs, this`page, this`hash, this`at, this`freeLinks, this`dirtyLinks, this`hashLinks
      ensures Valid() && Stands(S(), plain) && Rest(s, S()) && Dropped(old(S()), S(), {x})
    {
      hide Sound, HeldHashed, Stands, Held, Rest, Wired, OnlyOn, Dropped, Discard, Unkeyed;
      LastOk(c, s, S(), K(), x, plain);
      DroppedOne(c, S(), K(), x);
      at := Unkeyed(S(), at, x);
      DiscardBuf(x);
    }
  }

  function NoLists(names: set<nat>): map<nat, seq<nat>> {
    map z | z in names :: []
  }

  function NoThreads(names: set<nat>): Threads {
    Threads(map z | z in names :: None, map[], map[])
  }

  ghost function Start(buckets: set<nat>, disk: Device, used: set<Key>): Cache {
    Cache(map[], map[], NoLists(SIZES), NoLists(SIZES), NoLists(buckets), disk, used)
  }

  lemma StartOk(c: Setup, buckets: set<nat>, disk: Device, used: set<Key>)
    requires c.sizes == SIZES && InTable(c, buckets)
    ensures var s := Start(buckets, disk, used);
      && Sound(c, s, Books(map[], 0, 0, 0)) && HeldHashed(c, s) && Stands(s, disk) && HeldBy(s, map[]) && Pool(s) == map[]
      && Wired(NoThreads(SIZES), NoThreads(SIZES), NoThreads(buckets), s)
  {
    NoneWoven(SIZES);
    NoneWoven(buckets);
    StartSound(c, buckets, disk, used);
    hide Sound, Woven, Chained;
  }

  lemma StartSound(c: Setup, buckets: set<nat>, disk: Device, used: set<Key>)
    requires c.sizes == SIZES && InTable(c, buckets)
    ensures Sound(c, Start(buckets, disk, used), Books(map[], 0, 0, 0))
  {
  }

  lemma NoneWoven(names: set<nat>)
    ensures Woven(NoThreads(names), NoLists(names), {}) && Chained(NoThreads(names), NoLists(names), {})
  {
  }

  /** A head is the first of its list. */
  lemma HeadLink(f: Threads, d: Threads, h: Threads, s: Cache, z: nat)
    requires Wired(f, d, h, s) && z in s.free
    ensures z in f.heads && f.heads[z] == First(s.free[z])
  {
    assert Tailed(f.heads[z], f.next, f.prev, s.free[z]);
  }

  lemma DirtyLink(f: Threads, d: Threads, h: Threads, s: Cache, z: nat)
    requires Wired(f, d, h, s) && z in s.dirty
    ensures z in d.heads && d.heads[z] == First(s.dirty[z])
  {
    assert Tailed(d.heads[z], d.next, d.prev, s.dirty[z]);
  }

  lemma StillSized(c: Setup, s: Cache, w: Books, size: nat)
    requires Sound(c, s, w) && size in SIZES
    ensures size in s.dirty
  {
  }

  lemma AtKey(c: Setup, s: Cache, w: Books, k: Key)
    requires Sound(c, s, w) && k in w.at
    ensures w.at[k] in s.bufs && s.bufs[w.at[k]].key == k
  {
  }

  // ---------------------------------------------------------------- which buffer getblk takes

  /** `x` has been locked, and taken off the front of its free list. */
  ghost predicate TakenFrom(s: Cache, t: Cache, size: nat, x: nat) {
    && x in s.bufs && !s.bufs[x].locked && size in s.free && s.free[size] != []
    && t.bufs == s.bufs[x := s.bufs[x].(locked := true)]
    && t.free == s.free[size := s.free[size][1..]] && t.dirty == s.dirty && t.hash == s.hash && t.page == s.page
    && t.disk == s.disk && t.used == s.used
  }

  lemma FirstOff(c: Setup, s: Cache, w: Books, size: nat)
    requires Sound(c, s, w) && size in SIZES
    ensures size in s.free && size in s.dirty && NoDup(s.free[size]) && forall x :: x in s.free[size] ==> x in s.bufs
    ensures s.free[size] != [] ==> Without(s.free[size], s.free[size][0]) == s.free[size][1..]
  {
    if s.free[size] != [] { WithoutFirst(s.free[size]); }
  }

  /** The first `d` of a free list have been written, and put at its end in their order. */
  ghost predicate WashedOff(s: Cache, t: Cache, size: nat, d: nat) {
    && size in s.free && d <= |s.free[size]| && t.free == s.free[size := Turned(s.free[size], d)]
    && t.bufs.Keys == s.bufs.Keys && t.hash == s.hash && t.page == s.page && t.used == s.used
    && forall y :: y in s.bufs ==> t.bufs[y] == if y in s.free[size][..d] then s.bufs[y].(dirty := false) else s.bufs[y]
  }

  /** A dirty buffer at the head of the list is written; but new buffers are made instead if there is a
      page and it has been used. */
  predicate ToWash(s: Cache, x: nat, pages: nat) {
    x in s.bufs && s.bufs[x].dirty && !(pages > 0 && s.bufs[x].key.dev != 0)
  }

  ghost predicate Washing(s: Cache, t: Cache, size: nat, d: nat, pages: nat) {
    WashedOff(s, t, size, d) && forall j :: 0 <= j < d ==> ToWash(s, s.free[size][j], pages)
  }

  /** The buffer that getblk takes in the end, and what else it changes: the buffer of the block, or a new
      one, or the first of the free list. */
  ghost predicate Served(s: Cache, at: map<Key, nat>, t: Cache, x: nat, k: Key, pages: nat, left: nat, from: nat) {
    k.size in s.free &&
    var l := s.free[k.size];
    if k in at then
      && x == at[k] && left == pages && x in s.bufs && t.bufs == s.bufs[x := s.bufs[x].(locked := true)]
      && t.free == s.free[k.size := Without(l, x)]
    else if Grows(s, k.size, true, pages) then
      && left + 1 == pages && x !in s.bufs && Kept(s, t) && x + 1 == from + PerPage(k.size)
      && t.free == s.free[k.size := Down(from, x) + l]
    else
      && l != [] && x == l[0] && left == pages && x in s.bufs && !s.bufs[x].dirty
      && t.bufs == s.bufs[x := s.bufs[x].(key := k, valid := false, locked := true)]
      && t.free == s.free[k.size := l[1..]]
  }

  /** One round of getblk: it has its buffer, or has to wait, or has put a dirty buffer aside. */
  ghost predicate Turn(s: Cache, at: map<Key, nat>, t: Cache, r: Option<nat>, done: bool, k: Key, pages: nat, left: nat, from: nat) {
    if r.Some? then Served(s, at, t, r.value, k, pages, left, from)
    else if done then t == s
    else
      && k !in at && left == pages && !Grows(s, k.size, true, pages) && k.size in s.free && s.free[k.size] != []
      && s.free[k.size][0] in s.bufs && s.bufs[s.free[k.size][0]].dirty && WashedOff(s, t, k.size, 1)
  }

  lemma WashTurn(s: Cache, t: Cache, u: Cache, size: nat, x: nat)
    requires IsFirst(s, size, x) && TakenFrom(s, t, size, x) && u.bufs == t.bufs[x := t.bufs[x].(dirty := false, locked := false)]
    requires u.free == t.free[size := t.free[size] + [x]] && u.hash == t.hash && u.page == t.page && u.used == t.used
    ensures WashedOff(s, u, size, 1) && s.free[size] != [] && s.free[size][0] == x && x in s.bufs && t.bufs[x].dirty == s.bufs[x].dirty
  {
    assert s.free[size][..1] == [x];
  }

  lemma ServedTurn(s: Cache, at: map<Key, nat>, t: Cache, u: Cache, x: nat, k: Key, pages: nat, left: nat, from: nat, next: nat)
    requires k !in at && x in t.bufs && u.bufs == t.bufs[x := t.bufs[x].(key := k, valid := false)] && u.free == t.free
    requires Grows(s, k.size, true, pages) ==> left + 1 == pages && Growing(s, t, from, x, next, k.size) && next == from + PerPage(k.size)
    requires !Grows(s, k.size, true, pages) ==> left == pages && IsFirst(s, k.size, x) && TakenFrom(s, t, k.size, x) && !t.bufs[x].dirty
    ensures Served(s, at, u, x, k, pages, left, from)
  {
    hide Grows, Made, Fresh, Down;
  }

  /** How getblk got where it is: the cache before its last round, and the rounds before that. */
  datatype Way = Way(mid: Cache, d: nat)

  /** The dirty buffers that it came upon have been put aside, as many as there were; then it took
      a buffer. */
  ghost predicate Reached(s: Cache, at: map<Key, nat>, way: Way, t: Cache, x: nat, k: Key, pages: nat, left: nat, from: nat) {
    && Served(way.mid, at, t, x, k, pages, left, from)
    && if k in at then way.mid == s
       else
         && Washing(s, way.mid, k.size, way.d, pages)
         && (way.d < |s.free[k.size]| ==> !ToWash(s, s.free[k.size][way.d], pages))
  }

  /** Bread takes a buffer as getblk does, and reads the block in if it is not there. */
  ghost predicate Brings(s: Cache, at: map<Key, nat>, way: Way, got: Cache, t: Cache, x: nat, k: Key, pages: nat, left: nat,
                         from: nat) {
    && Reached(s, at, way, got, x, k, pages, left, from)
    && x in got.bufs && t == if got.bufs[x].valid then got else Fill(got, x)
  }

  /** Without a page: the dirty buffers at the front of the free list are clean and at its end, in their
      order, and the first clean one is taken; the first of all if there was none. */
  lemma ReusesFirstClean(s: Cache, at: map<Key, nat>, way: Way, t: Cache, x: nat, k: Key, left: nat, from: nat)
    requires Reached(s, at, way, t, x, k, 0, left, from) && k !in at && NoDup(s.free[k.size])
    requires forall y :: y in s.free[k.size] ==> y in s.bufs
    ensures var l, d := s.free[k.size], way.d;
      && d <= |l| && l != [] && (forall j :: 0 <= j < d ==> s.bufs[l[j]].dirty)
      && (d < |l| ==> !s.bufs[l[d]].dirty && x == l[d] && t.free == s.free[k.size := l[d + 1..] + l[..d]])
      && (d == |l| ==> x == l[0] && t.free == s.free[k.size := l[1..]])
      && (forall j :: 0 <= j < d && l[j] != x ==> l[j] in t.bufs && t.bufs[l[j]] == s.bufs[l[j]].(dirty := false))
  {
    hide Down, Kept;
    var l, d, mid := s.free[k.size], way.d, way.mid;
    assert forall j :: 0 <= j < |l| ==> l[j] in l;
    assert forall j :: 0 <= j < d ==> l[j] in l[..d];
    assert d == |l| ==> Turned(l, d) == l;
    if d < |l| {
      HeadAfter(s, mid, k.size, d, 0);
      assert Turned(l, d)[1..] == l[d + 1..] + l[..d];
    }
  }

  lemma NoneWashed(c: Setup, s: Cache, w: Books, size: nat, pages: nat)
    requires Sound(c, s, w) && size in SIZES
    ensures Washing(s, s, size, 0, pages)
  {
    hide Sound;
    FirstOff(c, s, w, size);
    var l := s.free[size];
    assert Turned(l, 0) == l && s.free[size := l] == s.free;
  }

  lemma FirstResult(c: Setup, s: Cache, k: Key, pages: nat)
    ensures Result(c, s, s, None, k, pages, pages)
  {
  }

  /** What is at the head after `d` rounds. */
  lemma HeadAfter(s: Cache, t: Cache, size: nat, d: nat, pages: nat)
    requires Washing(s, t, size, d, pages) && NoDup(s.free[size]) && d < |s.free[size]| && forall x :: x in s.free[size] ==> x in s.bufs
    ensures var x := s.free[size][d]; size in t.free && IsFirst(t, size, x) && x in s.bufs && x in t.bufs && t.bufs[x] == s.bufs[x]
  {
    NotBefore(s.free[size], d);
    assert s.free[size][d] in s.free[size];
  }

  lemma {:induction false} NotBefore(l: seq<nat>, d: nat)
    requires NoDup(l) && d < |l|
    ensures l[d] !in l[..d] && l[d] !in l[d + 1..]
  {
    if d > 0 {
      NotBefore(l[1..], d - 1);
      assert l[..d] == [l[0]] + l[1..][..d - 1];
      assert l[d] == l[1..][d - 1] && l[d + 1..] == l[1..][d..];
      assert l[d] in l[1..];
    }
  }

  lemma Onwards(c: Setup, s: Cache, w: Books, at: map<Key, nat>, t: Cache, d: nat, u: Cache, k: Key, pages: nat)
    requires Sound(c, s, w) && k.size in SIZES && Washing(s, t, k.size, d, pages)
    requires Turn(t, at, u, None, false, k, pages, pages, w.next) && (if d == 0 then t == s else !Misses(s, at, k, pages))
    ensures k !in at && Washing(s, u, k.size, d + 1, pages) && !Misses(s, at, k, pages)
  {
    hide Sound;
    FirstOff(c, s, w, k.size);
    WashNext(s, t, u, k.size, d, pages);
  }

  lemma WashNext(s: Cache, t: Cache, u: Cache, size: nat, d: nat, pages: nat)
    requires Washing(s, t, size, d, pages) && NoDup(s.free[size]) && forall x :: x in s.free[size] ==> x in s.bufs
    requires size in t.free && t.free[size] != [] && t.free[size][0] in t.bufs && t.bufs[t.free[size][0]].dirty
    requires !Grows(t, size, true, pages) && WashedOff(t, u, size, 1)
    ensures Washing(s, u, size, d + 1, pages)
  {
    var l := s.free[size];
    AllWashed(s, t, size, d, pages);
    HeadAfter(s, t, size, d, pages);
    var x := l[d];
    TurnedNext(l, d);
    assert t.free[size][..1] == [x];
    assert l[..d + 1] == l[..d] + [x];
    assert u.free == s.free[size := Turned(l, d + 1)];
  }

  lemma AllWashed(s: Cache, t: Cache, size: nat, d: nat, pages: nat)
    requires Washing(s, t, size, d, pages) && forall x :: x in s.free[size] ==> x in s.bufs
    ensures size in t.free && d <= |s.free[size]|
    ensures d == |s.free[size]| ==> t.free[size] == [] || (t.free[size][0] in t.bufs && !t.bufs[t.free[size][0]].dirty)
    ensures t.free[size] == [] ==> d == 0
  {
    var l := s.free[size];
    assert |t.free[size]| == |l|;
    if d == |l| {
      assert Turned(l, d) == l && l[..d] == l;
      assert l != [] ==> l[0] in l;
    }
  }

  lemma TurnedNext(l: seq<nat>, d: nat)
    requires d < |l|
    ensures Turned(Turned(l, d), 1) == Turned(l, d + 1)
  {
    var t := Turned(l, d);
    assert t == [l[d]] + (l[d + 1..] + l[..d]);
    assert l[..d + 1] == l[..d] + [l[d]];
  }

  lemma Arrived(c: Setup, s: Cache, w: Books, at: map<Key, nat>, t: Cache, d: nat, u: Cache, r: Option<nat>, k: Key,
                pages: nat, left: nat, from: nat)
    requires Sound(c, s, w) && k.size in SIZES && Washing(s, t, k.size, d, pages) && Turn(t, at, u, r, true, k, pages, left, from)
    requires if d == 0 then t == s else k !in at && !Misses(s, at, k, pages)
    requires Missed(t, at, u, r, k, pages, left) && (r == None ==> Busy(u, at, k, left))
    ensures Missed(s, at, u, r, k, pages, left)
    ensures r == None ==> u == s
    ensures r.Some? ==> Reached(s, at, Way(t, d), u, r.value, k, pages, left, from)
  {
    hide Sound, Brought, Down, Kept;
    FirstOff(c, s, w, k.size);
    var l := s.free[k.size];
    if r.Some? && k !in at && d < |l| { HeadAfter(s, t, k.size, d, pages); }
    AllWashed(s, t, k.size, d, pages);
  }

  /** Nothing stands for the block, and getblk cuts a page for it. */
  ghost predicate Misses(s: Cache, at: map<Key, nat>, k: Key, pages: nat) {
    k !in at && Grows(s, k.size, true, pages)
  }

  /** The free lists of the other sizes are as they were. */
  ghost predicate SameLists(s: Cache, t: Cache, size: nat) {
    forall z :: z in s.free && z != size ==> z in t.free && t.free[z] == s.free[z]
  }

  /** The buffers there were are as they were. */
  ghost predicate Kept(s: Cache, t: Cache) {
    forall y :: y in s.bufs ==> y in t.bufs && t.bufs[y] == s.bufs[y]
  }

  ghost predicate Brought(s: Cache, t: Cache, x: nat, size: nat) {
    t.disk == s.disk && x in t.bufs && x !in s.bufs && !t.bufs[x].valid && SameLists(s, t, size) && Kept(s, t)
  }

  /** A buffer of the same page is held by somebody. */
  ghost predicate SiblingHeld(s: Cache, x: nat) {
    exists y :: y in s.bufs && y != x && s.bufs[y].locked && x in s.page && y in s.page && s.page[y] == s.page[x]
  }

  /** The first of a free list has gone to its end, written if it was dirty; all else is as it was. */
  ghost predicate PutLast(s: Cache, t: Cache, size: nat) {
    && size in s.free && s.free[size] != [] && t.free == s.free[size := Turned(s.free[size], 1)]
    && var x := s.free[size][0]; x in s.bufs && t.bufs == s.bufs[x := s.bufs[x].(dirty := false)]
  }

  /** The buffers that are cut from one page. */
  ghost function PageBufs(s: Cache, pg: nat): set<nat> {
    set y | y in s.page && s.page[y] == pg
  }

  lemma HeadAlone(c: Setup, s: Cache, w: Books, size: nat)
    requires Sound(c, s, w) && size in SIZES
    ensures size in s.free && NoDup(s.free[size])
    ensures s.free[size] != [] ==> var x := s.free[size][0];
      x in s.bufs && s.bufs[x].key.size == size && forall z :: z in s.free && z != size ==> x !in s.free[z]
  {
    hide Sound;
    FirstOff(c, s, w, size);
    HeadOk(c, s, w, size);
    if s.free[size] != [] {
      assert s.free[size][0] in s.free[size];
      Locate(c, s, w, s.free[size][0]);
    }
  }

  lemma ReclaimStart(s: Cache, t: Cache, u: Cache, size: nat, x: nat)
    requires IsFirst(s, size, x) && TakenFrom(s, t, size, x)
    requires u.free == t.free && u.page == t.page && (u == t || u.bufs == t.bufs[x := t.bufs[x].(dirty := false)])
    requires u == t ==> !t.bufs[x].dirty
    ensures x in s.bufs && !s.bufs[x].locked && x in u.bufs && u.bufs == s.bufs[x := s.bufs[x].(locked := true, dirty := false)]
    ensures u.page == s.page && size in s.free && s.free[size] != [] && x == s.free[size][0] && u.free == s.free[size := s.free[size][1..]]
    ensures u.bufs[x].key == s.bufs[x].key
  {
  }

  lemma ReclaimEnd(s: Cache, u: Cache, v: Cache, size: nat, x: nat, r: Option<nat>)
    requires x in s.bufs && !s.bufs[x].locked && x in u.bufs && u.bufs == s.bufs[x := s.bufs[x].(locked := true, dirty := false)]
    requires u.page == s.page && size in s.free && s.free[size] != [] && x == s.free[size][0] && u.free == s.free[size := s.free[size][1..]]
    requires s.bufs[x].key.size == size && NoDup(s.free[size]) && (forall z :: z in s.free && z != size ==> x !in s.free[z])
    requires r == None ==> Placed(u, v, x, true) && v.bufs == u.bufs[x := u.bufs[x].(locked := false)]
    requires r.Some? ==> Struck(u.free, v.free, PageBufs(u, r.value)) && x in PageBufs(u, r.value)
    ensures r == None ==> PutLast(s, v, size)
    ensures r.Some? ==> Struck(s.free, v.free, PageBufs(s, r.value))
  {
    var l := s.free[size];
    if r == None {
      assert Turned(l, 1) == l[1..] + [x];
    } else {
      WithoutFirst(l);
      StruckOne(s.free, size, x);
      StruckTwice(s.free, u.free, v.free, {x}, PageBufs(u, r.value));
      assert {x} + PageBufs(u, r.value) == PageBufs(s, r.value);
    }
  }

  lemma WasHeld(c: Setup, s: Cache, t: Cache, x: nat, y: nat)
    requires Held(c, s, t, x) && t.page == s.page && y in t.bufs && t.bufs[y].locked && y != x
    requires x in t.page && y in t.page && t.page[y] == t.page[x]
    ensures SiblingHeld(s, x)
  {
  }

  // ---------------------------------------------------------------- writing back

  /** Whether sync_buffers(dev) writes this buffer: device 0 stands for all. */
  predicate For(b: Buf, dev: nat) {
    dev == 0 || b.key.dev == dev
  }

  function Requeue(s: Cache, x: nat): Cache
    requires x in s.bufs && s.bufs[x].key.size in s.dirty
  {
    var z := s.bufs[x].key.size;
    s.(dirty := s.dirty[z := Without(s.dirty[z], x) + [x]])
  }

  function FirstOf(l: seq<nat>): Option<nat> {
    if l == [] then None else Some(l[0])
  }

  /** What sync_buffers(dev) leaves on a dirty list, in order. */
  function Spared(bufs: map<nat, Buf>, l: seq<nat>, dev: nat): (r: seq<nat>)
    ensures forall x :: x in r <==> x in l && x in bufs && !For(bufs[x], dev)
    ensures NoDup(l) ==> NoDup(r)
  {
    if l == [] then []
    else if l[0] in bufs && !For(bufs[l[0]], dev) then
      var t := Spared(bufs, l[1..], dev);
      assert ([l[0]] + t)[1..] == t;
      [l[0]] + t
    else Spared(bufs, l[1..], dev)
  }

  lemma {:induction false} SparedAppend(bufs: map<nat, Buf>, l: seq<nat>, x: nat, dev: nat)
    ensures Spared(bufs, l + [x], dev) == Spared(bufs, l, dev) + (if x in bufs && !For(bufs[x], dev) then [x] else [])
  {
    if l == [] {
      assert [x][1..] == [];
    } else {
      assert (l + [x])[1..] == l[1..] + [x];
      SparedAppend(bufs, l[1..], x, dev);
    }
  }

  function Rotated(l: seq<nat>): seq<nat> {
    if l == [] then [] else l[1..] + [l[0]]
  }

  ghost predicate NoDirtyHeld(s: Cache) {
    forall x :: x in s.bufs && s.bufs[x].dirty ==> !s.bufs[x].locked
  }

  function Written(b: Buf, which: bool): Buf {
    if which then b.(dirty := false) else b
  }

  /** Only dirty lists, dirty flags and blocks of `dev` have changed. */
  ghost predicate WriteBack(s: Cache, t: Cache, dev: nat) {
    && t.free == s.free && t.hash == s.hash && t.page == s.page && t.bufs.Keys == s.bufs.Keys && t.used == s.used
    && forall k: Key :: dev != 0 && k.dev != dev ==> Get(t.disk, k) == Get(s.disk, k)
  }

  /** `done` of the dirty list has been seen, `rest` has not. */
  ghost predicate Midway(s: Cache, t: Cache, size: nat, dev: nat, done: seq<nat>, rest: seq<nat>) {
    && WriteBack(s, t, dev) && size in s.dirty && s.dirty[size] == done + rest
    && t.dirty == s.dirty[size := rest + Spared(s.bufs, done, dev)]
    && forall x :: x in s.bufs ==> t.bufs[x] == Written(s.bufs[x], x in done && For(s.bufs[x], dev))
  }

  /** One size is done: the buffers of `dev` are clean, the others are where they were, one place on. */
  ghost predicate Synced(s: Cache, t: Cache, size: nat, dev: nat) {
    && WriteBack(s, t, dev) && size in s.dirty
    && t.dirty == s.dirty[size := Rotated(Spared(s.bufs, s.dirty[size], dev))]
    && forall x :: x in s.bufs ==> t.bufs[x] == Written(s.bufs[x], s.bufs[x].key.size == size && For(s.bufs[x], dev))
  }

  lemma MidwayStart(c: Setup, s: Cache, w: Books, size: nat, dev: nat)
    requires Sound(c, s, w) && size in SIZES
    ensures size in s.dirty && Midway(s, s, size, dev, [], s.dirty[size])
    ensures s.dirty[size] == s.dirty[size] + Spared(s.bufs, [], dev)
  {
    var l := s.dirty[size];
    assert l + Spared(s.bufs, [], dev) == l == [] + l;
    assert s.dirty[size := l] == s.dirty;
  }

  lemma RequeueSound(c: Setup, s: Cache, w: Books, x: nat)
    requires Sound(c, s, w) && x in s.bufs
    requires s.bufs[x].key.size in s.dirty && x in s.dirty[s.bufs[x].key.size]
    ensures Sound(c, Requeue(s, x), w)
  {
    assert BufOk(c, s, x);
    hide Counted, OthersSame, SizedOk, AtOk, HashOk, BufsOk, BufOk;
    var t := Requeue(s, x);
    assert s.bufs[x := s.bufs[x]] == s.bufs;
    RequeueSized(s, x);
    RequeueCounted(s, w.nr, w.kb, x);
    RequeueBufs(c, s, x);
    OneChanged(c, s, t, w.at, x, s.bufs[x]);
  }

  lemma RequeueSized(s: Cache, x: nat)
    requires x in s.bufs && s.bufs[x].key.size in s.dirty && SizedOk(s.bufs, s.dirty) && x in s.dirty[s.bufs[x].key.size]
    ensures SizedOk(s.bufs, Requeue(s, x).dirty)
    ensures |Without(s.dirty[s.bufs[x].key.size], x)| == |s.dirty[s.bufs[x].key.size]| - 1
  {
    var z := s.bufs[x].key.size;
    NoDupAppend(Without(s.dirty[z], x), x);
    WithoutLength(s.dirty[z], x);
  }

  lemma RequeueCounted(s: Cache, nr: int, kb: int, x: nat)
    requires Counted(s.dirty, nr, kb) && x in s.bufs && s.bufs[x].key.size in s.dirty
    requires |Without(s.dirty[s.bufs[x].key.size], x)| == |s.dirty[s.bufs[x].key.size]| - 1
    ensures Counted(Requeue(s, x).dirty, nr, kb)
  {
    var z := s.bufs[x].key.size;
    CountedUpdate(s.dirty, nr, kb, z, Without(s.dirty[z], x) + [x]);
  }

  lemma RequeueBufs(c: Setup, s: Cache, x: nat)
    requires Tables(c, s) && x in s.bufs && BufOk(c, s, x) && x in s.dirty[s.bufs[x].key.size]
    ensures Tables(c, Requeue(s, x)) && OthersSame(c, s, Requeue(s, x), x) && BufOk(c, Requeue(s, x), x)
  {
  }

  /** What sync_buffers relies on between two buffers. */
  ghost predicate Calm(c: Setup, s: Cache, w: Books, plain: Device) {
    Sound(c, s, w) && HeldHashed(c, s) && Stands(s, plain) && NoDirtyHeld(s)
  }

  lemma FlushCalm(c: Setup, s: Cache, w: Books, x: nat, plain: Device)
    requires Calm(c, s, w, plain) && x in s.bufs && s.bufs[x].valid
    requires s.bufs[x].key.size in s.dirty && x in s.dirty[s.bufs[x].key.size]
    ensures Calm(c, Flush(s, x), Fewer(w, s.bufs[x].key.size), plain)
  {
    hide Sound, Stands;
    FlushSound(c, s, w, x);
    ValidKey(c, s, w, x);
    FlushStands(s, x, plain);
    StillHashed(c, s, Flush(s, x), x);
  }

  lemma RequeueCalm(c: Setup, s: Cache, w: Books, x: nat, plain: Device)
    requires Calm(c, s, w, plain) && x in s.bufs
    requires s.bufs[x].key.size in s.dirty && x in s.dirty[s.bufs[x].key.size]
    ensures Calm(c, Requeue(s, x), w, plain)
  {
    hide Sound, Stands;
    RequeueSound(c, s, w, x);
    StillHashed(c, s, Requeue(s, x), x);
    LockStands(s, Requeue(s, x), x, s.bufs[x], plain);
  }

  /** On the dirty list of its size is every dirty buffer that nobody holds, and nothing else. */
  lemma Listed(c: Setup, s: Cache, w: Books, size: nat)
    requires Sound(c, s, w) && size in SIZES
    ensures size in s.dirty && NoDup(s.dirty[size])
    ensures forall x :: x in s.dirty[size] ==> x in s.bufs && s.bufs[x].key.size == size && s.bufs[x].valid && s.bufs[x].dirty
    ensures forall x :: x in s.bufs && s.bufs[x].key.size == size && s.bufs[x].dirty && !s.bufs[x].locked ==> x in s.dirty[size]
  {
    forall x | x in s.dirty[size] ensures x in s.bufs && s.bufs[x].valid && s.bufs[x].dirty {
      assert x in s.bufs && BufOk(c, s, x);
    }
    forall x | x in s.bufs && s.bufs[x].key.size == size && s.bufs[x].dirty && !s.bufs[x].locked ensures x in s.dirty[size] {
      assert BufOk(c, s, x);
    }
  }

  lemma {:induction false} HeadUnique(rest: seq<nat>, kept: seq<nat>)
    requires NoDup(rest + kept) && rest + kept != []
    ensures Without(rest + kept, (rest + kept)[0]) == (rest + kept)[1..]
    ensures rest != [] ==> (rest + kept)[0] == rest[0] && rest[0] !in rest[1..] && rest[0] !in kept && (rest + kept)[1..] == rest[1..] + kept
  {
    var l := rest + kept;
    assert l[0] !in l[1..];
    if rest != [] {
      assert l[1..] == rest[1..] + kept;
    }
  }

  lemma NextList(bufs: map<nat, Buf>, done: seq<nat>, rest: seq<nat>, dev: nat)
    requires rest != [] && rest[0] in bufs && NoDup(rest + Spared(bufs, done, dev))
    ensures var next := rest[1..] + Spared(bufs, done + [rest[0]], dev);
            Without(rest + Spared(bufs, done, dev), rest[0]) + (if For(bufs[rest[0]], dev) then [] else [rest[0]]) == next
    ensures (done + [rest[0]]) + rest[1..] == done + rest
  {
    hide NoDup, Spared, Without;
    var x, kept := rest[0], Spared(bufs, done, dev);
    var more := if For(bufs[x], dev) then [] else [x];
    HeadUnique(rest, kept);
    SparedAppend(bufs, done, x, dev);
    assert (rest[1..] + kept) + more == rest[1..] + (kept + more);
  }

  lemma WrittenBack(s: Cache, t: Cache, dev: nat, x: nat)
    requires WriteBack(s, t, dev) && x in t.bufs && t.bufs[x].key.size in t.dirty && For(t.bufs[x], dev)
    ensures WriteBack(s, Flush(t, x), dev)
  {
    hide Get, Put;
    forall k: Key | dev != 0 && k.dev != dev ensures Get(Flush(t, x).disk, k) == Get(s.disk, k) {
      GetElsewhere(t.disk, t.bufs[x].key, t.bufs[x].data, k);
    }
  }

  lemma MidwayFlush(s: Cache, t: Cache, size: nat, dev: nat, done: seq<nat>, rest: seq<nat>, x: nat)
    requires Midway(s, t, size, dev, done, rest) && rest != [] && x == rest[0] && size in t.dirty && NoDup(t.dirty[size])
    requires x in t.bufs && t.bufs[x].key.size == size && For(t.bufs[x], dev)
    ensures Midway(s, Flush(t, x), size, dev, done + [x], rest[1..])
  {
    hide NoDup, Spared, Without, Get, Put;
    NextList(s.bufs, done, rest, dev);
    assert Without(t.dirty[size], x) + [] == Without(t.dirty[size], x);
    WrittenBack(s, t, dev, x);
    hide WriteBack;
  }

  lemma MidwayRequeue(s: Cache, t: Cache, size: nat, dev: nat, done: seq<nat>, rest: seq<nat>, x: nat)
    requires Midway(s, t, size, dev, done, rest) && rest != [] && x == rest[0] && size in t.dirty && NoDup(t.dirty[size])
    requires x in t.bufs && t.bufs[x].key.size == size && !For(t.bufs[x], dev)
    ensures Midway(s, Requeue(t, x), size, dev, done + [x], rest[1..])
  {
    hide NoDup, Spared, Without;
    NextList(s.bufs, done, rest, dev);
  }

  lemma AllSeen(c: Setup, s: Cache, w: Books, t: Cache, size: nat, dev: nat, done: seq<nat>)
    requires Sound(c, s, w) && NoDirtyHeld(s) && size in SIZES && Midway(s, t, size, dev, done, [])
    ensures forall x :: x in s.bufs ==> t.bufs[x] == Written(s.bufs[x], s.bufs[x].key.size == size && For(s.bufs[x], dev))
    ensures t.dirty == s.dirty[size := Spared(s.bufs, s.dirty[size], dev)]
  {
    Listed(c, s, w, size);
    assert done == s.dirty[size] && [] + Spared(s.bufs, done, dev) == Spared(s.bufs, done, dev);
    forall x | x in s.bufs ensures t.bufs[x] == Written(s.bufs[x], s.bufs[x].key.size == size && For(s.bufs[x], dev)) {
      assert t.bufs[x] == Written(s.bufs[x], x in done && For(s.bufs[x], dev));
    }
  }

  /** The three things that can happen to the head of the dirty list. */
  lemma MidwayHead(c: Setup, t: Cache, w: Books, s: Cache, w0: Books, size: nat, dev: nat, done: seq<nat>, rest: seq<nat>, plain: Device)
    requires Calm(c, s, w0, plain) && Calm(c, t, w, plain) && size in SIZES
    requires Midway(s, t, size, dev, done, rest) && size in t.dirty && t.dirty[size] != []
    ensures var x := t.dirty[size][0]; x in t.bufs && t.bufs[x].key.size == size && (rest != [] ==> x == rest[0])
    ensures rest == [] <==> FirstOf(Spared(s.bufs, done, dev)) == Some(t.dirty[size][0])
    ensures var x := t.dirty[size][0]; rest == [] ==>
      Calm(c, Requeue(t, x), w, plain) && Synced(s, Requeue(t, x), size, dev)
    ensures var x := t.dirty[size][0]; rest != [] && For(t.bufs[x], dev) ==>
      && Calm(c, Flush(t, x), Fewer(w, size), plain)
      && Midway(s, Flush(t, x), size, dev, done + [x], rest[1..])
    ensures var x := t.dirty[size][0]; rest != [] && !For(t.bufs[x], dev) ==>
      && Calm(c, Requeue(t, x), w, plain)
      && Midway(s, Requeue(t, x), size, dev, done + [x], rest[1..])
    ensures FirstOf(Spared(s.bufs, done + [t.dirty[size][0]], dev)) ==
      if FirstOf(Spared(s.bufs, done, dev)) != None || For(t.bufs[t.dirty[size][0]], dev) then FirstOf(Spared(s.bufs, done, dev)) else Some(t.dirty[size][0])
  {
    hide Sound, Stands, HeldHashed, NoDirtyHeld, Synced;
    var x, kept := t.dirty[size][0], Spared(s.bufs, done, dev);
    Listed(c, t, w, size);
    assert t.dirty[size] == rest + kept;
    HeadUnique(rest, kept);
    SparedAppend(s.bufs, done, x, dev);
    assert x in t.dirty[size];
    RequeueCalm(c, t, w, x, plain);
    FlushCalm(c, t, w, x, plain);
    if rest == [] {
      assert rest + kept == kept;
      AllSeen(c, s, w0, t, size, dev, done);
      LastSeen(s, t, size, dev, x);
    } else if For(t.bufs[x], dev) {
      MidwayFlush(s, t, size, dev, done, rest, x);
    } else {
      MidwayRequeue(s, t, size, dev, done, rest, x);
    }
  }

  lemma LastSeen(s: Cache, t: Cache, size: nat, dev: nat, x: nat)
    requires WriteBack(s, t, dev) && size in s.dirty && t.dirty == s.dirty[size := Spared(s.bufs, s.dirty[size], dev)]
    requires forall y :: y in s.bufs ==> t.bufs[y] == Written(s.bufs[y], s.bufs[y].key.size == size && For(s.bufs[y], dev))
    requires t.dirty[size] != [] && x == t.dirty[size][0] && x in t.bufs && t.bufs[x].key.size == size
    requires Without(t.dirty[size], x) == t.dirty[size][1..]
    ensures Synced(s, Requeue(t, x), size, dev)
  {
  }

  lemma MidwayEmpty(c: Setup, t: Cache, w: Books, s: Cache, w0: Books, size: nat, dev: nat, done: seq<nat>, rest: seq<nat>)
    requires Sound(c, s, w0) && NoDirtyHeld(s) && Sound(c, t, w) && size in SIZES
    requires Midway(s, t, size, dev, done, rest) && !(size in t.dirty && t.dirty[size] != [])
    ensures Synced(s, t, size, dev)
  {
    hide Sound;
    Listed(c, t, w, size);
    assert t.dirty[size] == rest + Spared(s.bufs, done, dev);
    AllSeen(c, s, w0, t, size, dev, done);
  }

  ghost predicate SyncedBelow(s: Cache, t: Cache, dev: nat, limit: nat) {
    WriteBack(s, t, dev) && ListsBelow(s, t, dev, limit) && BufsBelow(s, t, dev, limit)
  }

  ghost predicate ListsBelow(s: Cache, t: Cache, dev: nat, limit: nat) {
    && t.dirty.Keys == s.dirty.Keys
    && forall z :: z in s.dirty ==> t.dirty[z] == if z < limit then Rotated(Spared(s.bufs, s.dirty[z], dev)) else s.dirty[z]
  }

  ghost predicate BufsBelow(s: Cache, t: Cache, dev: nat, limit: nat) {
    && t.bufs.Keys == s.bufs.Keys
    && forall x :: x in s.bufs ==> t.bufs[x] == Written(s.bufs[x], s.bufs[x].key.size < limit && For(s.bufs[x], dev))
  }

  /** Every buffer of the device is clean; all others are as they were, and the dirty ones still
      listed, the first of them now last. */
  ghost predicate AllSynced(s: Cache, t: Cache, dev: nat) {
    && WriteBack(s, t, dev) && t.dirty.Keys == s.dirty.Keys
    && (forall z :: z in s.dirty ==> t.dirty[z] == Rotated(Spared(s.bufs, s.dirty[z], dev)))
    && forall x :: x in s.bufs ==> t.bufs[x] == Written(s.bufs[x], For(s.bufs[x], dev))
  }

  /** The device itself holds what the cache in front of it promises. */
  ghost predicate OnDevice(s: Cache, dev: nat, plain: Device) {
    Separate(s.used) ==> forall k :: k in s.used && (dev == 0 || k.dev == dev) ==> Get(s.disk, k) == Get(plain, k)
  }

  ghost predicate Sizes(s: Cache) {
    s.dirty.Keys == SIZES && forall x :: x in s.bufs ==> s.bufs[x].key.size in SIZES
  }

  lemma AllSized(c: Setup, s: Cache, w: Books)
    requires Sound(c, s, w)
    ensures Sizes(s)
  {
    forall x | x in s.bufs ensures s.bufs[x].key.size in SIZES { assert BufOk(c, s, x); }
  }

  lemma SyncedNone(s: Cache, dev: nat)
    requires Sizes(s)
    ensures SyncedBelow(s, s, dev, 1024)
  {
    hide Spared, Rotated;
    forall x | x in s.bufs ensures s.bufs[x].key.size >= 1024 { assert s.bufs[x].key.size in SIZES; }
  }

  /** Which buffers a list spares depends on their devices only. */
  lemma {:induction false} SparedSame(a: map<nat, Buf>, b: map<nat, Buf>, l: seq<nat>, dev: nat)
    requires a.Keys == b.Keys && forall x :: x in a ==> b[x].key == a[x].key
    ensures Spared(a, l, dev) == Spared(b, l, dev)
  {
    if l != [] { SparedSame(a, b, l[1..], dev); }
  }

  lemma SyncedNext(s: Cache, t: Cache, u: Cache, dev: nat, size: nat)
    requires SyncedBelow(s, t, dev, size) && Synced(t, u, size, dev) && size in SIZES && Sizes(s)
    ensures SyncedBelow(s, u, dev, 2 * size)
  {
    hide ListsBelow, BufsBelow, Synced;
    SyncedLists(s, t, u, dev, size);
    SyncedBufs(s, t, u, dev, size);
    SyncedRest(s, t, u, dev, size);
  }

  lemma SyncedRest(s: Cache, t: Cache, u: Cache, dev: nat, size: nat)
    requires WriteBack(s, t, dev) && Synced(t, u, size, dev)
    ensures WriteBack(s, u, dev)
  {
  }

  lemma SyncedLists(s: Cache, t: Cache, u: Cache, dev: nat, size: nat)
    requires Sizes(s) && size in SIZES && ListsBelow(s, t, dev, size) && BufsBelow(s, t, dev, size) && Synced(t, u, size, dev)
    ensures ListsBelow(s, u, dev, 2 * size)
  {
    SparedSame(s.bufs, t.bufs, s.dirty[size], dev);
    hide Spared, Rotated;
    forall z | z in s.dirty ensures u.dirty[z] == if z < 2 * size then Rotated(Spared(s.bufs, s.dirty[z], dev)) else s.dirty[z] {
      Doubling(z, size);
    }
  }

  lemma Doubling(z: nat, size: nat)
    requires z in SIZES && size in SIZES
    ensures z < 2 * size <==> z < size || z == size
  {
  }

  lemma SyncedBufs(s: Cache, t: Cache, u: Cache, dev: nat, size: nat)
    requires Sizes(s) && size in SIZES && BufsBelow(s, t, dev, size) && Synced(t, u, size, dev)
    ensures BufsBelow(s, u, dev, 2 * size)
  {
    hide Spared, Rotated;
    forall x | x in s.bufs ensures u.bufs[x] == Written(s.bufs[x], s.bufs[x].key.size < 2 * size && For(s.bufs[x], dev)) {
      Doubling(s.bufs[x].key.size, size);
    }
  }

  lemma SyncedEnd(s: Cache, t: Cache, dev: nat, plain: Device)
    requires Sizes(s) && SyncedBelow(s, t, dev, 8192) && Stands(t, plain)
    ensures AllSynced(s, t, dev) && OnDevice(t, dev, plain)
  {
    hide Spared, Rotated, Get, Separate;
    forall x | x in s.bufs ensures t.bufs[x] == Written(s.bufs[x], For(s.bufs[x], dev)) { assert s.bufs[x].key.size in SIZES; }
    forall k: Key | dev == 0 || k.dev == dev ensures k !in DirtyKeys(t) {}
  }

  // ---------------------------------------------------------------- giving pages back

  /** The buffers `gone` are out of the pool; no other has changed. */
  ghost predicate Dropped(s: Cache, t: Cache, gone: set<nat>) {
    && t.page == s.page - gone && t.bufs.Keys == s.bufs.Keys - gone
    && (forall y :: y in t.bufs ==> t.bufs[y] == s.bufs[y]) && Struck(s.free, t.free, gone)
  }

  /** Every list is without them, the others in their order. */
  ghost predicate Struck(l: map<nat, seq<nat>>, k: map<nat, seq<nat>>, gone: set<nat>) {
    k.Keys == l.Keys && forall z :: z in l ==> k[z] == Except(l[z], gone)
  }

  lemma StruckNone(l: map<nat, seq<nat>>, gone: set<nat>)
    requires forall z :: z in l ==> forall y :: y in gone ==> y !in l[z]
    ensures Struck(l, l, gone)
  {
    forall z | z in l ensures l[z] == Except(l[z], gone) { ExceptNone(l[z], gone); }
  }

  lemma StruckOne(l: map<nat, seq<nat>>, z: nat, y: nat)
    requires z in l && OnlyOn(l, z, y)
    ensures Struck(l, l[z := Without(l[z], y)], {y})
  {
    var k := l[z := Without(l[z], y)];
    forall v | v in l ensures k[v] == Except(l[v], {y}) {
      if v == z { ExceptOne(l[z], y); } else { ExceptNone(l[v], {y}); }
    }
  }

  lemma StruckTwice(l: map<nat, seq<nat>>, k: map<nat, seq<nat>>, m: map<nat, seq<nat>>, gone: set<nat>, more: set<nat>)
    requires Struck(l, k, gone) && Struck(k, m, more)
    ensures Struck(l, m, gone + more)
  {
    forall z | z in l ensures m[z] == Except(l[z], gone + more) { ExceptTwice(l[z], gone, more); }
  }

  lemma SameStill(s: Cache, t: Cache, gone: set<nat>, x: nat)
    requires Dropped(s, t, gone) && x in t.bufs
    ensures x in s.bufs && t.bufs[x] == s.bufs[x]
  {
  }

  lemma DroppedOne(c: Setup, s: Cache, w: Books, x: nat)
    requires Sound(c, s, w) && x in s.bufs && s.bufs[x].locked && Bucket(c, s.bufs[x].key) in s.hash
    ensures Dropped(s, Discard(c, s, x), {x})
  {
    hide Sound, Except;
    Locate(c, s, w, x);
    StruckNone(s.free, {x});
  }

  lemma DroppedToo(s: Cache, t: Cache, u: Cache, gone: set<nat>, more: set<nat>)
    requires Dropped(s, t, gone) && Dropped(t, u, more)
    ensures Dropped(s, u, gone + more)
  {
    StruckTwice(s.free, t.free, u.free, gone, more);
    hide Struck;
  }

  lemma DroppedNone(s: Cache)
    ensures Dropped(s, s, {})
  {
    StruckNone(s.free, {});
    hide Struck;
  }

  lemma PageDone(s: Cache, t: Cache, u: Cache, x: nat, siblings: set<nat>, pg: nat)
    requires Pool(t) == Pool(s) && t.page.Keys == t.bufs.Keys && x in t.page && t.page[x] == pg
    requires siblings == (set y | y in t.page && t.page[y] == pg && y != x) && Dropped(t, u, siblings + {x})
    ensures PageGone(Pool(s), Pool(u), pg)
  {
    assert x in Pool(s) && Pool(s)[x].1 == pg;
    assert forall y :: y in siblings + {x} <==> y in t.page && t.page[y] == pg;
  }

  function Cleaned(s: Cache, x: nat): Cache
    requires x in s.bufs && s.bufs[x].key.size in s.dirty
  {
    if s.bufs[x].dirty then Flush(s, x) else s
  }

  lemma HeldIn(c: Setup, s: Cache, t: Cache, w: Books, x: nat)
    requires Sound(c, t, w) && Held(c, s, t, x)
    ensures x in t.bufs && t.page.Keys == t.bufs.Keys
  {
  }

  /** Locked and, if dirty, written: ready to be dropped. */
  lemma CleanOk(c: Setup, t: Cache, w: Books, y: nat, plain: Device)
    requires Sound(c, t, w) && Stands(t, plain) && y in t.bufs && !t.bufs[y].locked
    ensures Located(c, t, y) && t.page.Keys == t.bufs.Keys
    ensures t.bufs[y].dirty ==> y in t.dirty[t.bufs[y].key.size]
    ensures var u, d := Cleaned(Take(t, y), y), t.bufs[y].dirty;
      Sound(c, u, if d then Fewer(w, t.bufs[y].key.size) else w) && Stands(u, plain) && Located(c, u, y)
  {
    hide Sound, Stands, OnlyOn;
    TakeFree(c, t, w, y, plain);
    Locate(c, t, w, y);
    if t.bufs[y].dirty {
      FlushSound(c, Take(t, y), w, y);
      ValidKey(c, t, w, y);
      FlushStands(Take(t, y), y, plain);
      Locate(c, Cleaned(Take(t, y), y), Fewer(w, t.bufs[y].key.size), y);
    } else {
      Locate(c, Take(t, y), w, y);
    }
  }

  lemma TakeFree(c: Setup, t: Cache, w: Books, y: nat, plain: Device)
    requires Sound(c, t, w) && Stands(t, plain) && y in t.bufs && !t.bufs[y].locked
    ensures t.bufs[y].key.size in t.free && t.bufs[y].key.size in t.dirty && t.page.Keys == t.bufs.Keys
    ensures t.bufs[y].dirty ==> t.bufs[y].valid && y in t.dirty[t.bufs[y].key.size]
    ensures Sound(c, Take(t, y), w) && Stands(Take(t, y), plain)
  {
    hide Stands;
    assert BufOk(c, t, y);
    TakeSound(c, t, w, y);
    LockStands(t, Take(t, y), y, t.bufs[y].(locked := true), plain);
  }

  lemma DropOk(c: Setup, s: Cache, t: Cache, w: Books, x: nat, y: nat, plain: Device)
    requires Sound(c, t, w) && Stands(t, plain) && Held(c, s, t, x) && y in t.bufs && y != x && !t.bufs[y].locked
    ensures Located(c, t, y) && (t.bufs[y].dirty ==> y in t.dirty[t.bufs[y].key.size]) && Located(c, Cleaned(Take(t, y), y), y)
    ensures var u, d := Cleaned(Take(t, y), y), t.bufs[y].dirty;
      && Sound(c, Discard(c, u, y), (if d then Fewer(w, t.bufs[y].key.size) else w).(at := Unkeyed(u, w.at, y)))
      && Stands(Discard(c, u, y), plain) && Held(c, s, Discard(c, u, y), x) && Dropped(t, Discard(c, u, y), {y})
  {
    hide Sound, Stands, OnlyOn;
    CleanOk(c, t, w, y, plain);
    var u, d := Cleaned(Take(t, y), y), t.bufs[y].dirty;
    DiscardSound(c, u, if d then Fewer(w, t.bufs[y].key.size) else w, y);
    DiscardStands(c, u, y, plain);
    StruckBy(c, t, w, y);
    hide Struck;
    DropHeld(c, s, t, u, x, y);
  }

  lemma StruckBy(c: Setup, t: Cache, w: Books, y: nat)
    requires Sound(c, t, w) && y in t.bufs
    ensures t.bufs[y].key.size in t.free && Struck(t.free, t.free[t.bufs[y].key.size := Without(t.free[t.bufs[y].key.size], y)], {y})
  {
    hide Sound;
    Locate(c, t, w, y);
    StruckOne(t.free, t.bufs[y].key.size, y);
  }

  lemma DropHeld(c: Setup, s: Cache, t: Cache, u: Cache, x: nat, y: nat)
    requires Held(c, s, t, x) && y in t.bufs && y != x && !t.bufs[y].locked && t.page.Keys == t.bufs.Keys
    requires u.hash == t.hash && u.page == t.page && u.bufs.Keys == t.bufs.Keys && Struck(t.free, u.free, {y})
    requires u.bufs[y].key == t.bufs[y].key && Bucket(c, t.bufs[y].key) in t.hash
    requires forall z :: z in t.bufs && z != y ==> u.bufs[z] == t.bufs[z]
    ensures Held(c, s, Discard(c, u, y), x) && Dropped(t, Discard(c, u, y), {y})
  {
    var v := Discard(c, u, y);
    forall z | z in v.bufs ensures Hashed(c, t, z) ==> Hashed(c, v, z) {}
  }

  lemma LastOk(c: Setup, s: Cache, t: Cache, w: Books, x: nat, plain: Device)
    requires Sound(c, t, w) && Stands(t, plain) && Held(c, s, t, x) && !t.bufs[x].dirty
    ensures Located(c, t, x) && t.bufs[x].locked
    ensures Sound(c, Discard(c, t, x), w.(at := Unkeyed(t, w.at, x))) && Stands(Discard(c, t, x), plain)
    ensures HeldHashed(c, Discard(c, t, x)) && Rest(s, Discard(c, t, x))
  {
    hide Sound, Stands, OnlyOn;
    Locate(c, t, w, x);
    DiscardSound(c, t, w, x);
    DiscardStands(c, t, x, plain);
    var v := Discard(c, t, x);
    forall z | z in v.bufs ensures Hashed(c, t, z) ==> Hashed(c, v, z) {}
  }

  /** `x` is no longer held; everything else that was held still is, untouched. */
  ghost predicate Freed(s: Cache, t: Cache, x: nat) {
    && (forall y :: y in s.bufs && s.bufs[y].locked && y != x ==> y in t.bufs && t.bufs[y] == s.bufs[y])
    && (forall y :: y in t.bufs && t.bufs[y].locked ==> y in s.bufs && s.bufs[y].locked && y != x)
  }

  /** A buffer that holds its block goes to the end of the free list, one that does not to its head,
      to be taken first. */
  ghost predicate Placed(s: Cache, t: Cache, x: nat, valid: bool)
    requires x in s.bufs
  {
    var z := s.bufs[x].key.size;
    z in s.free && t.free == s.free[z := if valid then s.free[z] + [x] else [x] + s.free[z]]
  }

  /** `x` is on its dirty list: where it was, or else at the end. */
  ghost predicate QueuedDirty(s: Cache, t: Cache, x: nat)
    requires x in s.bufs
  {
    var z := s.bufs[x].key.size;
    z in s.dirty && t.dirty == s.dirty[z := if x in s.dirty[z] then s.dirty[z] else s.dirty[z] + [x]]
  }

  /** Why getblk has to sleep. */
  ghost predicate Busy(s: Cache, at: map<Key, nat>, k: Key, pages: nat) {
    || (k in at && at[k] in s.bufs && s.bufs[at[k]].locked)
    || (k !in at && NoneFree(s, k.size) && pages == 0)
  }

  lemma StoreOk(c: Setup, s: Cache, w: Books, x: nat, d: Data, plain: Device)
    requires Sound(c, s, w) && HeldHashed(c, s) && Stands(s, plain) && x in s.bufs && s.bufs[x].locked && |d| == s.bufs[x].key.size
    ensures Sound(c, Store(s, x, d), w) && HeldHashed(c, Store(s, x, d))
    ensures Stands(Store(s, x, d), Put(plain, s.bufs[x].key, d))
  {
    hide Inv, Counted, Stands;
    assert Hashed(c, s, x);
    StoreSound(c, s, w, x, d);
    OnlyOne(c, s, w.at, x);
    StoreStands(s, x, d, plain);
    StillHashed(c, s, Store(s, x, d), x);
  }

  /** A step that touches no chain, no key and locks nothing. */
  lemma StillHashed(c: Setup, s: Cache, t: Cache, x: nat)
    requires HeldHashed(c, s) && t.hash == s.hash && x in s.bufs && t.bufs.Keys == s.bufs.Keys
    requires forall y :: y in s.bufs && y != x ==> t.bufs[y] == s.bufs[y]
    requires t.bufs[x].key == s.bufs[x].key && (t.bufs[x].locked ==> s.bufs[x].locked)
    ensures HeldHashed(c, t)
  {
    forall y | y in t.bufs && t.bufs[y].locked ensures Hashed(c, t, y) { assert Hashed(c, s, y); }
  }

  lemma GiveOk(c: Setup, s: Cache, t: Cache, w: Books, x: nat, tail: bool, plain: Device)
    requires Sound(c, t, w) && HeldHashed(c, t) && Stands(t, plain) && x in t.bufs && t.bufs[x].locked
    requires t.bufs.Keys == s.bufs.Keys && s.bufs[x].locked && forall y :: y in s.bufs && y != x ==> t.bufs[y] == s.bufs[y]
    ensures Located(c, t, x) && Sound(c, Release(t, x, tail), More(w, t, x))
    ensures HeldHashed(c, Release(t, x, tail)) && Stands(Release(t, x, tail), plain) && Freed(s, Release(t, x, tail), x)
  {
    hide Sound, Stands, OnlyOn;
    Locate(c, t, w, x);
    ReleaseSound(c, t, w, x, tail);
    LockStands(t, Release(t, x, tail), x, t.bufs[x].(locked := false), plain);
    StillHashed(c, t, Release(t, x, tail), x);
  }

  lemma RestSelf(s: Cache)
    ensures Rest(s, s)
  {
  }

  lemma ReadyIn(s: Cache, x: nat, size: nat)
    requires Ready(s, x, size)
    ensures x in s.bufs
  {
  }

  lemma GotFor(c: Setup, s: Cache, t: Cache, x: nat, k: Key)
    requires Got(c, s, t, x, k)
    ensures x in t.bufs && t.bufs[x].key == k && t.bufs[x].locked
  {
  }

  lemma ValidData(s: Cache, x: nat, plain: Device)
    requires Stands(s, plain) && x in s.bufs
    ensures s.bufs[x].valid && Separate(s.used) ==> s.bufs[x].data == Get(plain, s.bufs[x].key)
  {
  }

  lemma NrNat(c: Setup, s: Cache, w: Books)
    requires Sound(c, s, w)
    ensures w.nr >= 0
  {
  }

  /** The outcome of getblk: the buffer, for which a page may have been cut; or nothing has changed
      for those who hold buffers. */
  ghost predicate Result(c: Setup, s: Cache, t: Cache, r: Option<nat>, k: Key, pages: nat, left: nat) {
    match r
    case Some(x) => Got(c, s, t, x, k) && Grew(Pool(s), Pool(t), pages, left, k.size)
    case None => Rest(s, t) && Pool(t) == Pool(s) && left == pages
  }

  /** On a miss for which a page is cut, the buffer is new. */
  ghost predicate Missed(s: Cache, at: map<Key, nat>, t: Cache, r: Option<nat>, k: Key, pages: nat, left: nat) {
    Misses(s, at, k, pages) ==> r.Some? && Brought(s, t, r.value, k.size) && left + 1 == pages
  }

  /** And what is read is what the device holds. */
  ghost predicate Fetched(s: Cache, at: map<Key, nat>, t: Cache, r: Option<nat>, k: Key, pages: nat, left: nat) {
    Misses(s, at, k, pages) ==>
      && r.Some? && r.value in t.bufs && t.bufs[r.value].data == Get(s.disk, k)
      && t.disk == s.disk && left + 1 == pages && SameLists(s, t, k.size) && Kept(s, t) && r.value !in s.bufs
  }

  lemma NotMissed(s: Cache, at: map<Key, nat>, t: Cache, k: Key, pages: nat, left: nat)
    requires Missed(s, at, t, None, k, pages, left)
    ensures !Misses(s, at, k, pages)
  {
  }

  lemma MissedOn(s: Cache, at: map<Key, nat>, t: Cache, r: Option<nat>, k: Key, pages: nat, left: nat)
    requires !Misses(s, at, k, pages)
    ensures Missed(s, at, t, r, k, pages, left)
  {
  }

  lemma Through(c: Setup, s: Cache, t: Cache, u: Cache, r: Option<nat>, k: Key, pages: nat, mid: nat, left: nat)
    requires Result(c, s, t, None, k, pages, mid) && Result(c, t, u, r, k, mid, left)
    ensures Result(c, s, u, r, k, pages, left)
  {
    hide Pool, Grew, Hashed;
  }

  lemma FillOk(c: Setup, s: Cache, t: Cache, w: Books, x: nat, k: Key, plain: Device)
    requires Sound(c, t, w) && HeldHashed(c, t) && Stands(t, plain) && Got(c, s, t, x, k) && !t.bufs[x].valid
    ensures Sound(c, Fill(t, x), w) && HeldHashed(c, Fill(t, x)) && Stands(Fill(t, x), plain)
    ensures Got(c, s, Fill(t, x), x, k) && (Separate(t.used) ==> Get(t.disk, k) == Get(plain, k))
  {
    hide Inv, Counted, Stands, Get, Separate;
    FillSound(c, t, w, x);
    OnlyOne(c, t, w.at, x);
    FillStands(t, x, plain);
    StillHashed(c, t, Fill(t, x), x);
    StillHeld(c, s, t, Fill(t, x), x);
    ValidData(Fill(t, x), x, plain);
  }

  /** `x` is locked, for block `k`; what others hold is untouched. */
  ghost predicate Got(c: Setup, s: Cache, t: Cache, x: nat, k: Key) {
    Held(c, s, t, x) && t.bufs[x].key == k && Hashed(c, t, x)
  }

  /** The same buffers are locked, and untouched. */
  ghost predicate Rest(s: Cache, t: Cache) {
    && (forall y :: y in s.bufs && s.bufs[y].locked ==> y in t.bufs && t.bufs[y] == s.bufs[y])
    && (forall y :: y in t.bufs && t.bufs[y].locked ==> y in s.bufs && s.bufs[y].locked)
  }

  lemma TakeHitOk(c: Setup, s: Cache, w: Books, x: nat, k: Key, plain: Device)
    requires Sound(c, s, w) && HeldHashed(c, s) && Stands(s, plain)
    requires k in w.at && w.at[k] == x && x in s.bufs && !s.bufs[x].locked
    ensures Located(c, s, x)
    ensures Sound(c, Take(s, x), w) && Stands(Take(s, x), plain)
    ensures HeldHashed(c, Take(s, x)) && Got(c, s, Take(s, x), x, k)
  {
    TakeHeadOk(c, s, w, x, plain);
    assert Hashed(c, Take(s, x), x);
  }

  lemma FlushHeldOk(c: Setup, s: Cache, t: Cache, w: Books, x: nat, size: nat, plain: Device)
    requires Sound(c, t, w) && Stands(t, plain) && Held(c, s, t, x) && Ready(t, x, size) && t.bufs[x].dirty
    ensures x in t.bufs && t.bufs[x].key.size == size && t.bufs[x].valid && size in t.dirty && x in t.dirty[size]
    ensures Sound(c, Flush(t, x), Fewer(w, size)) && Stands(Flush(t, x), plain)
    ensures Held(c, s, Flush(t, x), x)
  {
    hide Sound, Stands;
    FlushSound(c, t, w, x);
    ValidKey(c, t, w, x);
    FlushStands(t, x, plain);
    StillHeld(c, s, t, Flush(t, x), x);
  }

  lemma ReleaseHeldOk(c: Setup, s: Cache, t: Cache, w: Books, x: nat, tail: bool, plain: Device)
    requires Sound(c, t, w) && Stands(t, plain) && Held(c, s, t, x) && !t.bufs[x].dirty
    ensures Located(c, t, x) && t.bufs[x].locked && !NewlyDirty(t, x)
    ensures Sound(c, Release(t, x, tail), w) && Stands(Release(t, x, tail), plain)
    ensures HeldHashed(c, Release(t, x, tail)) && Rest(s, Release(t, x, tail))
  {
    hide Sound, Stands, OnlyOn;
    Locate(c, t, w, x);
    ReleaseSound(c, t, w, x, tail);
    LockStands(t, Release(t, x, tail), x, t.bufs[x].(locked := false), plain);
    Unheld(c, s, t, Release(t, x, tail), x);
  }

  /** A step on a buffer one holds leaves what others hold. */
  lemma StillHeld(c: Setup, s: Cache, t: Cache, u: Cache, x: nat)
    requires Held(c, s, t, x) && u.hash == t.hash && x in u.bufs && u.bufs[x].locked
    requires u.bufs.Keys == t.bufs.Keys && forall y :: y in t.bufs && y != x ==> u.bufs[y] == t.bufs[y]
    ensures Held(c, s, u, x)
  {
    forall y | y in u.bufs && u.bufs[y].locked && y != x ensures Hashed(c, u, y) { assert Hashed(c, t, y); }
  }

  lemma Unheld(c: Setup, s: Cache, t: Cache, u: Cache, x: nat)
    requires Held(c, s, t, x) && u.hash == t.hash && x in u.bufs && !u.bufs[x].locked
    requires u.bufs.Keys == t.bufs.Keys && forall y :: y in t.bufs && y != x ==> u.bufs[y] == t.bufs[y]
    ensures HeldHashed(c, u) && Rest(s, u)
  {
    forall y | y in u.bufs && u.bufs[y].locked ensures Hashed(c, u, y) {
      assert y != x && Hashed(c, t, y);
    }
  }

  lemma RekeyGot(c: Setup, s: Cache, t: Cache, x: nat, k: Key)
    requires Held(c, s, t, x) && Bucket(c, t.bufs[x].key) in t.hash && Bucket(c, k) in t.hash
    ensures HeldHashed(c, Rekey(c, t, x, k)) && Got(c, s, Rekey(c, t, x, k), x, k)
  {
    var u := Rekey(c, t, x, k);
    forall y | y in u.bufs && y != x ensures u.bufs[y] == t.bufs[y] && (Hashed(c, t, y) ==> Hashed(c, u, y)) {}
  }

  lemma AssignOk(c: Setup, s: Cache, t: Cache, w: Books, x: nat, k: Key, plain: Device)
    requires Sound(c, t, w) && Stands(t, plain) && Held(c, s, t, x) && Ready(t, x, k.size)
    requires !t.bufs[x].dirty && k !in w.at && k in t.used
    ensures Located(c, t, x) && Bucket(c, k) in t.hash && Rekeyed(t, w.at, x, k).Keys <= w.at.Keys + {k}
    ensures Sound(c, Rekey(c, t, x, k), w.(at := Rekeyed(t, w.at, x, k))) && Stands(Rekey(c, t, x, k), plain)
    ensures HeldHashed(c, Rekey(c, t, x, k)) && Got(c, s, Rekey(c, t, x, k), x, k)
  {
    hide Sound, Stands, OnlyOn;
    Locate(c, t, w, x);
    RekeySound(c, t, w, x, k);
    LockStands(t, Rekey(c, t, x, k), x, t.bufs[x].(key := k, valid := false), plain);
    RekeyGot(c, s, t, x, k);
  }

  /** New buffers are made when no unused one is left and there is a page: the head of the free list
      has been used if it stands for a device. */
  predicate Grows(s: Cache, size: nat, grow: bool, pages: nat) {
    (NoneFree(s, size) || (s.free[size][0] in s.bufs && s.bufs[s.free[size][0]].key.dev != 0)) && grow && pages > 0
  }

  predicate NoneFree(s: Cache, size: nat) {
    size !in s.free || s.free[size] == []
  }

  /** `x` is the first of its free list. */
  predicate IsFirst(s: Cache, size: nat, x: nat) {
    size in s.free && s.free[size] != [] && x == s.free[size][0]
  }

  /** The buffers from `from` to `to` are new, all of one page and unused; there are no others. */
  ghost predicate Made(s: Cache, t: Cache, from: nat, to: nat, size: nat) {
    && (forall y :: y in t.bufs <==> y in s.bufs || from <= y < to)
    && (forall y :: from <= y < to ==> t.bufs[y].key == Key(0, 0, size) && !t.bufs[y].valid && y in t.page && t.page[y] == from)
    && (forall y :: y in s.page && !(from <= y < to) ==> y in t.page && t.page[y] == s.page[y])
  }

  /** Since `s`, only buffers have been added, and only `x` of them is locked. */
  ghost predicate Grown(s: Cache, t: Cache, x: nat) {
    && (forall y :: y in s.bufs ==> y in t.bufs && t.bufs[y] == s.bufs[y])
    && t.hash == s.hash && x !in s.bufs
    && forall y :: y in t.bufs && y !in s.bufs && y != x ==> !t.bufs[y].locked
  }

  /** From `b` - 1 down to `a`. */
  function Down(a: nat, b: nat): seq<nat> {
    if b <= a then [] else [b - 1] + Down(a, b - 1)
  }

  /** The new buffers but the last are at the head of their free list. */
  ghost predicate Shelved(s: Cache, t: Cache, from: nat, x: nat, size: nat) {
    && size in s.free && t.free == s.free[size := Down(from, x) + s.free[size]]
    && t.dirty == s.dirty && t.disk == s.disk && t.used == s.used
  }

  /** How far create_buffers has got: `x` is the last buffer made, and still locked. */
  ghost predicate Growing(s: Cache, t: Cache, from: nat, x: nat, next: nat, size: nat) {
    && Grown(s, t, x) && Fresh(t, x, size) && from <= x && x + 1 == next
    && Made(s, t, from, next, size) && Shelved(s, t, from, x, size)
  }

  lemma GrowingFirst(s: Cache, t: Cache, x: nat, size: nat)
    requires x !in s.bufs && t == Add(s, x, size, x) && size in s.free
    ensures Growing(s, t, x, x, x + 1, size)
  {
    assert Down(x, x) + s.free[size] == s.free[size];
  }

  lemma GrowingNext(s: Cache, t: Cache, u: Cache, from: nat, prev: nat, x: nat, size: nat)
    requires Growing(s, t, from, prev, x, size) && x !in t.bufs && u.hash == t.hash && size in t.free
    requires u.bufs == t.bufs[prev := t.bufs[prev].(locked := false)][x := Buf(Key(0, 0, size), false, false, true, [])]
    requires u.page == t.page[x := from] && u.free == t.free[size := [prev] + t.free[size]] && u.dirty == t.dirty
    requires u.disk == t.disk && u.used == t.used
    ensures Growing(s, u, from, x, x + 1, size)
  {
    MadeNext(s, t, u, from, prev, x, size);
    hide Made, Grown, Down;
    GrownNext(s, t, u, prev, x, size);
    ShelvedNext(s, t, u, from, prev, size);
  }

  lemma MadeNext(s: Cache, t: Cache, u: Cache, from: nat, prev: nat, x: nat, size: nat)
    requires Made(s, t, from, x, size) && from <= prev < x && prev in t.bufs
    requires u.bufs == t.bufs[prev := t.bufs[prev].(locked := false)][x := Buf(Key(0, 0, size), false, false, true, [])]
    requires u.page == t.page[x := from]
    ensures Made(s, u, from, x + 1, size)
  {
  }

  lemma GrownNext(s: Cache, t: Cache, u: Cache, prev: nat, x: nat, size: nat)
    requires Grown(s, t, prev) && prev in t.bufs && x !in t.bufs && u.hash == t.hash
    requires u.bufs == t.bufs[prev := t.bufs[prev].(locked := false)][x := Buf(Key(0, 0, size), false, false, true, [])]
    ensures Grown(s, u, x)
  {
  }

  lemma ShelvedNext(s: Cache, t: Cache, u: Cache, from: nat, prev: nat, size: nat)
    requires Shelved(s, t, from, prev, size) && from <= prev && size in t.free && u.dirty == t.dirty
    requires u.free == t.free[size := [prev] + t.free[size]] && u.disk == t.disk && u.used == t.used
    ensures Shelved(s, u, from, prev + 1, size)
  {
    assert Down(from, prev + 1) == [prev] + Down(from, prev);
    assert [prev] + (Down(from, prev) + s.free[size]) == Down(from, prev + 1) + s.free[size];
  }

  lemma GrowingHeld(c: Setup, s: Cache, t: Cache, from: nat, x: nat, next: nat, size: nat)
    requires Growing(s, t, from, x, next, size) && HeldHashed(c, s)
    ensures Held(c, s, t, x) && Ready(t, x, size)
  {
    forall y | y in t.bufs && t.bufs[y].locked && y != x ensures Hashed(c, t, y) {
      assert y in s.bufs && Hashed(c, s, y);
    }
  }

  lemma GrowingCut(c: Setup, s: Cache, w: Books, t: Cache, x: nat, next: nat, size: nat)
    requires Sound(c, s, w) && t.page.Keys == t.bufs.Keys && Growing(s, t, w.next, x, next, size) && next == w.next + PerPage(size)
    ensures CutFrom(Pool(s), Pool(t), w.next, PerPage(size), size)
  {
    hide Inv, Counted;
    SamePages(c, s, w);
  }

  lemma SamePages(c: Setup, s: Cache, w: Books)
    requires Sound(c, s, w)
    ensures s.page.Keys == s.bufs.Keys
  {
  }

  lemma NotGrowing(s: Cache, t: Cache, from: nat, x: nat, next: nat, size: nat)
    requires x in t.bufs && t.bufs[x].dirty
    ensures !Growing(s, t, from, x, next, size)
  {
  }

  lemma Refused(c: Setup, s: Cache, at: map<Key, nat>, k: Key)
    requires NoneFree(s, k.size) && k !in at
    ensures Result(c, s, s, None, k, 0, 0) && Missed(s, at, s, None, k, 0, 0) && Busy(s, at, k, 0)
  {
  }

  lemma Again(c: Setup, s: Cache, at: map<Key, nat>, u: Cache, k: Key, pages: nat)
    requires Rest(s, u) && Pool(u) == Pool(s) && !Grows(s, k.size, true, pages)
    ensures Result(c, s, u, None, k, pages, pages) && Missed(s, at, u, None, k, pages, pages)
  {
  }

  lemma Replaced(c: Setup, s: Cache, at: map<Key, nat>, t: Cache, u: Cache, x: nat, k: Key, pages: nat, left: nat,
                 from: nat, next: nat)
    requires Got(c, s, u, x, k) && Pool(u) == Pool(t) && u.free == t.free && u.disk == t.disk
    requires x in t.bufs && u.bufs == t.bufs[x := t.bufs[x].(key := k, valid := false)]
    requires Grows(s, k.size, true, pages) ==>
      left + 1 == pages && Growing(s, t, from, x, next, k.size) && CutFrom(Pool(s), Pool(t), from, PerPage(k.size), k.size)
    requires !Grows(s, k.size, true, pages) ==> left == pages && Pool(t) == Pool(s)
    ensures Result(c, s, u, Some(x), k, pages, left) && Missed(s, at, u, Some(x), k, pages, left)
  {
    hide Got, Pool, CutFrom, Made, Down, Fresh, Grows;
  }

  /** A locked buffer of the right size; a dirty one is listed, so that it can be flushed. */
  ghost predicate Ready(s: Cache, x: nat, size: nat) {
    && x in s.bufs && s.bufs[x].locked && s.bufs[x].key.size == size
    && (s.bufs[x].dirty ==> s.bufs[x].valid && size in s.dirty && x in s.dirty[size])
  }

  lemma HeadOk(c: Setup, s: Cache, w: Books, size: nat)
    requires Sound(c, s, w) && size in SIZES
    ensures size in s.free && forall x :: x in s.free[size] ==> x in s.bufs && !s.bufs[x].locked && s.bufs[x].key.size == size
  {
    forall x | x in s.free[size] ensures x in s.bufs && !s.bufs[x].locked {
      assert x in s.bufs && BufOk(c, s, x);
    }
  }

  lemma TakeHeadOk(c: Setup, s: Cache, w: Books, x: nat, plain: Device)
    requires Sound(c, s, w) && HeldHashed(c, s) && x in s.bufs && !s.bufs[x].locked && Stands(s, plain)
    ensures Located(c, s, x)
    ensures Sound(c, Take(s, x), w) && Stands(Take(s, x), plain)
    ensures Held(c, s, Take(s, x), x) && Ready(Take(s, x), x, s.bufs[x].key.size)
  {
    Locate(c, s, w, x);
    TakeSound(c, s, w, x);
    LockStands(s, Take(s, x), x, s.bufs[x].(locked := true), plain);
    assert BufOk(c, s, x);
    TakeHeld(c, s, x);
  }

  lemma NewOk(c: Setup, s: Cache, w: Books, size: nat, pg: nat, plain: Device)
    requires Sound(c, s, w) && size in SIZES && Stands(s, plain) && pg <= w.next
    ensures w.next !in s.bufs
    ensures Sound(c, Add(s, w.next, size, pg), w.(next := w.next + 1)) && Stands(Add(s, w.next, size, pg), plain)
  {
    AddSound(c, s, w, size, pg);
    LockStands(s, Add(s, w.next, size, pg), w.next, Buf(Key(0, 0, size), false, false, true, []), plain);
  }

  lemma ReleaseNewOk(c: Setup, s: Cache, w: Books, x: nat, size: nat, plain: Device)
    requires Sound(c, s, w) && Fresh(s, x, size) && Stands(s, plain)
    ensures Located(c, s, x) && !NewlyDirty(s, x)
    ensures Sound(c, Release(s, x, false), w) && Stands(Release(s, x, false), plain)
  {
    Locate(c, s, w, x);
    ReleaseSound(c, s, w, x, false);
    LockStands(s, Release(s, x, false), x, s.bufs[x].(locked := false), plain);
  }

  lemma TakeHeld(c: Setup, s: Cache, x: nat)
    requires Tables(c, s) && HeldHashed(c, s) && x in s.bufs && !s.bufs[x].locked && BufOk(c, s, x)
    ensures Held(c, s, Take(s, x), x) && Ready(Take(s, x), x, s.bufs[x].key.size)
  {
    var t := Take(s, x);
    forall y | y in t.bufs && t.bufs[y].locked && y != x ensures Hashed(c, t, y) { assert Hashed(c, s, y); }
  }

  /** A buffer nobody has used yet, still locked by its maker. */
  ghost predicate Fresh(s: Cache, x: nat, size: nat) {
    x in s.bufs && s.bufs[x] == Buf(Key(0, 0, size), false, false, true, [])
  }

  /** From a state at rest, `x` has been locked; whatever was locked before is untouched. */
  ghost predicate Held(c: Setup, s: Cache, t: Cache, x: nat) {
    && x in t.bufs && t.bufs[x].locked && (x in s.bufs ==> !s.bufs[x].locked)
    && (forall y :: y in s.bufs && s.bufs[y].locked ==> y in t.bufs && t.bufs[y] == s.bufs[y])
    && (forall y :: y in t.bufs && t.bufs[y].locked && y != x ==> y in s.bufs && s.bufs[y].locked && Hashed(c, t, y))
  }

  // ---------------------------------------------------------------- every run

  /** Read: bread. Write and Drop: bwrite and brelse by the block's holder. Sync: sync_buffers, when no
      dirty buffer is held. Reclaim: one turn of reclaim_buffers. */
  datatype Op = Read(k: Key) | Write(k: Key, d: Data) | Drop(k: Key) | Sync(dev: nat) | Reclaim(size: nat)

  predicate Sized(op: Op) {
    match op
    case Read(k) => k.size in SIZES
    case Write(k, d) => |d| == k.size
    case Reclaim(size) => size in SIZES
    case _ => true
  }

  /** Devices without a cache, and the blocks in use. */
  datatype Plain = Plain(disk: Device, held: set<Key>)

  function Step(p: Plain, op: Op, seen: Option<Data>): Plain {
    match op
    case Read(k) => if seen == None then p else p.(held := p.held + {k})
    case Write(k, d) => if k in p.held then Plain(Put(p.disk, k, d), p.held - {k}) else p
    case Drop(k) => p.(held := p.held - {k})
    case _ => p
  }

  function After(ops: seq<Op>, seen: seq<Option<Data>>, disk: Device): Plain
    requires |ops| == |seen|
  {
    if ops == [] then Plain(disk, {})
    else
      var n := |ops| - 1;
      Step(After(ops[..n], seen[..n], disk), ops[n], seen[n])
  }

  /** Every block read is what the devices would hold without the cache. */
  ghost predicate Truthful(ops: seq<Op>, seen: seq<Option<Data>>, disk: Device)
    requires |ops| == |seen|
  {
    forall n :: 0 <= n < |ops| && seen[n].Some? ==> ops[n].Read? && seen[n].value == Get(After(ops[..n], seen[..n], disk).disk, ops[n].k)
  }

  /** What there is: free pages, the size and page of every buffer, who stands for each block in use, and
      the free list of each size. */
  datatype Stock = Stock(pages: nat, pool: map<nat, (nat, nat)>, held: map<Key, nat>, free: map<nat, seq<nat>>)

  /** Everything of that size is in use. */
  ghost predicate AllHeld(a: Stock, size: nat) {
    forall x :: x in a.pool && a.pool[x].0 == size ==> x in a.held.Values
  }

  /** A buffer of the same page is in use. */
  ghost predicate SiblingIn(a: Stock, x: nat) {
    exists y :: x in a.pool && y in a.pool && a.pool[x].1 == a.pool[y].1 && y in a.held.Values
  }

  /** `x` has left its free list: as the buffer of the block; or as its first, `d` of them having gone to the
      end; or it is new, and those made with it are in front. */
  ghost predicate Lifted(free: map<nat, seq<nat>>, now: map<nat, seq<nat>>, size: nat, x: nat, d: nat, from: nat) {
    && size in free && d <= |free[size]|
    && var l := Turned(free[size], d);
    || (d == 0 && now == free[size := Without(l, x)])
    || (l != [] && x == l[0] && now == free[size := l[1..]])
    || now == free[size := Down(from, x) + l]
  }

  /** The buffer of a block goes to the end of its free list. */
  function Returned(a: Stock, k: Key): map<nat, seq<nat>> {
    if k in a.held && k.size in a.free then a.free[k.size := a.free[k.size] + [a.held[k]]] else a.free
  }

  /** How an operation may change what there is, and when it may have nothing to show. */
  ghost predicate Moves(a: Stock, op: Op, seen: Option<Data>, b: Stock) {
    match op
    case Read(k) =>
      if seen == None then b == a && (k in a.held || (a.pages == 0 && AllHeld(a, k.size)))
      else
        && k !in a.held && Grew(a.pool, b.pool, a.pages, b.pages, k.size)
        && exists x, d: nat, from: nat :: IsServed(a, b, k, x, d, from)
    case Write(k, _) => seen == None && b == a.(held := a.held - {k}, free := Returned(a, k))
    case Drop(k) => seen == None && b == a.(held := a.held - {k}, free := Returned(a, k))
    case Sync(_) => seen == None && b == a
    case Reclaim(size) => seen == None && Reclaims(a, b, size)
  }

  ghost predicate IsServed(a: Stock, b: Stock, k: Key, x: nat, d: nat, from: nat) {
    && x in b.pool && b.pool[x].0 == k.size && x !in a.held.Values && b.held == a.held[k := x]
    && Lifted(a.free, b.free, k.size, x, d, from)
  }

  /** A page is free, with all its buffers gone; or the first of the free list has a sibling in use and goes to
      the end; or all buffers of the size are in use. */
  ghost predicate Reclaims(a: Stock, b: Stock, size: nat) {
    && size in a.free && b.held == a.held
    && if b.pages != a.pages then
         b.pages == a.pages + 1 && exists pg :: PageGone(a.pool, b.pool, pg) && Struck(a.free, b.free, OfPage(a.pool, pg))
       else if a.free[size] == [] then b == a && AllHeld(a, size)
       else b == a.(free := a.free[size := Turned(a.free[size], 1)]) && SiblingIn(a, a.free[size][0])
  }

  ghost function OfPage(pool: map<nat, (nat, nat)>, pg: nat): set<nat> {
    set y | y in pool && pool[y].1 == pg
  }

  ghost predicate Explained(ops: seq<Op>, seen: seq<Option<Data>>, stock: seq<Stock>, pages: nat) {
    && |seen| == |ops| && |stock| == |ops| + 1 && stock[0] == Stock(pages, map[], map[], NoLists(SIZES))
    && forall n :: 0 <= n < |ops| ==> Moves(stock[n], ops[n], seen[n], stock[n + 1])
  }

  // ---------------------------------------------------------------- reclaiming gets somewhere

  /** `m` turns have freed no page: the first `m` buffers of the free list have had their turn. */
  lemma {:induction false} InVain(ops: seq<Op>, seen: seq<Option<Data>>, stock: seq<Stock>, pages: nat, i: nat, m: nat, size: nat)
    requires Explained(ops, seen, stock, pages) && i + m <= |ops| && size in stock[i].free && m <= |stock[i].free[size]|
    requires forall j :: i <= j < i + m ==> ops[j] == Reclaim(size) && stock[j + 1].pages == stock[j].pages
    ensures stock[i + m] == stock[i].(free := stock[i].free[size := Turned(stock[i].free[size], m)])
    ensures forall j :: 0 <= j < m ==> SiblingIn(stock[i], stock[i].free[size][j])
  {
    hide SiblingIn, AllHeld;
    var a := stock[i];
    var l := a.free[size];
    if m == 0 {
      assert Turned(l, 0) == l && a.free[size := l] == a.free;
    } else {
      InVain(ops, seen, stock, pages, i, m - 1, size);
      assert Moves(stock[i + m - 1], ops[i + m - 1], seen[i + m - 1], stock[i + m]);
      TurnedNext(l, m - 1);
      SameSibling(a, stock[i + m - 1], l[m - 1]);
    }
  }

  lemma SameSibling(a: Stock, b: Stock, x: nat)
    requires b.pool == a.pool && b.held == a.held
    ensures SiblingIn(a, x) <==> SiblingIn(b, x)
  {
  }

  /** After as many turns as there are free buffers of a size, a page has come back, or every page with such
      a buffer also has one in use. */
  lemma ReclaimGetsSomewhere(ops: seq<Op>, seen: seq<Option<Data>>, stock: seq<Stock>, pages: nat, i: nat, size: nat)
    requires Explained(ops, seen, stock, pages) && i <= |ops| && size in stock[i].free && i + |stock[i].free[size]| <= |ops|
    requires forall j :: i <= j < i + |stock[i].free[size]| ==> ops[j] == Reclaim(size)
    ensures (exists j :: i <= j < i + |stock[i].free[size]| && stock[j + 1].pages == stock[j].pages + 1)
         || (forall x :: x in stock[i].free[size] ==> SiblingIn(stock[i], x))
  {
    hide SiblingIn, AllHeld;
    var n := |stock[i].free[size]|;
    if forall j :: i <= j < i + n ==> stock[j + 1].pages == stock[j].pages {
      InVain(ops, seen, stock, pages, i, n, size);
    } else {
      var j :| i <= j < i + n && stock[j + 1].pages != stock[j].pages;
      assert Moves(stock[j], ops[j], seen[j], stock[j + 1]);
    }
  }

  lemma ExplainedMore(ops: seq<Op>, seen: seq<Option<Data>>, stock: seq<Stock>, pages: nat, op: Op, o: Option<Data>, b: Stock)
    requires |stock| == |ops| + 1 && Explained(ops, seen, stock, pages) && Moves(stock[|ops|], op, o, b)
    ensures Explained(ops + [op], seen + [o], stock + [b], pages)
  {
    hide Moves;
  }

  lemma TruthfulMore(ops: seq<Op>, seen: seq<Option<Data>>, disk: Device, op: Op, o: Option<Data>)
    requires |ops| == |seen| && Truthful(ops, seen, disk)
    requires o.Some? ==> op.Read? && o.value == Get(After(ops, seen, disk).disk, op.k)
    ensures Truthful(ops + [op], seen + [o], disk)
  {
    hide Get, After;
    var os, ss := ops + [op], seen + [o];
    forall n | 0 <= n < |os| && ss[n].Some? ensures os[n].Read? && ss[n].value == Get(After(os[..n], ss[..n], disk).disk, os[n].k) {
      assert os[..n] == ops[..n] && ss[..n] == seen[..n];
      assert n == |ops| ==> ops[..n] == ops && seen[..n] == seen;
    }
  }

  // ---------------------------------------------------------------- who holds what

  /** The locked buffers, by their blocks. */
  ghost predicate HeldBy(s: Cache, held: map<Key, nat>) {
    && (forall x :: x in s.bufs && s.bufs[x].locked ==> s.bufs[x].key in held && held[s.bufs[x].key] == x)
    && (forall k :: k in held ==> held[k] in s.bufs && s.bufs[held[k]].locked && s.bufs[held[k]].key == k && s.bufs[held[k]].valid)
  }

  lemma HeldAt(c: Setup, s: Cache, w: Books, held: map<Key, nat>, k: Key)
    requires Sound(c, s, w) && HeldHashed(c, s) && HeldBy(s, held)
    ensures k in held <==> k in w.at && w.at[k] in s.bufs && s.bufs[w.at[k]].locked
    ensures k in held ==> held[k] == w.at[k]
  {
    hide SizedOk, HashOk, BufsOk, Counted;
    if k in held { assert Hashed(c, s, held[k]); }
  }

  lemma GotHeld(c: Setup, s: Cache, t: Cache, w: Books, held: map<Key, nat>, x: nat, k: Key)
    requires Sound(c, t, w) && HeldHashed(c, t) && HeldBy(s, held) && Got(c, s, t, x, k) && t.bufs[x].valid
    ensures HeldBy(t, held[k := x]) && k !in held && x !in held.Values && x in t.bufs && t.bufs[x].key == k
  {
    hide Sound, HeldHashed, Hashed;
    OnlyHolder(c, t, w, x);
  }

  lemma OnlyHolder(c: Setup, t: Cache, w: Books, x: nat)
    requires Sound(c, t, w) && HeldHashed(c, t) && x in t.bufs && t.bufs[x].locked
    ensures forall y :: y in t.bufs && t.bufs[y].locked && t.bufs[y].key == t.bufs[x].key ==> y == x
  {
    hide SizedOk, HashOk, BufsOk, Counted;
    assert Hashed(c, t, x);
    forall y | y in t.bufs && t.bufs[y].locked && t.bufs[y].key == t.bufs[x].key ensures y == x { assert Hashed(c, t, y); }
  }

  lemma FreedHeld(s: Cache, t: Cache, held: map<Key, nat>, x: nat, k: Key)
    requires HeldBy(s, held) && Freed(s, t, x) && k in held && held[k] == x
    ensures HeldBy(t, held - {k})
  {
  }

  lemma RestHeld(s: Cache, t: Cache, held: map<Key, nat>)
    requires HeldBy(s, held) && Rest(s, t)
    ensures HeldBy(t, held)
  {
  }

  lemma SyncedHeld(s: Cache, t: Cache, held: map<Key, nat>, dev: nat)
    requires HeldBy(s, held) && AllSynced(s, t, dev)
    ensures HeldBy(t, held) && Pool(t) == Pool(s) && t.free == s.free
  {
    hide Spared, Rotated;
    PoolSame(s, t);
  }

  /** Where no buffer of a size is free, all of them are held. */
  lemma NoneLeft(c: Setup, s: Cache, w: Books, held: map<Key, nat>, pages: nat, size: nat)
    requires Sound(c, s, w) && HeldBy(s, held) && NoneFree(s, size) && size in SIZES
    ensures AllHeld(Stock(pages, Pool(s), held, s.free), size)
  {
    var a := Stock(pages, Pool(s), held, s.free);
    forall x | x in a.pool && a.pool[x].0 == size ensures x in a.held.Values {
      assert BufOk(c, s, x);
      assert held[s.bufs[x].key] == x;
    }
  }

  lemma SiblingHeldIn(c: Setup, s: Cache, w: Books, held: map<Key, nat>, pages: nat, x: nat)
    requires Sound(c, s, w) && HeldBy(s, held) && x in s.bufs && SiblingHeld(s, x)
    ensures SiblingIn(Stock(pages, Pool(s), held, s.free), x)
  {
    hide Sound;
    var y :| y in s.bufs && y != x && s.bufs[y].locked && x in s.page && y in s.page && s.page[y] == s.page[x];
    InPool(c, s, w, x);
    InPool(c, s, w, y);
    assert held[s.bufs[y].key] == y;
  }

  /** A page's buffers, by the pool or by the cache. */
  lemma SamePage(c: Setup, s: Cache, w: Books, pg: nat)
    requires Sound(c, s, w)
    ensures OfPage(Pool(s), pg) == PageBufs(s, pg)
  {
    SamePages(c, s, w);
  }

  // ---------------------------------------------------------------- the cache, operation by operation

  ghost function StockOf(b: Buffers, held: map<Key, nat>): Stock
    reads b
  {
    Stock(b.freePages, Pool(b.S()), held, b.free)
  }

  method ReadBlock(b: Buffers, k: Key, ghost disk: Device, ghost held: map<Key, nat>) returns (seen: Option<Data>, ghost now: map<Key, nat>)
    requires b.Valid() && Stands(b.S(), disk) && HeldBy(b.S(), held) && k.size in SIZES && k in b.used
    modifies b
    ensures b.Valid() && Stands(b.S(), disk) && HeldBy(b.S(), now) && now.Keys == if seen == None then held.Keys else held.Keys + {k}
    ensures seen.Some? && Separate(b.used) ==> seen.value == Get(disk, k)
    ensures Moves(old(StockOf(b, held)), Read(k), seen, StockOf(b, now))
  {
    hide Sound, HeldHashed, Stands, HeldBy, Got, Rest, Wired, Pool, AllHeld, Grew, Get, Separate, Brings, Lifted, Fetched;
    ghost var s, at, pages, from := b.S(), b.at, b.freePages, b.next;
    now := held;
    var r;
    ghost var way, got;
    r, way, got := b.Bread(k, disk);
    if r == None {
      RestHeld(s, b.S(), held);
      HeldAt(b.c, b.S(), b.K(), held, k);
      if k !in held { NoneLeft(b.c, b.S(), b.K(), held, b.freePages, k.size); }
      return None, now;
    }
    GotHeld(b.c, s, b.S(), b.K(), held, r.value, k);
    InPool(b.c, b.S(), b.K(), r.value);
    LiftedBy(s, at, way, got, b.S(), r.value, k, pages, b.freePages, from);
    now := held[k := r.value];
    assert IsServed(Stock(pages, Pool(s), held, s.free), StockOf(b, now), k, r.value, if k in at then 0 else way.d, from);
    seen := Some(b.bufs[r.value].data);
  }

  lemma LiftedBy(s: Cache, at: map<Key, nat>, way: Way, got: Cache, t: Cache, x: nat, k: Key, pages: nat, left: nat, from: nat)
    requires Brings(s, at, way, got, t, x, k, pages, left, from)
    ensures Lifted(s.free, t.free, k.size, x, if k in at then 0 else way.d, from)
  {
    hide Down, Kept, Without, Grows, ToWash;
    assert Turned(s.free[k.size], 0) == s.free[k.size];
  }

  lemma InPool(c: Setup, s: Cache, w: Books, x: nat)
    requires Sound(c, s, w) && x in s.bufs
    ensures x in s.page && x in Pool(s) && Pool(s)[x] == (s.bufs[x].key.size, s.page[x])
  {
    SamePages(c, s, w);
  }

  /** Write and Drop. */
  method GiveBack(b: Buffers, k: Key, d: Option<Data>, ghost disk: Device, ghost held: map<Key, nat>)
    requires b.Valid() && Stands(b.S(), disk) && HeldBy(b.S(), held) && (d.Some? ==> |d.value| == k.size)
    modifies b
    ensures b.Valid() && HeldBy(b.S(), held - {k}) && Pool(b.S()) == old(Pool(b.S())) && b.freePages == old(b.freePages)
    ensures Stands(b.S(), if d.Some? && k in held then Put(disk, k, d.value) else disk)
    ensures b.free == Returned(old(StockOf(b, held)), k)
  {
    hide Sound, HeldHashed, Stands, Freed, Wired, Pool, Put;
    ghost var s := b.S();
    HeldAt(b.c, s, b.K(), held, k);
    var r := b.Search(k);
    if r.Some? && b.bufs[r.value].locked {
      if d.Some? { b.Bwrite(r.value, d.value, disk); } else { b.Brelse(r.value, disk); }
      FreedHeld(s, b.S(), held, r.value, k);
    } else {
      assert held - {k} == held;
    }
  }

  method ReclaimPage(b: Buffers, size: nat, ghost disk: Device, ghost held: map<Key, nat>)
    requires b.Valid() && Stands(b.S(), disk) && HeldBy(b.S(), held) && size in SIZES
    modifies b
    ensures b.Valid() && Stands(b.S(), disk) && HeldBy(b.S(), held)
    ensures Moves(old(StockOf(b, held)), Reclaim(size), None, StockOf(b, held))
  {
    hide Sound, HeldHashed, Stands, HeldBy, Rest, Wired, Pool, AllHeld, PageGone, SiblingHeld, SiblingIn, PageBufs, OfPage, Struck;
    ghost var s, w := b.S(), b.K();
    HeadAlone(b.c, s, w, size);
    var r := b.Reclaim(size, disk);
    RestHeld(s, b.S(), held);
    if r == None {
      if NoneFree(s, size) {
        NoneLeft(b.c, s, w, held, b.freePages, size);
      } else {
        SiblingHeldIn(b.c, s, w, held, b.freePages, s.free[size][0]);
      }
    } else {
      SamePage(b.c, s, w, r.value);
    }
  }

  method Perform(b: Buffers, op: Op, ghost p: Plain, ghost held: map<Key, nat>) returns (seen: Option<Data>, ghost now: map<Key, nat>)
    requires b.Valid() && Stands(b.S(), p.disk) && HeldBy(b.S(), held) && held.Keys == p.held && Sized(op)
    requires op.Read? ==> op.k in b.used
    modifies b
    ensures b.Valid() && Stands(b.S(), Step(p, op, seen).disk) && HeldBy(b.S(), now) && now.Keys == Step(p, op, seen).held
    ensures seen.Some? ==> op.Read? && (Separate(b.used) ==> seen.value == Get(p.disk, op.k))
    ensures Moves(old(StockOf(b, held)), op, seen, StockOf(b, now))
    ensures op.Sync? && held == map[] ==> OnDevice(b.S(), op.dev, p.disk)
  {
    hide Sound, HeldHashed, Stands, HeldBy, AllSynced, NoDirtyHeld, Wired, Pool, Get, Put, Separate, Grew, AllHeld, Reclaims, IsServed;
    ghost var s := b.S();
    seen, now := None, held;
    match op {
      case Read(k) =>
        seen, now := ReadBlock(b, k, p.disk, held);
      case Write(k, d) =>
        GiveBack(b, k, Some(d), p.disk, held);
        now := held - {k};
      case Drop(k) =>
        GiveBack(b, k, None, p.disk, held);
        now := held - {k};
      case Sync(dev) =>
        if forall x :: x in b.bufs && b.bufs[x].dirty ==> !b.bufs[x].locked {
          NoneDirty(b.S());
          b.SyncBuffers(dev, p.disk);
          SyncedHeld(s, b.S(), held, dev);
        } else {
          SomeHeld(s, held);
        }
      case Reclaim(size) =>
        ReclaimPage(b, size, p.disk, held);
    }
  }

  lemma NoneDirty(s: Cache)
    requires forall x :: x in s.bufs && s.bufs[x].dirty ==> !s.bufs[x].locked
    ensures NoDirtyHeld(s)
  {
  }

  lemma SomeHeld(s: Cache, held: map<Key, nat>)
    requires HeldBy(s, held) && exists x :: x in s.bufs && s.bufs[x].locked
    ensures held != map[]
  {
    var x :| x in s.bufs && s.bufs[x].locked;
    assert s.bufs[x].key in held;
  }

  function ReadKeys(ops: seq<Op>): set<Key> {
    set n | 0 <= n < |ops| && ops[n].Read? :: ops[n].k
  }

  /** The device's own bytes are those that the writers left, where blocks are in use. */
  ghost predicate Durable(ops: seq<Op>, device: Device, plain: Plain) {
    ops != [] && ops[|ops| - 1].Sync? && plain.held == {} ==>
      var dev := ops[|ops| - 1].dev;
      forall k :: k in ReadKeys(ops) && (dev == 0 || k.dev == dev) ==> Get(device, k) == Get(plain.disk, k)
  }

  /** The cache is transparent as long as no two blocks in use overlap: in every run, every block read
      is what the last writer left there, or else what the device held from the start, through all
      reuse, write-back and reclaim; and after a sync it is on the device. A read waits only for a
      block that is held, or when no page is left and every buffer of its size is held. */
  method Run(c: Setup, buckets: set<nat>, pages: nat, disk: Device, ops: seq<Op>)
    returns (seen: seq<Option<Data>>, device: Device, ghost stock: seq<Stock>)
    requires c.sizes == SIZES && InTable(c, buckets) && forall n :: 0 <= n < |ops| ==> Sized(ops[n])
    ensures Explained(ops, seen, stock, pages)
    ensures Separate(ReadKeys(ops)) ==> Truthful(ops, seen, disk) && Durable(ops, device, After(ops, seen, disk))
  {
    hide Sound, HeldHashed, Stands, HeldBy, Step, InTable, Wired, Moves, Separate, Truthful, Get, ReadKeys, OnDevice, Pool, After, Explained, Durable;
    var used := ReadKeys(ops);
    var b := new Buffers(c, buckets, pages, disk, used);
    seen := [];
    ghost var held: map<Key, nat> := map[];
    stock := [Stock(pages, map[], map[], NoLists(SIZES))];
    RunStart(disk, stock, pages);
    assert ops[..0] == [];
    for i := 0 to |ops|
      invariant fresh(b) && b.Valid() && b.used == used && |seen| == i && |stock| == i + 1
      invariant Explained(ops[..i], seen, stock, pages) && stock[i] == StockOf(b, held)
      invariant Separate(used) ==> Truthful(ops[..i], seen, disk)
      invariant var p := After(ops[..i], seen, disk); Stands(b.S(), p.disk) && HeldBy(b.S(), held) && held.Keys == p.held
      invariant i > 0 && ops[i - 1].Sync? && held == map[] ==> OnDevice(b.S(), ops[i - 1].dev, After(ops[..i], seen, disk).disk)
    {
      ReadIn(ops, i);
      ghost var p := After(ops[..i], seen, disk);
      var o;
      ghost var now;
      o, now := Perform(b, ops[i], p, held);
      assert ops[..i + 1] == ops[..i] + [ops[i]];
      AfterNext(ops[..i], seen, disk, ops[i], o);
      ExplainedMore(ops[..i], seen, stock, pages, ops[i], o, StockOf(b, now));
      if Separate(used) { TruthfulMore(ops[..i], seen, disk, ops[i], o); }
      SyncSame(p, ops[i], o);
      seen, held, stock := seen + [o], now, stock + [StockOf(b, now)];
    }
    assert ops[..|ops|] == ops;
    device := b.disk;
    if Separate(used) { AtRest(b.S(), ops, held, After(ops, seen, disk)); }
  }

  lemma RunStart(disk: Device, stock: seq<Stock>, pages: nat)
    requires stock == [Stock(pages, map[], map[], NoLists(SIZES))]
    ensures Truthful([], [], disk) && Explained([], [], stock, pages) && After([], [], disk) == Plain(disk, {})
  {
  }

  lemma AfterNext(ops: seq<Op>, seen: seq<Option<Data>>, disk: Device, op: Op, o: Option<Data>)
    requires |ops| == |seen|
    ensures After(ops + [op], seen + [o], disk) == Step(After(ops, seen, disk), op, o)
  {
    assert (ops + [op])[..|ops|] == ops && (seen + [o])[..|seen|] == seen;
  }

  lemma ReadIn(ops: seq<Op>, i: nat)
    requires i < |ops|
    ensures ops[i].Read? ==> ops[i].k in ReadKeys(ops)
  {
  }

  lemma SyncSame(p: Plain, op: Op, o: Option<Data>)
    ensures op.Sync? ==> Step(p, op, o) == p
  {
  }

  lemma AtRest(s: Cache, ops: seq<Op>, held: map<Key, nat>, p: Plain)
    requires s.used == ReadKeys(ops) && Separate(s.used) && held.Keys == p.held
    requires ops != [] && ops[|ops| - 1].Sync? && held == map[] ==> OnDevice(s, ops[|ops| - 1].dev, p.disk)
    ensures Durable(ops, s.disk, p)
  {
    hide Get, Separate, ReadKeys;
    if p.held == {} { assert held == map[]; }
  }

  // ---------------------------------------------------------------- blocks that overlap

  /** Bytes all alike. */
  function Alike(n: nat, c: bv8): (d: Data)
    ensures |d| == n && forall i :: 0 <= i < n ==> d[i] == c
  {
    seq(n, i => c)
  }

  function Zero(): Device {
    (dev: nat, x: nat) => 0
  }

  function TwoSizes(k: Key, l: Key): seq<Op> {
    [Read(k), Write(k, Alike(k.size, 1)), Read(l)]
  }

  /** A block of ones has been written and is dirty in the cache; the other block is held, and its
      buffer shows the zeros of the device, also where the two overlap. */
  ghost predicate Torn(s: Cache, k: Key, l: Key, x: nat, y: nat) {
    && x in s.bufs && s.bufs[x] == Buf(k, true, true, false, Alike(k.size, 1))
    && y in s.bufs && s.bufs[y].key == l && s.bufs[y].valid && s.bufs[y].locked && s.bufs[y].data == Get(Zero(), l)
    && s.disk == Zero()
  }

  /** Whenever two blocks in use overlap, there is a run that is not transparent: a block of another
      size, written through the cache and still dirty there, is not seen by who reads the other. */
  method Overlapping(c: Setup, buckets: set<nat>, k: Key, l: Key)
    returns (b: Buffers, x: nat, y: nat, seen: seq<Option<Data>>)
    requires c.sizes == SIZES && InTable(c, buckets) && k.size in SIZES && l.size in SIZES && k != l && Overlap(k, l)
    ensures fresh(b) && b.Valid() && Torn(b.S(), k, l, x, y)
    ensures |seen| == 3 && seen[0] == Some(Get(Zero(), k)) && seen[1] == None && seen[2] == Some(b.bufs[y].data)
    ensures !Truthful(TwoSizes(k, l), seen, Zero())
  {
    hide Sound, HeldHashed, Stands, HeldBy, InTable, Wired, Get, Put, Pool, Busy, Got, Rest, Grew, Separate, Freed, Overlap, Truthful, TwoSizes, Brings;
    b := new Buffers(c, buckets, 2, Zero(), {k, l});
    OtherSize(k, l);
    ghost var s := b.S();
    var r;
    ghost var way, got;
    r, way, got := b.Bread(k, Zero());
    x := r.value;
    GotFor(c, s, b.S(), x, k);
    var first := b.bufs[x].data;
    b.Bwrite(x, Alike(k.size, 1), Zero());
    s := b.S();
    r, way, got := b.Bread(l, Put(Zero(), k, Alike(k.size, 1)));
    y := r.value;
    GotFor(c, s, b.S(), y, l);
    seen := [Some(first), None, Some(b.bufs[y].data)];
    Stale(k, l, seen);
  }

  /** Blocks of one size that overlap are the same. */
  lemma OtherSize(k: Key, l: Key)
    requires k != l && Overlap(k, l)
    ensures k.size != l.size
  {
    var z := k.size;
    assert k.block < l.block ==> (k.block + 1) * z <= l.block * z;
    assert l.block < k.block ==> (l.block + 1) * z <= k.block * z;
  }

  lemma Stale(k: Key, l: Key, seen: seq<Option<Data>>)
    requires Overlap(k, l) && k.size > 0 && l.size > 0 && |seen| == 3 && seen[0].Some? && seen[1] == None && seen[2] == Some(Get(Zero(), l))
    ensures !Truthful(TwoSizes(k, l), seen, Zero())
  {
    hide Get, Put, Overlap;
    var ops, d := TwoSizes(k, l), Alike(k.size, 1);
    assert ops[..2][..1] == ops[..1] == [Read(k)] && seen[..2][..1] == seen[..1] && ops[..1][..0] == [];
    assert After(ops[..1], seen[..1], Zero()) == Plain(Zero(), {k});
    assert After(ops[..2], seen[..2], Zero()).disk == Put(Zero(), k, d);
    Differs(k, l, d);
  }

  lemma Differs(k: Key, l: Key, d: Data)
    requires Overlap(k, l) && k.size > 0 && l.size > 0 && d == Alike(k.size, 1)
    ensures Get(Put(Zero(), k, d), l) != Get(Zero(), l)
  {
    var x := if Begin(k) < Begin(l) then Begin(l) else Begin(k);
    hide Begin;
    assert Get(Put(Zero(), k, d), l)[x - Begin(l)] == 1;
    assert Get(Zero(), l)[x - Begin(l)] == 0;
  }
}
