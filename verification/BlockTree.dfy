/**
 The block tree of an ext2 inode: twelve direct blocks and three indirect trees of depth
 one, two and three. ext2_bmap finds or grows a leaf, ext2_truncate cuts a suffix off.

 A position in the tree is a root slot of the inode and a path of slot numbers below it.
 */
module BlockTree {
  import Bitmaps
  import opened Wrappers

  const NDIR: nat := 12
  const IND: nat := 12
  const DIND: nat := 13
  const TIND: nat := 14
  const ROOTS: nat := 15

  datatype Inode = Inode(data: seq<nat>, blocks: int)

  datatype Pos = Pos(ino: nat, root: nat, path: seq<nat>)

  /** n: entries in an indirect block; unit: blksize / 512; disk: the indirect blocks, as entries. */
  datatype Fs = Fs(n: nat, unit: nat, inodes: map<nat, Inode>, disk: map<nat, seq<nat>>)

  function Level(root: nat): nat {
    if root < NDIR then 0 else root - 11
  }

  predicate ValidPos(fs: Fs, p: Pos) {
    && p.ino in fs.inodes && p.root < ROOTS && |p.path| <= Level(p.root)
    && forall i :: 0 <= i < |p.path| ==> p.path[i] < fs.n
  }

  predicate Interior(p: Pos) {
    |p.path| < Level(p.root)
  }

  function Parent(p: Pos): Pos
    requires p.path != []
  {
    p.(path := p.path[..|p.path| - 1])
  }

  function Child(p: Pos, j: nat): Pos {
    p.(path := p.path + [j])
  }

  lemma ChildParent(p: Pos, j: nat)
    ensures Parent(Child(p, j)) == p
  {
    assert (p.path + [j])[..|p.path|] == p.path;
  }

  predicate Extends(x: Pos, p: Pos) {
    x.ino == p.ino && x.root == p.root && |p.path| < |x.path| && x.path[..|p.path|] == p.path
  }

  lemma ExtendsParent(x: Pos, p: Pos)
    requires x.path != []
    ensures Extends(x, p) <==> Parent(x) == p || Extends(Parent(x), p)
  {
    if |p.path| < |x.path| {
      assert x.path[..|p.path|] == Parent(x).path[..|p.path|];
      if |p.path| == |x.path| - 1 { assert x.path[..|p.path|] == Parent(x).path; }
    }
  }

  /** The block number stored at a position, zero when there is none. */
  function At(fs: Fs, p: Pos): nat
    decreases |p.path|
  {
    if p.ino !in fs.inodes || p.root >= |fs.inodes[p.ino].data| then 0
    else if p.path == [] then fs.inodes[p.ino].data[p.root]
    else
      var q := At(fs, Parent(p));
      var j := p.path[|p.path| - 1];
      if q == 0 || q !in fs.disk || j >= |fs.disk[q]| then 0 else fs.disk[q][j]
  }

  lemma {:induction false} NothingBelow(fs: Fs, p: Pos, x: Pos)
    requires At(fs, p) == 0 && Extends(x, p)
    ensures At(fs, x) == 0
    decreases |x.path|
  {
    ExtendsParent(x, p);
    if Parent(x) != p { NothingBelow(fs, p, Parent(x)); }
  }

  // ---------------------------------------------------------------- the invariant

  /** `owner` is the inverse of At: no two positions, of one file or of two, hold the same block. */
  ghost predicate Inverse(fs: Fs, owner: map<nat, Pos>) {
    && (forall b :: b in owner ==> b != 0 && ValidPos(fs, owner[b]) && At(fs, owner[b]) == b)
    && (forall p :: ValidPos(fs, p) && At(fs, p) != 0 ==> At(fs, p) in owner && owner[At(fs, p)] == p)
  }

  ghost predicate Shape(fs: Fs, owner: map<nat, Pos>) {
    && (forall i :: i in fs.inodes ==> |fs.inodes[i].data| == ROOTS)
    && (forall b :: b in owner && Interior(owner[b]) ==> b in fs.disk && |fs.disk[b]| == fs.n)
  }

  ghost function Owned(owner: map<nat, Pos>, ino: nat): set<nat> {
    set b | b in owner && owner[b].ino == ino
  }

  /** i_blocks counts the file's blocks, data and indirect, in units of 512 bytes. */
  ghost predicate Counted(fs: Fs, owner: map<nat, Pos>) {
    forall i :: i in fs.inodes ==> fs.inodes[i].blocks == fs.unit * |Owned(owner, i)|
  }

  ghost predicate Inv(fs: Fs, owner: map<nat, Pos>) {
    Shape(fs, owner) && Inverse(fs, owner) && Counted(fs, owner)
  }

  // ---------------------------------------------------------------- writing one slot

  /** The slot of position `p` can be written: its inode, or its indirect block, is there. */
  predicate SlotThere(fs: Fs, p: Pos) {
    && ValidPos(fs, p)
    && |fs.inodes[p.ino].data| == ROOTS
    && (p.path != [] ==>
          && At(fs, Parent(p)) != 0
          && At(fs, Parent(p)) in fs.disk && |fs.disk[At(fs, Parent(p))]| == fs.n)
  }

  function Zeros(n: nat): seq<nat> {
    seq(n, _ => 0)
  }

  /** The entries of the indirect block that holds the slot of `p`, with `v` stored in it. */
  function Entries(fs: Fs, p: Pos, v: nat): seq<nat>
    requires SlotThere(fs, p) && p.path != []
  {
    fs.disk[At(fs, Parent(p))][p.path[|p.path| - 1] := v]
  }

  /** Store `v` at position `p` and count it in i_blocks; a block stored there has just been
      zero-filled, and zero takes a block away. */
  function Put(fs: Fs, p: Pos, v: nat): Fs
    requires SlotThere(fs, p)
  {
    var i := fs.inodes[p.ino];
    var blocks := if v == 0 then i.blocks - fs.unit else i.blocks + fs.unit;
    var disk := if v == 0 then fs.disk else fs.disk[v := Zeros(fs.n)];
    if p.path == [] then
      fs.(inodes := fs.inodes[p.ino := Inode(i.data[p.root := v], blocks)], disk := disk)
    else
      fs.(inodes := fs.inodes[p.ino := i.(blocks := blocks)],
          disk := disk[At(fs, Parent(p)) := Entries(fs, p, v)])
  }

  /** Two positions with the same last step and parent are the same. */
  lemma SameSlot(x: Pos, p: Pos)
    requires x.path != [] && p.path != [] && Parent(x) == Parent(p)
    requires x.path[|x.path| - 1] == p.path[|p.path| - 1]
    ensures x == p
  {
    assert x.path == Parent(x).path + [x.path[|x.path| - 1]];
    assert p.path == Parent(p).path + [p.path[|p.path| - 1]];
  }

  /** What Put changes: that position, and nothing outside the tree below it. */
  lemma {:induction false} PutAt(fs: Fs, owner: map<nat, Pos>, p: Pos, v: nat, x: Pos)
    requires Shape(fs, owner) && Inverse(fs, owner) && SlotThere(fs, p) && v !in owner
    requires ValidPos(fs, x)
    ensures At(Put(fs, p, v), x) == if x == p then v else if Extends(x, p) then 0 else At(fs, x)
    decreases |x.path|
  {
    if x.path != [] {
      assert ValidPos(fs, Parent(x));
      PutAt(fs, owner, p, v, Parent(x));
      ExtendsParent(x, p);
      PutAtStep(fs, owner, p, v, x);
    }
  }

  lemma PutAtStep(fs: Fs, owner: map<nat, Pos>, p: Pos, v: nat, x: Pos)
    requires Shape(fs, owner) && Inverse(fs, owner) && SlotThere(fs, p) && v !in owner
    requires ValidPos(fs, x) && x.path != []
    requires var px := Parent(x);
             At(Put(fs, p, v), px) == if px == p then v else if Extends(px, p) then 0 else At(fs, px)
    ensures var px := Parent(x);
            At(Put(fs, p, v), x) == if x == p then v else if px == p || Extends(px, p) then 0 else At(fs, x)
  {
    var px := Parent(x);
    assert ValidPos(fs, px);
    if p.path != [] { assert ValidPos(fs, Parent(p)); }
    if px != p && !Extends(px, p) && At(fs, px) != 0 {
      assert owner[At(fs, px)] == px;
      if p.path != [] && At(fs, px) == At(fs, Parent(p)) {
        assert px == Parent(p);
        if x.path[|x.path| - 1] == p.path[|p.path| - 1] { SameSlot(x, p); }
      }
    }
  }

  /** With nothing below `p`, Put changes exactly one position. */
  lemma PutChangesOne(fs: Fs, owner: map<nat, Pos>, p: Pos, v: nat)
    requires Shape(fs, owner) && Inverse(fs, owner) && SlotThere(fs, p) && v !in owner
    requires forall x :: ValidPos(fs, x) && Extends(x, p) ==> At(fs, x) == 0
    ensures forall x :: ValidPos(fs, x) ==> At(Put(fs, p, v), x) == if x == p then v else At(fs, x)
  {
    forall x | ValidPos(fs, x) ensures At(Put(fs, p, v), x) == if x == p then v else At(fs, x) {
      PutAt(fs, owner, p, v, x);
    }
  }

  // ---------------------------------------------------------------- attaching and detaching a block

  lemma AttachInverse(fs: Fs, owner: map<nat, Pos>, p: Pos, v: nat)
    requires Shape(fs, owner) && Inverse(fs, owner) && SlotThere(fs, p)
    requires At(fs, p) == 0 && v != 0 && v !in owner
    ensures forall x :: ValidPos(fs, x) ==> At(Put(fs, p, v), x) == if x == p then v else At(fs, x)
    ensures Inverse(Put(fs, p, v), owner[v := p])
  {
    forall x | ValidPos(fs, x) && Extends(x, p) ensures At(fs, x) == 0 { NothingBelow(fs, p, x); }
    PutChangesOne(fs, owner, p, v);
    var t, own := Put(fs, p, v), owner[v := p];
    forall b | b in own ensures b != 0 && ValidPos(t, own[b]) && At(t, own[b]) == b {
      if b != v { assert ValidPos(fs, owner[b]); }
    }
    forall x | ValidPos(t, x) && At(t, x) != 0 ensures At(t, x) in own && own[At(t, x)] == x {
      assert ValidPos(fs, x);
    }
  }

  lemma AttachShape(fs: Fs, owner: map<nat, Pos>, p: Pos, v: nat)
    requires Shape(fs, owner) && SlotThere(fs, p) && v != 0
    ensures Shape(Put(fs, p, v), owner[v := p])
  {
    var t, own := Put(fs, p, v), owner[v := p];
    forall b | b in own && Interior(own[b]) ensures b in t.disk && |t.disk[b]| == t.n {
      assert b != v ==> b in owner;
    }
  }

  lemma UnitTimes(unit: nat, c: int)
    ensures unit * (c + 1) == unit * c + unit && unit * (c - 1) == unit * c - unit
  {
  }

  lemma OwnedAdd(owner: map<nat, Pos>, p: Pos, v: nat, i: nat)
    requires v !in owner
    ensures |Owned(owner[v := p], i)| == |Owned(owner, i)| + (if i == p.ino then 1 else 0)
  {
    assert Owned(owner[v := p], i) == if i == p.ino then Owned(owner, i) + {v} else Owned(owner, i);
  }

  lemma OwnedLess(owner: map<nat, Pos>, b: nat, i: nat)
    requires b in owner
    ensures |Owned(owner - {b}, i)| == |Owned(owner, i)| - (if i == owner[b].ino then 1 else 0)
  {
    assert Owned(owner - {b}, i) == Owned(owner, i) - {b};
  }

  lemma PutBlocks(fs: Fs, p: Pos, v: nat)
    requires SlotThere(fs, p)
    ensures var t := Put(fs, p, v);
            && t.unit == fs.unit && t.inodes.Keys == fs.inodes.Keys
            && forall i :: i in fs.inodes ==>
                 t.inodes[i].blocks == fs.inodes[i].blocks + (if i != p.ino then 0 else if v == 0 then 0 - fs.unit else fs.unit)
  {
  }

  lemma AttachCounted(fs: Fs, owner: map<nat, Pos>, p: Pos, v: nat)
    requires Counted(fs, owner) && SlotThere(fs, p) && v != 0 && v !in owner
    ensures Counted(Put(fs, p, v), owner[v := p])
  {
    PutBlocks(fs, p, v);
    forall i | i in fs.inodes ensures Put(fs, p, v).inodes[i].blocks == fs.unit * |Owned(owner[v := p], i)| {
      OwnedAdd(owner, p, v, i);
      UnitTimes(fs.unit, |Owned(owner, i)|);
    }
  }

  lemma DetachAt(fs: Fs, owner: map<nat, Pos>, p: Pos)
    requires Shape(fs, owner) && Inverse(fs, owner) && SlotThere(fs, p) && EmptyBelow(fs, p)
    ensures Dropped(fs, Put(fs, p, 0), p)
  {
    PutChangesOne(fs, owner, p, 0);
    PutBlocks(fs, p, 0);
  }

  lemma DetachInverse(fs: Fs, owner: map<nat, Pos>, p: Pos)
    requires Inverse(fs, owner) && SlotThere(fs, p) && At(fs, p) != 0 && Dropped(fs, Put(fs, p, 0), p)
    ensures Inverse(Put(fs, p, 0), owner - {At(fs, p)})
  {
    var t, own := Put(fs, p, 0), owner - {At(fs, p)};
    forall b | b in own ensures b != 0 && ValidPos(t, own[b]) && At(t, own[b]) == b {
      assert ValidPos(fs, owner[b]);
    }
    forall x | ValidPos(t, x) && At(t, x) != 0 ensures At(t, x) in own && own[At(t, x)] == x {
      assert ValidPos(fs, x);
    }
  }

  lemma DetachShape(fs: Fs, owner: map<nat, Pos>, p: Pos)
    requires Shape(fs, owner) && SlotThere(fs, p)
    ensures Shape(Put(fs, p, 0), owner - {At(fs, p)})
  {
    var t, own := Put(fs, p, 0), owner - {At(fs, p)};
    forall b | b in own && Interior(own[b]) ensures b in t.disk && |t.disk[b]| == t.n {
      assert b in owner;
    }
  }

  lemma DetachCounted(fs: Fs, owner: map<nat, Pos>, p: Pos)
    requires Counted(fs, owner) && SlotThere(fs, p) && At(fs, p) in owner && owner[At(fs, p)] == p
    ensures Counted(Put(fs, p, 0), owner - {At(fs, p)})
  {
    PutBlocks(fs, p, 0);
    forall i | i in fs.inodes ensures Put(fs, p, 0).inodes[i].blocks == fs.unit * |Owned(owner - {At(fs, p)}, i)| {
      OwnedLess(owner, At(fs, p), i);
      UnitTimes(fs.unit, |Owned(owner, i)|);
    }
  }

  // ---------------------------------------------------------------- file block numbers

  /** Blocks a file can have: direct, single, double and triple indirect. */
  function Limit(n: nat): nat {
    NDIR + n + n * n + n * n * n
  }

  function DoublePath(n: nat, d: nat): seq<nat>
    requires n > 0
  {
    [d / n, d % n]
  }

  function TriplePath(n: nat, nn: nat, t: nat): seq<nat>
    requires n > 0 && nn > 0
  {
    [t / nn] + DoublePath(n, t % nn)
  }

  /** The leaf that holds file block `k`, by the divisions ext2_bmap makes. */
  function Leaf(n: nat, ino: nat, k: nat): Pos
    requires n > 0
  {
    if k < NDIR then Pos(ino, k, [])
    else if k < NDIR + n then Pos(ino, IND, [k - NDIR])
    else if k < NDIR + n + n * n then Pos(ino, DIND, DoublePath(n, k - NDIR - n))
    else Pos(ino, TIND, TriplePath(n, n * n, k - NDIR - n - n * n))
  }

  lemma DivBelow(a: nat, b: nat, c: nat)
    requires b > 0 && a < c * b
    ensures a / b < c
  {
    var q := a / b;
    assert a == q * b + a % b;
    assert q >= c ==> q * b >= c * b;
  }

  lemma LeafValid(fs: Fs, ino: nat, k: nat)
    requires fs.n > 0 && ino in fs.inodes && k < Limit(fs.n)
    ensures ValidPos(fs, Leaf(fs.n, ino, k)) && !Interior(Leaf(fs.n, ino, k))
  {
    var n := fs.n;
    if k < NDIR + n {
    } else if k < NDIR + n + n * n {
      DivBelow(k - NDIR - n, n, n);
    } else {
      var t := k - NDIR - n - n * n;
      assert t < n * (n * n);
      DivBelow(t, n * n, n);
      DivBelow(t % (n * n), n, n);
    }
  }

  /** What FOR_READING sees: the block of file block `k`, zero for a hole. */
  function BlockOf(fs: Fs, ino: nat, k: nat): nat
    requires fs.n > 0
  {
    At(fs, Leaf(fs.n, ino, k))
  }

  /** Every place of every tree holds what it held, but for empty ones on the way to `leaf`. */
  ghost predicate SameBut(s: Fs, t: Fs, leaf: Pos) {
    && t.n == s.n && t.inodes.Keys == s.inodes.Keys
    && forall x :: ValidPos(s, x) && (At(s, x) != 0 || !AtOrBelow(leaf, x)) ==> At(t, x) == At(s, x)
  }

  lemma ChildAt(fs: Fs, owner: map<nat, Pos>, p: Pos, j: nat)
    requires Shape(fs, owner) && Inverse(fs, owner)
    requires ValidPos(fs, p) && Interior(p) && At(fs, p) != 0 && j < fs.n
    ensures At(fs, p) in fs.disk && |fs.disk[At(fs, p)]| == fs.n
    ensures ValidPos(fs, Child(p, j)) && SlotThere(fs, Child(p, j))
    ensures fs.disk[At(fs, p)][j] == At(fs, Child(p, j))
  {
    ChildParent(p, j);
    assert owner[At(fs, p)] == p;
  }

  lemma {:induction false} EmptyAt(fs: Fs, x: Pos)
    requires forall i :: i in fs.inodes ==> fs.inodes[i].data == Zeros(ROOTS)
    ensures At(fs, x) == 0
    decreases |x.path|
  {
    if x.path != [] { EmptyAt(fs, Parent(x)); }
  }

  datatype Result = Ok(b: nat) | NoSpace

  /** No block is lost and none is in two places: what is in use is in a tree, or reserved. */
  ghost predicate Accounted(used: set<nat>, owner: map<nat, Pos>, reserved: set<nat>) {
    used == owner.Keys + reserved && owner.Keys !! reserved
  }

  lemma AccountedMore(used: set<nat>, owner: map<nat, Pos>, reserved: set<nat>, b: nat, p: Pos)
    requires Accounted(used, owner, reserved) && b !in used
    ensures Accounted(used + {b}, owner[b := p], reserved) && b !in owner
  {
  }

  lemma AccountedLess(used: set<nat>, owner: map<nat, Pos>, reserved: set<nat>, b: nat)
    requires Accounted(used, owner, reserved) && b in owner
    ensures Accounted(used - {b}, owner - {b}, reserved) && b in used
  {
  }

  lemma HasBlock(used: set<nat>, owner: map<nat, Pos>, reserved: set<nat>, b: nat)
    requires Accounted(used, owner, reserved) && b in owner
    ensures b in used
  {
  }

  class FileSystem {
    const sb: Bitmaps.Superblock
    const n: nat
    const unit: nat
    var inodes: map<nat, Inode>
    var disk: map<nat, seq<nat>>
    ghost var owner: map<nat, Pos>
    ghost const reserved: set<nat>

    function S(): Fs
      reads this
    {
      Fs(n, unit, inodes, disk)
    }

    /** The blocks marked in the bitmaps are those in the files' trees and those reserved, which
        never change; block zero is nobody's. */
    ghost predicate Valid()
      reads this, sb
    {
      && n > 0 && Inv(S(), owner)
      && sb.Valid() && Accounted(sb.Blocks(), owner, reserved)
      && (sb.geo.first > 0 || 0 in sb.Blocks())
    }

    /** A volume whose files `inos` are all empty. */
    constructor (sb: Bitmaps.Superblock, n: nat, unit: nat, inos: set<nat>)
      requires n > 0 && sb.Valid() && (sb.geo.first > 0 || 0 in sb.Blocks())
      ensures Valid() && this.sb == sb && this.n == n && this.unit == unit
      ensures inodes.Keys == inos && reserved == sb.Blocks() && forall x :: At(S(), x) == 0
    {
      this.sb, this.n, this.unit := sb, n, unit;
      reserved := sb.Blocks();
      inodes := map i | i in inos :: Inode(Zeros(ROOTS), 0);
      disk := map[];
      owner := map[];
      new;
      forall x ensures At(S(), x) == 0 { EmptyAt(S(), x); }
      forall i | i in inodes ensures inodes[i].blocks == unit * |Owned(owner, i)| {
        assert Owned(owner, i) == {};
      }
    }

    /** A new zero-filled block from ext2_balloc. */
    method NewBlock() returns (r: Option<nat>)
      requires sb.Valid() && (sb.geo.first > 0 || 0 in sb.Blocks())
      modifies this, sb
      ensures sb.Valid() && inodes == old(inodes) && owner == old(owner)
      ensures r == None ==>
                && disk == old(disk) && sb.Blocks() == old(sb.Blocks())
                && forall b :: sb.geo.first <= b < sb.geo.blocks ==> b in sb.Blocks()
      ensures r.Some? ==>
                && r.value != 0 && disk == old(disk)[r.value := Zeros(n)]
                && r.value !in old(sb.Blocks()) && sb.Blocks() == old(sb.Blocks()) + {r.value}
    {
      r := sb.Balloc();
      if r.Some? { disk := disk[r.value := Zeros(n)]; }
    }

    /** A new block in a slot of the inode. */
    method AllocRoot(ino: nat, k: nat) returns (r: Option<nat>)
      requires sb.Valid() && (sb.geo.first > 0 || 0 in sb.Blocks())
      requires SlotThere(S(), Pos(ino, k, []))
      modifies this, sb
      ensures sb.Valid()
      ensures r == None ==>
                && S() == old(S()) && owner == old(owner) && sb.Blocks() == old(sb.Blocks())
                && forall b :: sb.geo.first <= b < sb.geo.blocks ==> b in sb.Blocks()
      ensures r.Some? ==>
                && r.value != 0 && S() == Put(old(S()), Pos(ino, k, []), r.value)
                && owner == old(owner)[r.value := Pos(ino, k, [])]
                && r.value !in old(sb.Blocks()) && sb.Blocks() == old(sb.Blocks()) + {r.value}
    {
      r := NewBlock();
      if r == None { return; }
      var i := inodes[ino];
      inodes := inodes[ino := Inode(i.data[k := r.value], i.blocks + unit)];
      owner := owner[r.value := Pos(ino, k, [])];
    }

    /** A new block in entry `j` of indirect block `q`, which sits at position `p`. */
    method AllocEntry(ino: nat, q: nat, j: nat, ghost p: Pos) returns (r: Option<nat>)
      requires sb.Valid() && (sb.geo.first > 0 || 0 in sb.Blocks())
      requires SlotThere(S(), Child(p, j)) && p.ino == ino && At(S(), p) == q && q in sb.Blocks()
      modifies this, sb
      ensures sb.Valid()
      ensures r == None ==>
                && S() == old(S()) && owner == old(owner) && sb.Blocks() == old(sb.Blocks())
                && forall b :: sb.geo.first <= b < sb.geo.blocks ==> b in sb.Blocks()
      ensures r.Some? ==>
                && r.value != 0 && S() == Put(old(S()), Child(p, j), r.value)
                && owner == old(owner)[r.value := Child(p, j)]
                && r.value !in old(sb.Blocks()) && sb.Blocks() == old(sb.Blocks()) + {r.value}
    {
      ChildParent(p, j);
      assert Child(p, j).path[|p.path|] == j;
      r := NewBlock();
      if r == None { return; }
      var entries: seq<nat> := disk[q][j := r.value];
      disk := disk[q := entries];
      inodes := inodes[ino := inodes[ino].(blocks := inodes[ino].blocks + unit)];
      owner := owner[r.value := Child(p, j)];
    }

    /** ext2_bmap's growing step in the inode: a missing block is allocated, zeroed and linked. */
    method GrowRoot(ino: nat, k: nat) returns (r: Option<nat>)
      requires Valid() && ino in inodes && k < ROOTS && At(S(), Pos(ino, k, [])) == 0
      modifies this, sb
      ensures Valid()
      ensures r.Some? ==> Grown(old(S()), S(), Pos(ino, k, []), r.value)
      ensures r.Some? ==> r.value !in old(sb.Blocks()) && sb.Blocks() == old(sb.Blocks()) + {r.value}
      ensures r == None ==>
                && S() == old(S()) && sb.Blocks() == old(sb.Blocks())
                && forall b :: sb.geo.first <= b < sb.geo.blocks ==> b in sb.Blocks()
    {
      ghost var s, own := S(), owner;
      hide Accounted;
      r := AllocRoot(ino, k);
      if r.Some? {
        AccountedMore(old(sb.Blocks()), own, reserved, r.value, Pos(ino, k, []));
        AttachAll(s, own, Pos(ino, k, []), r.value);
      }
    }

    /** The same in entry `j` of the indirect block `q` at position `p`. */
    method GrowEntry(ino: nat, q: nat, j: nat, ghost p: Pos) returns (r: Option<nat>)
      requires Valid() && ValidPos(S(), p) && Interior(p) && p.ino == ino && j < n
      requires q != 0 && At(S(), p) == q && At(S(), Child(p, j)) == 0
      modifies this, sb
      ensures Valid()
      ensures r.Some? ==> Grown(old(S()), S(), Child(p, j), r.value)
      ensures r.Some? ==> r.value !in old(sb.Blocks()) && sb.Blocks() == old(sb.Blocks()) + {r.value}
      ensures r == None ==>
                && S() == old(S()) && sb.Blocks() == old(sb.Blocks())
                && forall b :: sb.geo.first <= b < sb.geo.blocks ==> b in sb.Blocks()
    {
      ghost var s, own := S(), owner;
      ChildAt(s, own, p, j);
      assert q in own;
      hide Accounted;
      HasBlock(sb.Blocks(), own, reserved, q);
      r := AllocEntry(ino, q, j, p);
      if r.Some? {
        AccountedMore(old(sb.Blocks()), own, reserved, r.value, Child(p, j));
        AttachAll(s, own, Child(p, j), r.value);
      }
    }

    /** Every block of the volume is in use. */
    ghost predicate Full()
      requires sb.Valid()
      reads this, sb
    {
      forall b :: sb.geo.first <= b < sb.geo.blocks ==> b in sb.Blocks()
    }

    /** One level of ext2_bmap in the inode: the block found there, or made there when writing. */
    method StepRoot(ino: nat, k: nat, writing: bool) returns (r: Result)
      requires Valid() && ino in inodes && k < ROOTS
      modifies this, sb
      ensures Valid() && (r.NoSpace? ==> Full())
      ensures Stepped(old(S()), S(), Pos(ino, k, []), writing, r, old(sb.Blocks()), sb.Blocks())
    {
      if inodes[ino].data[k] != 0 || !writing { return Ok(inodes[ino].data[k]); }
      var nb := GrowRoot(ino, k);
      if nb == None { return NoSpace; }
      return Ok(nb.value);
    }

    /** One level of ext2_bmap in an indirect block. */
    method StepEntry(ino: nat, q: nat, j: nat, writing: bool, ghost p: Pos) returns (r: Result)
      requires Valid() && ValidPos(S(), p) && Interior(p) && p.ino == ino && j < n
      requires q != 0 && At(S(), p) == q
      modifies this, sb
      ensures Valid() && (r.NoSpace? ==> Full())
      ensures Stepped(old(S()), S(), Child(p, j), writing, r, old(sb.Blocks()), sb.Blocks())
    {
      ChildAt(S(), owner, p, j);
      if disk[q][j] != 0 || !writing { return Ok(disk[q][j]); }
      var nb := GrowEntry(ino, q, j, p);
      if nb == None { return NoSpace; }
      return Ok(nb.value);
    }

    /** A level above the leaf: go on below the block returned, or end with the leaf missing. */
    method Walk(ino: nat, q: nat, j: nat, writing: bool, ghost m: nat, ghost leaf: Pos, ghost s: Fs,
                ghost used: set<nat>)
      returns (r: Result)
      requires Valid() && ValidPos(s, leaf) && !Interior(leaf) && leaf.ino == ino
      requires m + 1 < |leaf.path| && j == leaf.path[m] && q != 0 && At(S(), Prefix(leaf, m)) == q
      requires Walking(s, S(), leaf, writing, used, sb.Blocks())
      modifies this, sb
      ensures Valid() && (r.NoSpace? ==> Full())
      ensures r.Ok? && r.b != 0 ==> Walking(s, S(), leaf, writing, used, sb.Blocks()) && At(S(), Prefix(leaf, m + 1)) == r.b
      ensures r.NoSpace? || r.b == 0 ==> Mapped(s, S(), leaf, writing, r, used, sb.Blocks())
    {
      ghost var mid, now := S(), sb.Blocks();
      PrefixStep(mid, leaf, m);
      r := StepEntry(ino, q, j, writing, Prefix(leaf, m));
      NextStep(s, mid, S(), leaf, Prefix(leaf, m + 1), writing, r, used, now, sb.Blocks());
    }

    /** The last level. */
    method Finish(ino: nat, q: nat, j: nat, writing: bool, ghost m: nat, ghost leaf: Pos, ghost s: Fs,
                  ghost used: set<nat>)
      returns (r: Result)
      requires Valid() && ValidPos(s, leaf) && !Interior(leaf) && leaf.ino == ino
      requires m + 1 == |leaf.path| && j == leaf.path[m] && q != 0 && At(S(), Prefix(leaf, m)) == q
      requires Walking(s, S(), leaf, writing, used, sb.Blocks())
      modifies this, sb
      ensures Valid() && (r.NoSpace? ==> Full())
      ensures Mapped(s, S(), leaf, writing, r, used, sb.Blocks())
    {
      ghost var mid, now := S(), sb.Blocks();
      PrefixStep(mid, leaf, m);
      r := StepEntry(ino, q, j, writing, Prefix(leaf, m));
      LastStep(s, mid, S(), leaf, writing, r, used, now, sb.Blocks());
    }

    /** The first level of an indirect tree, in the inode. */
    method Enter(ino: nat, level: nat, writing: bool, ghost leaf: Pos) returns (r: Result)
      requires Valid() && ValidPos(S(), leaf) && !Interior(leaf) && leaf.path != []
      requires leaf.ino == ino && leaf.root == level
      modifies this, sb
      ensures Valid() && (r.NoSpace? ==> Full())
      ensures r.Ok? && r.b != 0 ==>
                && Walking(old(S()), S(), leaf, writing, old(sb.Blocks()), sb.Blocks())
                && At(S(), Prefix(leaf, 0)) == r.b
      ensures r.NoSpace? || r.b == 0 ==> Mapped(old(S()), S(), leaf, writing, r, old(sb.Blocks()), sb.Blocks())
    {
      ghost var s, used := S(), sb.Blocks();
      r := StepRoot(ino, level, writing);
      assert Prefix(leaf, 0) == Pos(ino, level, []);
      NextStep(s, s, S(), leaf, Prefix(leaf, 0), writing, r, used, used, sb.Blocks());
    }

    /** The two levels of ext2_bmap below a doubly indirect block. */
    method BelowDouble(ino: nat, q: nat, i: nat, j: nat, writing: bool, ghost m: nat, ghost leaf: Pos, ghost s: Fs,
                       ghost used: set<nat>)
      returns (r: Result)
      requires Valid() && ValidPos(s, leaf) && !Interior(leaf) && leaf.ino == ino
      requires |leaf.path| == m + 2 && leaf.path[m] == i && leaf.path[m + 1] == j
      requires q != 0 && At(S(), Prefix(leaf, m)) == q && Walking(s, S(), leaf, writing, used, sb.Blocks())
      modifies this, sb
      ensures Valid() && (r.NoSpace? ==> Full())
      ensures Mapped(s, S(), leaf, writing, r, used, sb.Blocks())
    {
      hide Walking, Mapped, Inv, Accounted, Bitmaps.Inv, At;
      r := Walk(ino, q, i, writing, m, leaf, s, used);
      if r.NoSpace? || r.b == 0 { return; }
      r := Finish(ino, r.b, j, writing, m + 1, leaf, s, used);
    }

    /** The three levels below a triply indirect block. */
    method BelowTriple(ino: nat, q: nat, h: nat, i: nat, j: nat, writing: bool, ghost leaf: Pos, ghost s: Fs,
                       ghost used: set<nat>)
      returns (r: Result)
      requires Valid() && ValidPos(s, leaf) && !Interior(leaf) && leaf.ino == ino
      requires |leaf.path| == 3 && leaf.path[0] == h && leaf.path[1] == i && leaf.path[2] == j
      requires q != 0 && At(S(), Prefix(leaf, 0)) == q && Walking(s, S(), leaf, writing, used, sb.Blocks())
      modifies this, sb
      ensures Valid() && (r.NoSpace? ==> Full())
      ensures Mapped(s, S(), leaf, writing, r, used, sb.Blocks())
    {
      hide Walking, Mapped, Inv, Accounted, Bitmaps.Inv, At;
      r := Walk(ino, q, h, writing, 0, leaf, s, used);
      if r.NoSpace? || r.b == 0 { return; }
      r := BelowDouble(ino, r.b, i, j, writing, 1, leaf, s, used);
    }

    /** ext2_bmap: the disk block of file block `k`, grown level by level when writing. */
    method Bmap(ino: nat, k: nat, writing: bool) returns (r: Result)
      requires Valid() && ino in inodes && k < Limit(n)
      modifies this, sb
      ensures Valid() && (r.NoSpace? ==> Full())
      ensures Mapped(old(S()), S(), Leaf(n, ino, k), writing, r, old(sb.Blocks()), sb.Blocks())
    {
      ghost var leaf, s, used := Leaf(n, ino, k), S(), sb.Blocks();
      LeafValid(s, ino, k);
      if k < NDIR {
        r := StepRoot(ino, k, writing);
        LastStep(s, s, S(), leaf, writing, r, used, used, sb.Blocks());
        return;
      }
      var level, h, i, j := Slots(n, k, ino);
      r := Enter(ino, level, writing, leaf);
      if r.NoSpace? || r.b == 0 { return; }
      if level == IND {
        r := Finish(ino, r.b, j, writing, 0, leaf, s, used);
      } else if level == DIND {
        r := BelowDouble(ino, r.b, i, j, writing, 0, leaf, s, used);
      } else {
        r := BelowTriple(ino, r.b, h, i, j, writing, leaf, s, used);
      }
    }

    // -------------------------------------------------------------- freeing

    /** Free the block in a slot of the inode and clear the slot. */
    method FreeRoot(ino: nat, k: nat)
      requires sb.Valid() && SlotThere(S(), Pos(ino, k, []))
      requires inodes[ino].data[k] != 0 && inodes[ino].data[k] in sb.Blocks()
      modifies this, sb
      ensures sb.Valid() && S() == Put(old(S()), Pos(ino, k, []), 0)
      ensures var b := old(inodes[ino].data[k]); owner == old(owner) - {b} && sb.Blocks() == old(sb.Blocks()) - {b}
    {
      var i := inodes[ino];
      var strays := sb.Bfree(i.data[k]);
      inodes := inodes[ino := Inode(i.data[k := 0], i.blocks - unit)];
      owner := owner - {i.data[k]};
    }

    /** Free the block in entry `j` of indirect block `q` and clear the entry. */
    method FreeEntry(ino: nat, q: nat, j: nat, ghost p: Pos)
      requires sb.Valid() && SlotThere(S(), Child(p, j)) && p.ino == ino && At(S(), p) == q
      requires q in disk && j < |disk[q]| && disk[q][j] != 0 && disk[q][j] in sb.Blocks()
      modifies this, sb
      ensures sb.Valid() && S() == Put(old(S()), Child(p, j), 0)
      ensures var b := old(disk[q][j]); owner == old(owner) - {b} && sb.Blocks() == old(sb.Blocks()) - {b}
    {
      ChildParent(p, j);
      assert Child(p, j).path[|p.path|] == j;
      var b := disk[q][j];
      var strays := sb.Bfree(b);
      var entries: seq<nat> := disk[q][j := 0];
      disk := disk[q := entries];
      inodes := inodes[ino := inodes[ino].(blocks := inodes[ino].blocks - unit)];
      owner := owner - {b};
    }

    method DropRoot(ino: nat, k: nat)
      requires Valid() && ino in inodes && k < ROOTS && At(S(), Pos(ino, k, [])) != 0
      requires EmptyBelow(S(), Pos(ino, k, []))
      modifies this, sb
      ensures Valid() && Dropped(old(S()), S(), Pos(ino, k, []))
      ensures Shed(old(sb.Blocks()), old(owner), sb.Blocks(), owner)
    {
      ghost var s, own, p := S(), owner, Pos(ino, k, []);
      assert At(s, p) in own;
      AccountedLess(sb.Blocks(), own, reserved, At(s, p));
      hide Accounted;
      FreeRoot(ino, k);
      DetachAll(s, own, p);
      ShedOne(old(sb.Blocks()), own, At(s, p));
    }

    method DropEntry(ino: nat, q: nat, j: nat, ghost p: Pos)
      requires Valid() && ValidPos(S(), p) && Interior(p) && p.ino == ino && j < n
      requires q != 0 && At(S(), p) == q && At(S(), Child(p, j)) != 0 && EmptyBelow(S(), Child(p, j))
      modifies this, sb
      ensures Valid() && Dropped(old(S()), S(), Child(p, j))
      ensures Shed(old(sb.Blocks()), old(owner), sb.Blocks(), owner)
    {
      ghost var s, own := S(), owner;
      ChildAt(s, own, p, j);
      assert At(s, Child(p, j)) in own;
      AccountedLess(sb.Blocks(), own, reserved, At(s, Child(p, j)));
      hide Accounted;
      FreeEntry(ino, q, j, p);
      DetachAll(s, own, Child(p, j));
      ShedOne(old(sb.Blocks()), own, At(s, Child(p, j)));
    }

    /** One iteration of free_dblock. */
    method FreeDataSlot(ino: nat, q: nat, m: nat, offset: nat, ghost p: Pos, ghost s: Fs)
      requires Valid() && ValidPos(s, p) && p.ino == ino && |p.path| + 1 == Level(p.root)
      requires q != 0 && At(s, p) == q && offset <= m < n && CutPart(s, S(), p, offset, m)
      modifies this, sb
      ensures Valid() && CutPart(s, S(), p, offset, m + 1)
      ensures Shed(old(sb.Blocks()), old(owner), sb.Blocks(), owner)
    {
      hide Shed, SlotDone, Dropped;
      ghost var t, c := S(), Child(p, m);
      ChildAt(t, owner, p, m);
      if disk[q][m] == 0 {
        CutEmpty(s, t, p, offset, m);
        ShedNone(sb.Blocks(), owner);
      } else {
        CutLeaf(t, c, 0);
        DropEntry(ino, q, m, p);
        SlotDoneBy(t, t, S(), c, 0);
        CutStep(s, t, S(), p, offset, offset, 0, m);
      }
    }

    /** free_dblock: the data blocks an indirect block lists from `offset` on are freed. */
    method FreeDblock(ino: nat, q: nat, offset: nat, ghost p: Pos)
      requires Valid() && ValidPos(S(), p) && p.ino == ino && |p.path| + 1 == Level(p.root)
      requires q != 0 && At(S(), p) == q
      modifies this, sb
      ensures Valid() && CutUnder(old(S()), S(), p, offset)
      ensures Shed(old(sb.Blocks()), old(owner), sb.Blocks(), owner)
    {
      ghost var s := S();
      CutStart(s, p, offset, offset, 0);
      var m := offset;
      while m < n
        invariant offset <= m && Valid() && CutPart(s, S(), p, offset, m)
        invariant Shed(old(sb.Blocks()), old(owner), sb.Blocks(), owner)
      {
        ghost var used, own := sb.Blocks(), owner;
        FreeDataSlot(ino, q, m, offset, p, s);
        ShedTwice(old(sb.Blocks()), old(owner), used, own, sb.Blocks(), owner);
        m := m + 1;
      }
      CutEnd(s, S(), p, offset, m);
    }

    /** The indirect block `b` in slot `m` of `q` is cut from leaf `d` on, and freed when nothing is left. */
    method FreeIndirect(ino: nat, q: nat, m: nat, b: nat, d: nat, ghost p: Pos)
      requires Valid() && ValidPos(S(), p) && p.ino == ino && |p.path| + 2 == Level(p.root) && m < n
      requires q != 0 && At(S(), p) == q && b != 0 && At(S(), Child(p, m)) == b
      modifies this, sb
      ensures Valid() && SlotDone(old(S()), S(), Child(p, m), d)
      ensures Shed(old(sb.Blocks()), old(owner), sb.Blocks(), owner)
    {
      ghost var t, c := S(), Child(p, m);
      ChildAt(t, owner, p, m);
      FreeDblock(ino, b, d, c);
      ghost var u, used, own := S(), sb.Blocks(), owner;
      CutKeepsAbove(t, u, p, m, d);
      if d == 0 {
        DropEntry(ino, q, m, p);
        ShedTwice(old(sb.Blocks()), old(owner), used, own, sb.Blocks(), owner);
      }
      SlotDoneBy(t, u, S(), c, d);
    }

    /** One iteration of free_indblock. */
    method FreeIndSlot(ino: nat, q: nat, m: nat, d: nat, ghost off: nat, ghost m0: nat, ghost d0: nat, ghost p: Pos,
                       ghost s: Fs)
      requires Valid() && ValidPos(s, p) && p.ino == ino && |p.path| + 2 == Level(p.root)
      requires q != 0 && At(s, p) == q && m0 <= m < n && CutPart(s, S(), p, off, m)
      requires OffAt(n, p, off, m0, d0) && d == if m == m0 then d0 else 0
      modifies this, sb
      ensures Valid() && CutPart(s, S(), p, off, m + 1)
      ensures Shed(old(sb.Blocks()), old(owner), sb.Blocks(), owner)
    {
      ghost var t := S();
      StillThere(s, t, p, off, m);
      ChildAt(t, owner, p, m);
      if disk[q][m] == 0 {
        CutEmpty(s, t, p, off, m);
        ShedNone(sb.Blocks(), owner);
      } else {
        FreeIndirect(ino, q, m, disk[q][m], d, p);
        CutStep(s, t, S(), p, off, m0, d0, m);
      }
    }

    /** The loop of free_indblock, from slot `m0`, the first one `d0` leaves in. */
    method FreeIndFrom(ino: nat, q: nat, m0: nat, d0: nat, ghost off: nat, ghost p: Pos)
      requires Valid() && ValidPos(S(), p) && p.ino == ino && |p.path| + 2 == Level(p.root)
      requires q != 0 && At(S(), p) == q && OffAt(n, p, off, m0, d0)
      modifies this, sb
      ensures Valid() && CutUnder(old(S()), S(), p, off)
      ensures Shed(old(sb.Blocks()), old(owner), sb.Blocks(), owner)
    {
      ghost var s := S();
      CutStart(s, p, off, m0, d0);
      var m, dblock := m0, d0;
      while m < n
        invariant m0 <= m && Valid() && CutPart(s, S(), p, off, m)
        invariant dblock == if m == m0 then d0 else 0
        invariant Shed(old(sb.Blocks()), old(owner), sb.Blocks(), owner)
      {
        ghost var used, own := sb.Blocks(), owner;
        FreeIndSlot(ino, q, m, dblock, off, m0, d0, p, s);
        ShedTwice(old(sb.Blocks()), old(owner), used, own, sb.Blocks(), owner);
        dblock := 0;
        m := m + 1;
      }
      CutEnd(s, S(), p, off, m);
    }

    /** free_indblock: everything below a doubly indirect block from leaf `offset` on. */
    method FreeIndblock(ino: nat, q: nat, offset: nat, ghost p: Pos)
      requires Valid() && ValidPos(S(), p) && p.ino == ino && |p.path| + 2 == Level(p.root)
      requires q != 0 && At(S(), p) == q
      modifies this, sb
      ensures Valid() && CutUnder(old(S()), S(), p, offset)
      ensures Shed(old(sb.Blocks()), old(owner), sb.Blocks(), owner)
    {
      var m0, d0 := FirstSlot(n, offset, p);
      FreeIndFrom(ino, q, m0, d0, offset, p);
    }

    /** The doubly indirect block `b` in slot `m` of the triply indirect block `q`. */
    method FreeDouble(ino: nat, q: nat, m: nat, b: nat, d: nat, ghost p: Pos)
      requires Valid() && ValidPos(S(), p) && p.ino == ino && |p.path| + 3 == Level(p.root) && m < n
      requires q != 0 && At(S(), p) == q && b != 0 && At(S(), Child(p, m)) == b
      modifies this, sb
      ensures Valid() && SlotDone(old(S()), S(), Child(p, m), d)
      ensures Shed(old(sb.Blocks()), old(owner), sb.Blocks(), owner)
    {
      ghost var t, c := S(), Child(p, m);
      ChildAt(t, owner, p, m);
      FreeIndblock(ino, b, d, c);
      ghost var u, used, own := S(), sb.Blocks(), owner;
      CutKeepsAbove(t, u, p, m, d);
      if d == 0 {
        DropEntry(ino, q, m, p);
        ShedTwice(old(sb.Blocks()), old(owner), used, own, sb.Blocks(), owner);
      }
      SlotDoneBy(t, u, S(), c, d);
    }

    /** One iteration of the loop over a triply indirect block in ext2_truncate. */
    method FreeTripleSlot(ino: nat, q: nat, m: nat, d: nat, ghost off: nat, ghost m0: nat, ghost d0: nat,
                          ghost p: Pos, ghost s: Fs)
      requires Valid() && ValidPos(s, p) && p.ino == ino && |p.path| + 3 == Level(p.root)
      requires q != 0 && At(s, p) == q && m0 <= m < n && CutPart(s, S(), p, off, m)
      requires OffAt(n, p, off, m0, d0) && d == if m == m0 then d0 else 0
      modifies this, sb
      ensures Valid() && CutPart(s, S(), p, off, m + 1)
      ensures Shed(old(sb.Blocks()), old(owner), sb.Blocks(), owner)
    {
      ghost var t := S();
      StillThere(s, t, p, off, m);
      ChildAt(t, owner, p, m);
      if disk[q][m] == 0 {
        CutEmpty(s, t, p, off, m);
        ShedNone(sb.Blocks(), owner);
      } else {
        FreeDouble(ino, q, m, disk[q][m], d, p);
        CutStep(s, t, S(), p, off, m0, d0, m);
      }
    }

    /** The loop over a triply indirect block in ext2_truncate. */
    method FreeTripleFrom(ino: nat, q: nat, m0: nat, d0: nat, ghost off: nat, ghost p: Pos)
      requires Valid() && ValidPos(S(), p) && p.ino == ino && |p.path| + 3 == Level(p.root)
      requires q != 0 && At(S(), p) == q && OffAt(n, p, off, m0, d0)
      modifies this, sb
      ensures Valid() && CutUnder(old(S()), S(), p, off)
      ensures Shed(old(sb.Blocks()), old(owner), sb.Blocks(), owner)
    {
      ghost var s := S();
      CutStart(s, p, off, m0, d0);
      var m, indblock := m0, d0;
      while m < n
        invariant m0 <= m && Valid() && CutPart(s, S(), p, off, m)
        invariant indblock == if m == m0 then d0 else 0
        invariant Shed(old(sb.Blocks()), old(owner), sb.Blocks(), owner)
      {
        ghost var used, own := sb.Blocks(), owner;
        FreeTripleSlot(ino, q, m, indblock, off, m0, d0, p, s);
        ShedTwice(old(sb.Blocks()), old(owner), used, own, sb.Blocks(), owner);
        indblock := 0;
        m := m + 1;
      }
      CutEnd(s, S(), p, off, m);
    }

    // -------------------------------------------------------------- truncating

    /** One direct block of ext2_truncate. */
    method CutDirectSlot(ino: nat, r: nat, ghost e: nat, ghost s: Fs)
      requires Valid() && ino in inodes && r < NDIR && e <= r && CutRoots(s, S(), ino, e, r)
      modifies this, sb
      ensures Valid() && CutRoots(s, S(), ino, e, r + 1)
      ensures Shed(old(sb.Blocks()), old(owner), sb.Blocks(), owner)
    {
      ghost var t, p := S(), Pos(ino, r, []);
      if inodes[ino].data[r] == 0 {
        SlotEmpty(t, p, 0);
        ShedNone(sb.Blocks(), owner);
      } else {
        CutLeaf(t, p, 0);
        DropRoot(ino, r);
        SlotDoneBy(t, t, S(), p, 0);
      }
      RootStep(s, t, S(), ino, e, r, 0);
    }

    /** The direct blocks of ext2_truncate. */
    method CutDirect(ino: nat, block: nat)
      requires Valid() && ino in inodes && block <= NDIR
      modifies this, sb
      ensures Valid() && CutRoots(old(S()), S(), ino, block, NDIR)
      ensures Shed(old(sb.Blocks()), old(owner), sb.Blocks(), owner)
    {
      ghost var s := S();
      RootsStart(s, ino, block, block);
      ShedNone(sb.Blocks(), owner);
      var r := block;
      while r < NDIR
        invariant block <= r <= NDIR && Valid() && CutRoots(s, S(), ino, block, r)
        invariant Shed(old(sb.Blocks()), old(owner), sb.Blocks(), owner)
      {
        ghost var used, own := sb.Blocks(), owner;
        CutDirectSlot(ino, r, block, s);
        ShedTwice(old(sb.Blocks()), old(owner), used, own, sb.Blocks(), owner);
        r := r + 1;
      }
    }

    /** One indirect tree of ext2_truncate, by the loop that fits its depth. */
    method CutTree(ino: nat, root: nat, block: nat)
      requires Valid() && ino in inodes && IND <= root <= TIND
      modifies this, sb
      ensures Valid() && SlotDone(old(S()), S(), Pos(ino, root, []), TreeOff(n, root, block))
      ensures Shed(old(sb.Blocks()), old(owner), sb.Blocks(), owner)
    {
      ghost var t, p := S(), Pos(ino, root, []);
      var q := inodes[ino].data[root];
      if q == 0 {
        SlotEmpty(t, p, TreeOff(n, root, block));
        ShedNone(sb.Blocks(), owner);
        return;
      }
      if root == IND {
        FreeDblock(ino, q, block, p);
      } else if root == DIND {
        FreeIndblock(ino, q, block, p);
      } else {
        var m0, d0 := FirstTripleSlot(n, block, p);
        FreeTripleFrom(ino, q, m0, d0, TreeOff(n, root, block), p);
      }
      CutTreeTop(ino, root, block, t, old(sb.Blocks()), old(owner));
    }

    /** The root of a tree that has been cut from its first leaf on is freed as well. */
    method CutTreeTop(ino: nat, root: nat, block: nat, ghost t: Fs, ghost used: set<nat>, ghost own: map<nat, Pos>)
      requires Valid() && ino in inodes && IND <= root <= TIND && ValidPos(t, Pos(ino, root, []))
      requires At(t, Pos(ino, root, [])) != 0
      requires CutUnder(t, S(), Pos(ino, root, []), TreeOff(n, root, block))
      requires Shed(used, own, sb.Blocks(), owner)
      modifies this, sb
      ensures Valid() && SlotDone(t, S(), Pos(ino, root, []), TreeOff(n, root, block))
      ensures Shed(used, own, sb.Blocks(), owner)
    {
      ghost var u, p := S(), Pos(ino, root, []);
      TreeOffZero(n, root, block);
      CutKeepsRoot(t, u, p, TreeOff(n, root, block));
      if block == 0 {
        ghost var used', own' := sb.Blocks(), owner;
        DropRoot(ino, root);
        ShedTwice(used, own, used', own', sb.Blocks(), owner);
      }
      SlotDoneBy(t, u, S(), p, TreeOff(n, root, block));
    }

    /** One of the three indirect zones of ext2_truncate. `block` is the cut, or zero once an
        earlier zone has been cut. */
    method CutZone(ino: nat, root: nat, block: nat, ghost e: nat, ghost s: Fs) returns (next: nat)
      requires Valid() && ino in inodes && IND <= root <= TIND && s.n == n
      requires CutRoots(s, S(), ino, e, root) && block == if e < Base(n, root) then 0 else e
      modifies this, sb
      ensures Valid() && CutRoots(s, S(), ino, if root == TIND then EffectiveCut(n, e) else e, root + 1)
      ensures next == if e < Base(n, root + 1) then 0 else e
      ensures Shed(old(sb.Blocks()), old(owner), sb.Blocks(), owner)
    {
      ghost var t := S();
      if block == 0 || block < Base(n, root + 1) {
        CutTree(ino, root, if block == 0 then 0 else block - Base(n, root));
        ZoneDone(s, t, S(), ino, e, root, if block == 0 then 0 else block - Base(n, root));
        next := 0;
      } else {
        ZoneSkipped(s, t, ino, e, root);
        ShedNone(sb.Blocks(), owner);
        next := block;
      }
    }

    /** ext2_truncate to `k` blocks: false for a file that is no directory, regular file or link. */
    method Truncate(ino: nat, k: nat, cuttable: bool) returns (done: bool)
      requires Valid() && ino in inodes
      modifies this, sb
      ensures Valid() && done == cuttable
      ensures !cuttable ==> S() == old(S()) && sb.Blocks() == old(sb.Blocks())
      ensures cuttable ==> CutAt(old(S()), S(), ino, EffectiveCut(n, k))
      ensures cuttable ==> sb.Blocks() == old(sb.Blocks()) - Beyond(old(owner), n, ino, EffectiveCut(n, k))
    {
      if !cuttable { return false; }
      ghost var s, used, own := S(), sb.Blocks(), owner;
      var block := k;
      if block < NDIR {
        CutDirect(ino, block);
        block := 0;
      } else {
        RootsStart(s, ino, k, NDIR);
        ShedNone(used, own);
      }
      CutTrees(ino, block, k, s, used, own);
      ShedBeyond(s, own, S(), owner, ino, EffectiveCut(n, k), used, sb.Blocks());
      return true;
    }

    /** v1_minix_truncate: the same walk over seven direct blocks and two trees. */
    method V1Truncate(ino: nat, k: nat, cuttable: bool) returns (done: bool)
      requires Valid() && ino in inodes && IsV1(S(), ino)
      modifies this, sb
      ensures Valid() && done == cuttable
      ensures !cuttable ==> S() == old(S()) && sb.Blocks() == old(sb.Blocks())
      ensures cuttable ==> IsV1(S(), ino) && CutAt(old(S()), S(), ino, UNUSED + k)
      ensures cuttable ==> sb.Blocks() == old(sb.Blocks()) - Beyond(old(owner), n, ino, UNUSED + k)
    {
      if !cuttable { return false; }
      ghost var s, used, own, e := S(), sb.Blocks(), owner, UNUSED + k;
      var block := UNUSED + k;
      if block < NDIR {
        CutDirect(ino, block);
        block := 0;
      } else {
        RootsStart(s, ino, e, NDIR);
        ShedNone(used, own);
      }
      ghost var used', own' := sb.Blocks(), owner;
      block := CutZone(ino, IND, block, e, s);
      ShedTwice(used, own, used', own', sb.Blocks(), owner);
      used', own' := sb.Blocks(), owner;
      block := CutZone(ino, DIND, block, e, s);
      ShedTwice(used, own, used', own', sb.Blocks(), owner);
      V1NoTriple(s, S(), ino, e);
      ShedBeyond(s, own, S(), owner, ino, e, used, sb.Blocks());
      V1Still(s, S(), ino, e);
      return true;
    }

    /** The three zones in turn. */
    method CutTrees(ino: nat, block: nat, ghost e: nat, ghost s: Fs, ghost used: set<nat>, ghost own: map<nat, Pos>)
      requires Valid() && ino in inodes && s.n == n
      requires CutRoots(s, S(), ino, e, IND) && block == if e < Base(n, IND) then 0 else e
      requires Shed(used, own, sb.Blocks(), owner)
      modifies this, sb
      ensures Valid() && CutRoots(s, S(), ino, EffectiveCut(n, e), ROOTS)
      ensures Shed(used, own, sb.Blocks(), owner)
    {
      ghost var used', own' := sb.Blocks(), owner;
      var b := CutZone(ino, IND, block, e, s);
      ShedTwice(used, own, used', own', sb.Blocks(), owner);
      used', own' := sb.Blocks(), owner;
      b := CutZone(ino, DIND, b, e, s);
      ShedTwice(used, own, used', own', sb.Blocks(), owner);
      used', own' := sb.Blocks(), owner;
      b := CutZone(ino, TIND, b, e, s);
      ShedTwice(used, own, used', own', sb.Blocks(), owner);
    }
  }

  // ---------------------------------------------------------------- minix, version 1

  /** A version 1 inode has seven direct blocks and no triple tree. It is an inode here whose first
      five direct slots and whose last slot stay unused, so that its block `k` is block UNUSED + k. */
  const UNUSED: nat := 5

  ghost predicate IsV1(fs: Fs, ino: nat) {
    && ino in fs.inodes && |fs.inodes[ino].data| == ROOTS
    && (forall r :: 0 <= r < UNUSED ==> fs.inodes[ino].data[r] == 0) && fs.inodes[ino].data[TIND] == 0
  }

  lemma V1NoTriple(s: Fs, t: Fs, ino: nat, e: nat)
    requires s.n > 0 && IsV1(s, ino) && CutRoots(s, t, ino, e, TIND) && t.n == s.n
    ensures CutRoots(s, t, ino, e, ROOTS)
  {
    var d := if e < Base(s.n, TIND) then 0 else e - Base(s.n, TIND);
    SlotEmpty(t, Pos(ino, TIND, []), d);
    RootStep(s, t, t, ino, e, TIND, d);
  }

  lemma V1Still(s: Fs, t: Fs, ino: nat, e: nat)
    requires IsV1(s, ino) && CutAt(s, t, ino, e) && ino in t.inodes && |t.inodes[ino].data| == ROOTS
    ensures IsV1(t, ino)
  {
    forall r: nat | r < ROOTS ensures t.inodes[ino].data[r] == At(t, Pos(ino, r, [])) && s.inodes[ino].data[r] == At(s, Pos(ino, r, [])) {
    }
    forall r: nat | r < UNUSED || r == TIND ensures t.inodes[ino].data[r] == 0 {
      assert ValidPos(s, Pos(ino, r, []));
    }
  }

  /** In version 1 a truncate to `k` blocks is exact, whatever `k` is. */
  lemma V1CutIsExact(s: Fs, t: Fs, ino: nat, k: nat, l: nat)
    requires s.n > 0 && IsV1(s, ino) && UNUSED + l < Limit(s.n) && CutAt(s, t, ino, UNUSED + k)
    ensures BlockOf(t, ino, UNUSED + l) == if l >= k then 0 else BlockOf(s, ino, UNUSED + l)
  {
    TruncateIsCut(s, t, ino, UNUSED + k, ino, UNUSED + l);
  }

  // ---------------------------------------------------------------- cutting a whole file

  /** The first file block under root slot `r`. */
  function Base(n: nat, r: nat): nat {
    if r <= IND then r else if r == DIND then NDIR + n else if r == TIND then NDIR + n + n * n else Limit(n)
  }

  /** The first file block under position `x`. */
  function Start(n: nat, x: Pos): nat
    requires |x.path| <= Level(x.root)
  {
    Base(n, x.root) + Rel(n, Pos(x.ino, x.root, []), x)
  }

  /** File `ino` has lost everything from file block `e` on; no other file has changed. */
  ghost predicate CutAt(s: Fs, t: Fs, ino: nat, e: nat) {
    && t.n == s.n && t.inodes.Keys == s.inodes.Keys
    && forall x :: ValidPos(s, x) ==> At(t, x) == if x.ino == ino && Start(s.n, x) >= e then 0 else At(s, x)
  }

  /** The same for the first `r` root slots only. */
  ghost predicate CutRoots(s: Fs, t: Fs, ino: nat, e: nat, r: nat) {
    && t.n == s.n && t.inodes.Keys == s.inodes.Keys
    && forall x :: ValidPos(s, x) ==>
         At(t, x) == if x.ino == ino && x.root < r && Start(s.n, x) >= e then 0 else At(s, x)
  }

  lemma RootsStart(s: Fs, ino: nat, e: nat, r: nat)
    requires r <= e && r <= NDIR
    ensures CutRoots(s, s, ino, e, r)
  {
  }

  lemma RootStep(s: Fs, t: Fs, v: Fs, ino: nat, e: nat, r: nat, d: nat)
    requires CutRoots(s, t, ino, e, r) && SlotDone(t, v, Pos(ino, r, []), d)
    requires d == if e <= Base(s.n, r) then 0 else e - Base(s.n, r)
    ensures CutRoots(s, v, ino, e, r + 1)
  {
    forall x | ValidPos(s, x)
      ensures At(v, x) == if x.ino == ino && x.root < r + 1 && Start(s.n, x) >= e then 0 else At(s, x)
    {
      assert ValidPos(t, x);
      if x.ino == ino && x.root == r { assert AtOrBelow(x, Pos(ino, r, [])); }
    }
  }

  lemma SlotEmpty(t: Fs, c: Pos, d: nat)
    requires At(t, c) == 0
    ensures SlotDone(t, t, c, d)
  {
    forall x | ValidPos(t, x) && AtOrBelow(x, c) ensures At(t, x) == 0 {
      if x != c { NothingBelow(t, c, x); }
    }
  }

  lemma CutKeepsRoot(t: Fs, u: Fs, p: Pos, d: nat)
    requires ValidPos(t, p) && CutUnder(t, u, p, d)
    ensures At(u, p) == At(t, p) && (d == 0 ==> EmptyBelow(u, p))
  {
  }

  /** Where the loop over an indirect tree really starts cutting, in leaves of that tree. In the
      triple tree the first slot is found by dividing by n and not by n * n. */
  function TreeOff(n: nat, root: nat, block: nat): nat
    requires n > 0
  {
    if root == TIND then TripleOff(n, n * n, block) else block
  }

  function TripleOff(n: nat, nn: nat, block: nat): nat
    requires n > 0
  {
    block / n * nn + block % n
  }

  lemma TreeOffZero(n: nat, root: nat, block: nat)
    requires n > 0
    ensures TreeOff(n, root, block) == 0 <==> block == 0
  {
    if root == TIND {
      Remainder(block, n);
      var q := block / n;
      assert q > 0 ==> q * (n * n) >= 1 * (n * n) >= 1;
    }
  }

  /** The file block from which ext2_truncate to `k` blocks really cuts. */
  function EffectiveCut(n: nat, k: nat): nat
    requires n > 0
  {
    if k < Base(n, TIND) || Limit(n) <= k then k
    else Base(n, TIND) + TripleOff(n, n * n, k - Base(n, TIND))
  }

  lemma ZoneSize(n: nat, root: nat)
    requires IND <= root <= TIND
    ensures Base(n, root) + Pow(n, Level(root)) == Base(n, root + 1)
  {
    assert Pow(n, 1) == n * Pow(n, 0) == n;
    assert Pow(n, 2) == n * Pow(n, 1) == n * n;
    assert Pow(n, 3) == n * Pow(n, 2) == n * (n * n);
  }

  /** Nothing of a zone lies at or beyond its end. */
  lemma SlotBeyond(t: Fs, ino: nat, root: nat, d: nat)
    requires t.n > 0 && d >= Pow(t.n, Level(root))
    ensures SlotDone(t, t, Pos(ino, root, []), d)
  {
    forall x | ValidPos(t, x) && AtOrBelow(x, Pos(ino, root, []))
      ensures Rel(t.n, Pos(ino, root, []), x) < d
    {
      RelBound(t, Pos(ino, root, []), x);
    }
  }

  /** The cut that the triple zone sees is the same for everything before it. */
  lemma SameBefore(s: Fs, t: Fs, ino: nat, e: nat)
    requires s.n > 0 && CutRoots(s, t, ino, e, TIND)
    ensures CutRoots(s, t, ino, EffectiveCut(s.n, e), TIND)
  {
    if Base(s.n, TIND) <= e {
      forall x | ValidPos(s, x) && x.root < TIND ensures Start(s.n, x) < Base(s.n, TIND) {
        BeforeTriple(s, x);
      }
    }
  }

  lemma BeforeTriple(s: Fs, x: Pos)
    requires s.n > 0 && ValidPos(s, x) && x.root < TIND
    ensures Start(s.n, x) < Base(s.n, TIND)
  {
    RelBound(s, Pos(x.ino, x.root, []), x);
    if x.root < IND {
      assert Pow(s.n, 0) == 1;
    } else {
      ZoneSize(s.n, x.root);
    }
  }

  lemma ZoneSkipped(s: Fs, t: Fs, ino: nat, e: nat, root: nat)
    requires s.n > 0 && IND <= root <= TIND && CutRoots(s, t, ino, e, root) && Base(s.n, root + 1) <= e
    ensures CutRoots(s, t, ino, if root == TIND then EffectiveCut(s.n, e) else e, root + 1)
  {
    ZoneSize(s.n, root);
    SlotBeyond(t, ino, root, e - Base(s.n, root));
    RootStep(s, t, t, ino, e, root, e - Base(s.n, root));
  }

  lemma ZoneDone(s: Fs, t: Fs, v: Fs, ino: nat, e: nat, root: nat, b: nat)
    requires s.n > 0 && IND <= root <= TIND && CutRoots(s, t, ino, e, root) && e < Base(s.n, root + 1)
    requires b == if e < Base(s.n, root) then 0 else e - Base(s.n, root)
    requires SlotDone(t, v, Pos(ino, root, []), TreeOff(s.n, root, b))
    ensures CutRoots(s, v, ino, if root == TIND then EffectiveCut(s.n, e) else e, root + 1)
  {
    if root == TIND {
      SameBefore(s, t, ino, e);
      TreeOffZero(s.n, root, b);
      RootStep(s, t, v, ino, EffectiveCut(s.n, e), root, TreeOff(s.n, root, b));
    } else {
      RootStep(s, t, v, ino, e, root, b);
    }
  }

  /** The blocks of file `ino`, data and indirect, that start at or beyond file block `e`. */
  ghost function Beyond(owner: map<nat, Pos>, n: nat, ino: nat, e: nat): set<nat> {
    set b | b in owner && owner[b].ino == ino && |owner[b].path| <= Level(owner[b].root) && Start(n, owner[b]) >= e
  }

  /** What a cut frees is exactly what lies beyond it. */
  lemma ShedBeyond(s: Fs, own: map<nat, Pos>, t: Fs, own': map<nat, Pos>, ino: nat, e: nat, used: set<nat>,
                   used': set<nat>)
    requires Inverse(s, own) && Inverse(t, own') && CutRoots(s, t, ino, e, ROOTS)
    requires Shed(used, own, used', own')
    ensures CutAt(s, t, ino, e)
    ensures used' == used - Beyond(own, s.n, ino, e)
  {
    forall b | b in own ensures b in own' <==> b !in Beyond(own, s.n, ino, e) {
      assert ValidPos(t, own[b]) && At(s, own[b]) == b;
      assert At(t, own[b]) != 0 ==> own'[At(t, own[b])] == own[b];
      if b in own' {
        assert ValidPos(s, own'[b]) && At(t, own'[b]) == b;
        assert At(s, own'[b]) == b;
      }
    }
    assert own.Keys - own'.Keys == Beyond(own, s.n, ino, e);
  }

  /** The start of the loop over the triply indirect block, as ext2_truncate computes it. */
  method FirstTripleSlot(n: nat, block: nat, ghost p: Pos) returns (m0: nat, d0: nat)
    requires n > 0 && |p.path| + 3 == Level(p.root)
    ensures OffAt(n, p, TreeOff(n, TIND, block), m0, d0)
  {
    d0 := block % n;
    m0 := block / n;
    assert Pow(n, 1) == n * Pow(n, 0) == n;
    assert Pow(n, 2) == n * Pow(n, 1) == n * n;
    assert n * n >= n;
  }

  /** Where free_indblock starts: the slot that holds leaf `off`, and how far into it. */
  method FirstSlot(n: nat, off: nat, ghost p: Pos) returns (m0: nat, d0: nat)
    requires n > 0 && |p.path| + 2 == Level(p.root)
    ensures OffAt(n, p, off, m0, d0)
  {
    d0 := off % n;
    m0 := off / n;
    assert Pow(n, 1) == n * Pow(n, 0) == n;
    Remainder(off, n);
  }

  /** Cutting below slot `m` of `p` leaves the slot itself and everything above it. */
  lemma CutKeepsAbove(t: Fs, u: Fs, p: Pos, m: nat, d: nat)
    requires ValidPos(t, p) && ValidPos(t, Child(p, m)) && CutUnder(t, u, Child(p, m), d)
    ensures At(u, p) == At(t, p) && At(u, Child(p, m)) == At(t, Child(p, m))
    ensures d == 0 ==> EmptyBelow(u, Child(p, m))
  {
  }

  /** Nothing hangs below position `p`. */
  ghost predicate EmptyBelow(fs: Fs, p: Pos) {
    forall x :: ValidPos(fs, x) && Extends(x, p) ==> At(fs, x) == 0
  }

  /** The volume has lost the blocks the files have lost, and no others. */
  ghost predicate Shed(used: set<nat>, own: map<nat, Pos>, used': set<nat>, own': map<nat, Pos>) {
    own'.Keys <= own.Keys && used' == used - (own.Keys - own'.Keys)
  }

  lemma ShedNone(used: set<nat>, own: map<nat, Pos>)
    ensures Shed(used, own, used, own)
  {
  }

  lemma ShedOne(used: set<nat>, own: map<nat, Pos>, b: nat)
    requires b in own
    ensures Shed(used, own, used - {b}, own - {b})
  {
    assert own.Keys - (own - {b}).Keys == {b};
  }

  lemma ShedTwice(used: set<nat>, own: map<nat, Pos>, used': set<nat>, own': map<nat, Pos>, used'': set<nat>,
                  own'': map<nat, Pos>)
    requires Shed(used, own, used', own') && Shed(used', own', used'', own'')
    ensures Shed(used, own, used'', own'')
  {
  }

  lemma DetachAll(fs: Fs, owner: map<nat, Pos>, p: Pos)
    requires Inv(fs, owner) && SlotThere(fs, p) && At(fs, p) != 0 && EmptyBelow(fs, p)
    ensures Inv(Put(fs, p, 0), owner - {At(fs, p)})
    ensures Dropped(fs, Put(fs, p, 0), p)
  {
    DetachShape(fs, owner, p);
    DetachAt(fs, owner, p);
    DetachInverse(fs, owner, p);
    DetachCounted(fs, owner, p);
  }

  method DoubleSlots(n: nat, dblock: nat) returns (i: nat, j: nat)
    requires n > 0
    ensures DoublePath(n, dblock) == [i, j]
  {
    Remainder(dblock, n);
    i := dblock / n;
    j := dblock - i * n;
  }

  method TripleSlots(n: nat, nn: nat, tblock: nat) returns (h: nat, i: nat, j: nat)
    requires n > 0 && nn > 0
    ensures TriplePath(n, nn, tblock) == [h, i, j]
  {
    Remainder(tblock, nn);
    h := tblock / nn;
    i, j := DoubleSlots(n, tblock - nn * h);
  }

  /** The index arithmetic of ext2_bmap: which root slot, and which slot at each level below it. */
  method Slots(n: nat, k: nat, ghost ino: nat) returns (level: nat, h: nat, i: nat, j: nat)
    requires n > 0 && NDIR <= k < Limit(n)
    ensures Leaf(n, ino, k) == Pos(ino, level, if level == IND then [j] else if level == DIND then [i, j] else [h, i, j])
    ensures IND <= level <= TIND
  {
    h, i := 0, 0;
    var block := k - NDIR;
    if block < n {
      level, j := IND, block;
    } else if block < n * n + n {
      level := DIND;
      i, j := DoubleSlots(n, block - n);
    } else {
      level := TIND;
      h, i, j := TripleSlots(n, n * n, block - n * n - n);
    }
  }

  /** The position `m` steps down from the root towards `leaf`. */
  ghost function Prefix(leaf: Pos, m: nat): Pos
    requires m <= |leaf.path|
  {
    leaf.(path := leaf.path[..m])
  }

  lemma PrefixStep(fs: Fs, leaf: Pos, m: nat)
    requires ValidPos(fs, leaf) && m < |leaf.path|
    ensures ValidPos(fs, Prefix(leaf, m)) && Interior(Prefix(leaf, m)) && leaf.path[m] < fs.n
    ensures Child(Prefix(leaf, m), leaf.path[m]) == Prefix(leaf, m + 1)
    ensures if m + 1 == |leaf.path| then Prefix(leaf, m + 1) == leaf else Extends(leaf, Prefix(leaf, m + 1))
  {
    assert leaf.path[..m] + [leaf.path[m]] == leaf.path[..m + 1];
    assert leaf.path[..|leaf.path|] == leaf.path;
  }

  lemma Remainder(a: nat, d: nat)
    requires d > 0
    ensures a - d * (a / d) == a - a / d * d == a % d && a - a / d * d >= 0
  {
  }

  /** What one level of ext2_bmap does at position `p`, on a volume whose used blocks were `used`. */
  ghost predicate Stepped(s: Fs, t: Fs, p: Pos, writing: bool, r: Result, used: set<nat>, used': set<nat>) {
    match r
    case NoSpace => writing && At(s, p) == 0 && t == s && used' == used
    case Ok(b) =>
      if At(s, p) != 0 || !writing then t == s && used' == used && b == At(s, p)
      else Grown(s, t, p, b) && b !in used && used' == used + {b}
  }

  /** While ext2_bmap walks down to `leaf`: nothing has changed but empty places above the leaf, and
      not those either unless the leaf was missing and is being made. */
  ghost predicate Walking(s: Fs, t: Fs, leaf: Pos, writing: bool, used: set<nat>, used': set<nat>) {
    && SameBut(s, t, leaf) && At(t, leaf) == At(s, leaf) && used <= used'
    && (At(s, leaf) != 0 || !writing ==> t == s && used' == used)
  }

  /** What ext2_bmap promises about the whole tree of every file. */
  ghost predicate Mapped(s: Fs, t: Fs, leaf: Pos, writing: bool, r: Result, used: set<nat>, used': set<nat>) {
    && SameBut(s, t, leaf) && used <= used'
    && (At(s, leaf) != 0 || !writing ==> t == s && used' == used && r == Ok(At(s, leaf)))
    && (At(s, leaf) == 0 && writing ==>
          if r.Ok? then r.b != 0 && At(t, leaf) == r.b && r.b !in used && r.b in used'
          else At(t, leaf) == 0)
  }

  lemma LastStep(s: Fs, mid: Fs, t: Fs, leaf: Pos, writing: bool, r: Result, used: set<nat>, now: set<nat>,
                 used': set<nat>)
    requires ValidPos(s, leaf) && !Interior(leaf)
    requires Walking(s, mid, leaf, writing, used, now) && Stepped(mid, t, leaf, writing, r, now, used')
    ensures Mapped(s, t, leaf, writing, r, used, used')
  {
    forall x | ValidPos(s, x) && (At(s, x) != 0 || !AtOrBelow(leaf, x)) ensures At(t, x) == At(s, x) {
      assert ValidPos(mid, x) && At(mid, x) == At(s, x);
    }
  }

  /** A step above the leaf either goes on, or ends the call with the leaf still missing. */
  lemma NextStep(s: Fs, mid: Fs, t: Fs, leaf: Pos, p: Pos, writing: bool, r: Result, used: set<nat>, now: set<nat>,
                 used': set<nat>)
    requires ValidPos(s, leaf) && !Interior(leaf) && Extends(leaf, p)
    requires Walking(s, mid, leaf, writing, used, now) && Stepped(mid, t, p, writing, r, now, used')
    ensures r.Ok? && r.b != 0 ==> Walking(s, t, leaf, writing, used, used') && At(t, p) == r.b
    ensures r.NoSpace? || r.b == 0 ==> Mapped(s, t, leaf, writing, r, used, used')
  {
    if At(mid, p) == 0 { NothingBelow(mid, p, leaf); }
    assert ValidPos(mid, p) && ValidPos(mid, leaf);
    forall x | ValidPos(s, x) && (At(s, x) != 0 || !AtOrBelow(leaf, x)) ensures At(t, x) == At(s, x) {
      assert ValidPos(mid, x) && At(mid, x) == At(s, x);
    }
  }

  /** From `s`, position `p` has received block `v`, and no other position has changed. */
  ghost predicate Grown(s: Fs, t: Fs, p: Pos, v: nat) {
    && v != 0 && t.n == s.n && t.inodes.Keys == s.inodes.Keys
    && forall x :: ValidPos(s, x) ==> At(t, x) == if x == p then v else At(s, x)
  }

  lemma AttachAll(fs: Fs, owner: map<nat, Pos>, p: Pos, v: nat)
    requires Inv(fs, owner) && SlotThere(fs, p) && At(fs, p) == 0 && v != 0 && v !in owner
    ensures Inv(Put(fs, p, v), owner[v := p])
    ensures Grown(fs, Put(fs, p, v), p, v)
  {
    AttachShape(fs, owner, p, v);
    AttachInverse(fs, owner, p, v);
    AttachCounted(fs, owner, p, v);
  }

  // ---------------------------------------------------------------- cutting

  function Pow(n: nat, l: nat): nat {
    if l == 0 then 1 else n * Pow(n, l - 1)
  }

  /** How many leaves of a tree of depth `l` come before the subtree at `path`. */
  function Value(n: nat, path: seq<nat>, l: nat): nat
    requires |path| <= l
  {
    if path == [] then 0 else path[0] * Pow(n, l - 1) + Value(n, path[1..], l - 1)
  }

  predicate AtOrBelow(x: Pos, p: Pos) {
    x == p || Extends(x, p)
  }

  /** The same count for position `x`, inside the subtree of `p`. */
  function Rel(n: nat, p: Pos, x: Pos): nat
    requires |p.path| <= |x.path| <= Level(p.root)
  {
    Value(n, x.path[|p.path|..], Level(p.root) - |p.path|)
  }

  lemma RelChild(fs: Fs, p: Pos, x: Pos)
    requires ValidPos(fs, x) && Extends(x, p)
    ensures var m := x.path[|p.path|];
            && m < fs.n && AtOrBelow(x, Child(p, m))
            && Rel(fs.n, p, x) == m * Pow(fs.n, Level(p.root) - |p.path| - 1) + Rel(fs.n, Child(p, m), x)
  {
    var m := x.path[|p.path|];
    assert x.path[..|p.path| + 1] == p.path + [m];
    assert x.path[|p.path|..][1..] == x.path[|p.path| + 1..];
    if |x.path| == |p.path| + 1 { assert x.path == p.path + [m]; }
  }

  lemma ChildBelow(p: Pos, m: nat, x: Pos)
    requires AtOrBelow(x, Child(p, m))
    ensures Extends(x, p) && x.path[|p.path|] == m
  {
    assert x.path[..|p.path| + 1] == p.path + [m];
    assert x.path[..|p.path|] == (p.path + [m])[..|p.path|] == p.path;
    assert x.path[..|p.path| + 1][|p.path|] == m;
  }

  lemma {:induction false} ValueBound(n: nat, path: seq<nat>, l: nat)
    requires |path| <= l && n > 0 && forall i :: 0 <= i < |path| ==> path[i] < n
    ensures Value(n, path, l) < Pow(n, l)
  {
    if path == [] {
      PowPositive(n, l);
    } else {
      ValueBound(n, path[1..], l - 1);
      Scale(path[0], n, Pow(n, l - 1));
    }
  }

  lemma {:induction false} PowPositive(n: nat, l: nat)
    requires n > 0
    ensures Pow(n, l) > 0
  {
    if l > 0 { PowPositive(n, l - 1); }
  }

  lemma Scale(a: nat, b: nat, c: nat)
    requires a < b
    ensures a * c + c <= b * c
  {
    assert (a + 1) * c <= b * c;
  }

  lemma RelBound(fs: Fs, c: Pos, x: Pos)
    requires ValidPos(fs, x) && AtOrBelow(x, c) && fs.n > 0
    ensures Rel(fs.n, c, x) < Pow(fs.n, Level(c.root) - |c.path|)
  {
    ValueBound(fs.n, x.path[|c.path|..], Level(c.root) - |c.path|);
  }

  /** Below `p`, everything from relative offset `off` on is gone; nothing else has changed. */
  ghost predicate CutUnder(s: Fs, t: Fs, p: Pos, off: nat) {
    && t.n == s.n && t.inodes.Keys == s.inodes.Keys
    && forall x :: ValidPos(s, x) ==>
         At(t, x) == if Extends(x, p) && Rel(s.n, p, x) >= off then 0 else At(s, x)
  }

  /** The same while the loop over the slots of `p` has reached slot `m`. */
  ghost predicate CutPart(s: Fs, t: Fs, p: Pos, off: nat, m: nat) {
    && t.n == s.n && t.inodes.Keys == s.inodes.Keys
    && forall x :: ValidPos(s, x) ==>
         At(t, x) == if Extends(x, p) && Rel(s.n, p, x) >= off && x.path[|p.path|] < m then 0 else At(s, x)
  }

  /** From `s`, position `p` has lost its block, and no other position has changed. */
  ghost predicate Dropped(s: Fs, t: Fs, p: Pos) {
    && t.n == s.n && t.inodes.Keys == s.inodes.Keys
    && forall x :: ValidPos(s, x) ==> At(t, x) == if x == p then 0 else At(s, x)
  }

  /** Relative offset `off` falls in slot `m0` of `p`, `d0` leaves into it. */
  predicate OffAt(n: nat, p: Pos, off: nat, m0: nat, d0: nat) {
    && Interior(p)
    && var w := Pow(n, Level(p.root) - |p.path| - 1);
    d0 < w && off == m0 * w + d0
  }

  /** Before slot m0 there is nothing to cut. */
  lemma CutStart(s: Fs, p: Pos, off: nat, m0: nat, d0: nat)
    requires s.n > 0 && OffAt(s.n, p, off, m0, d0)
    ensures CutPart(s, s, p, off, m0)
  {
    var w := Pow(s.n, Level(p.root) - |p.path| - 1);
    forall x | ValidPos(s, x) && Extends(x, p) && x.path[|p.path|] < m0
      ensures Rel(s.n, p, x) < off
    {
      RelChild(s, p, x);
      RelBound(s, Child(p, x.path[|p.path|]), x);
      Scale(x.path[|p.path|], m0, w);
    }
  }

  lemma StillThere(s: Fs, t: Fs, p: Pos, off: nat, m: nat)
    requires ValidPos(s, p) && CutPart(s, t, p, off, m)
    ensures ValidPos(t, p) && At(t, p) == At(s, p)
  {
  }

  lemma CutEnd(s: Fs, t: Fs, p: Pos, off: nat, m: nat)
    requires CutPart(s, t, p, off, m) && m >= s.n
    ensures CutUnder(s, t, p, off)
  {
    forall x | ValidPos(s, x) && Extends(x, p) ensures x.path[|p.path|] < m {
      RelChild(s, p, x);
    }
  }

  /** Whether `x`, in slot `m` of `p` or below it, is to be cut. */
  lemma SlotCut(s: Fs, p: Pos, off: nat, m0: nat, d0: nat, m: nat, x: Pos)
    requires s.n > 0 && ValidPos(s, x) && AtOrBelow(x, Child(p, m)) && m0 <= m
    requires OffAt(s.n, p, off, m0, d0)
    ensures Extends(x, p) && x.path[|p.path|] == m
    ensures Rel(s.n, p, x) >= off <==> Rel(s.n, Child(p, m), x) >= if m == m0 then d0 else 0
  {
    ChildBelow(p, m, x);
    RelChild(s, p, x);
    if m0 < m { Scale(m0, m, Pow(s.n, Level(p.root) - |p.path| - 1)); }
  }

  /** What has happened to slot `m`: its subtree is cut from `d` leaves on, and the slot
      itself is dropped when d is zero. */
  ghost predicate SlotDone(t: Fs, v: Fs, c: Pos, d: nat) {
    && v.n == t.n && v.inodes.Keys == t.inodes.Keys
    && forall x :: ValidPos(t, x) ==> At(v, x) == if AtOrBelow(x, c) && Rel(t.n, c, x) >= d then 0 else At(t, x)
  }

  lemma SlotDoneBy(t: Fs, u: Fs, v: Fs, c: Pos, d: nat)
    requires ValidPos(t, c) && CutUnder(t, u, c, d) && if d == 0 then Dropped(u, v, c) else v == u
    ensures SlotDone(t, v, c, d)
  {
    assert Rel(t.n, c, c) == 0;
    forall x | ValidPos(t, x) ensures At(v, x) == if AtOrBelow(x, c) && Rel(t.n, c, x) >= d then 0 else At(t, x) {
      assert ValidPos(u, x);
    }
  }

  /** One slot of the loops in free_dblock, free_indblock and ext2_truncate. */
  lemma CutStep(s: Fs, t: Fs, v: Fs, p: Pos, off: nat, m0: nat, d0: nat, m: nat)
    requires s.n > 0 && m0 <= m && OffAt(s.n, p, off, m0, d0)
    requires CutPart(s, t, p, off, m)
    requires SlotDone(t, v, Child(p, m), if m == m0 then d0 else 0)
    ensures CutPart(s, v, p, off, m + 1)
  {
    forall x | ValidPos(s, x)
      ensures At(v, x) == if Extends(x, p) && Rel(s.n, p, x) >= off && x.path[|p.path|] < m + 1 then 0 else At(s, x)
    {
      CutStepAt(s, t, v, p, off, m0, d0, m, x);
    }
  }

  lemma CutStepAt(s: Fs, t: Fs, v: Fs, p: Pos, off: nat, m0: nat, d0: nat, m: nat, x: Pos)
    requires s.n > 0 && m0 <= m && OffAt(s.n, p, off, m0, d0) && ValidPos(s, x) && ValidPos(t, x) && t.n == s.n
    requires At(t, x) == if Extends(x, p) && Rel(s.n, p, x) >= off && x.path[|p.path|] < m then 0 else At(s, x)
    requires var c := Child(p, m);
             At(v, x) == if AtOrBelow(x, c) && Rel(t.n, c, x) >= (if m == m0 then d0 else 0) then 0 else At(t, x)
    ensures At(v, x) == if Extends(x, p) && Rel(s.n, p, x) >= off && x.path[|p.path|] < m + 1 then 0 else At(s, x)
  {
    if AtOrBelow(x, Child(p, m)) {
      SlotCut(s, p, off, m0, d0, m, x);
    } else if Extends(x, p) {
      RelChild(s, p, x);
    }
  }

  /** An empty slot needs no work. */
  lemma CutEmpty(s: Fs, t: Fs, p: Pos, off: nat, m: nat)
    requires CutPart(s, t, p, off, m) && At(t, Child(p, m)) == 0
    ensures CutPart(s, t, p, off, m + 1)
  {
    forall x | ValidPos(s, x)
      ensures At(t, x) == if Extends(x, p) && Rel(s.n, p, x) >= off && x.path[|p.path|] < m + 1 then 0 else At(s, x)
    {
      if Extends(x, p) && x.path[|p.path|] == m {
        RelChild(s, p, x);
        if x != Child(p, m) { NothingBelow(t, Child(p, m), x); }
      }
    }
  }

  /** A slot that holds a data block has nothing below it. */
  lemma CutLeaf(s: Fs, c: Pos, off: nat)
    requires !Interior(c)
    ensures CutUnder(s, s, c, off)
  {
  }

  // ---------------------------------------------------------------- what it means for files

  lemma StartOfLeaf(n: nat, ino: nat, k: nat)
    requires n > 0 && k < Limit(n)
    ensures Start(n, Leaf(n, ino, k)) == k
  {
    var x := Leaf(n, ino, k);
    assert Pow(n, 0) == 1;
    assert x.path[0..] == x.path;
    if k < NDIR {
    } else if k < NDIR + n {
      SingleValue(n, k - NDIR);
    } else if k < NDIR + n + n * n {
      DoubleValue(n, k - NDIR - n);
    } else {
      TripleValue(n, k - NDIR - n - n * n);
    }
  }

  lemma SingleValue(n: nat, d: nat)
    ensures Value(n, [d], 1) == d
  {
    assert Pow(n, 0) == 1;
    assert Value(n, [d], 1) == d * Pow(n, 0) + Value(n, [d][1..], 0);
  }

  lemma DoubleValue(n: nat, d: nat)
    requires n > 0
    ensures Value(n, DoublePath(n, d), 2) == d
  {
    assert DoublePath(n, d)[1..] == [d % n];
    SingleValue(n, d % n);
    assert Pow(n, 1) == n * Pow(n, 0) == n;
    Remainder(d, n);
  }

  lemma TripleValue(n: nat, t: nat)
    requires n > 0
    ensures Value(n, TriplePath(n, n * n, t), 3) == t
  {
    var p := TriplePath(n, n * n, t);
    assert p[1..] == DoublePath(n, t % (n * n));
    DoubleValue(n, t % (n * n));
    assert Pow(n, 1) == n * Pow(n, 0) == n;
    assert Pow(n, 2) == n * Pow(n, 1) == n * n;
    Remainder(t, n * n);
  }

  /** No block serves two file blocks, of one file or of two. */
  lemma NoSharing(fs: Fs, owner: map<nat, Pos>, i: nat, k: nat, j: nat, l: nat)
    requires fs.n > 0 && Inv(fs, owner) && i in fs.inodes && j in fs.inodes && k < Limit(fs.n) && l < Limit(fs.n)
    requires BlockOf(fs, i, k) == BlockOf(fs, j, l) != 0
    ensures i == j && k == l
  {
    LeafValid(fs, i, k);
    LeafValid(fs, j, l);
    StartOfLeaf(fs.n, i, k);
    StartOfLeaf(fs.n, j, l);
  }

  /** ext2_bmap as an update of the map from file blocks to disk blocks: only (ino, k) changes. */
  lemma BmapIsUpdate(s: Fs, t: Fs, ino: nat, k: nat, writing: bool, r: Result, used: set<nat>, used': set<nat>,
                     i: nat, l: nat)
    requires s.n > 0 && ino in s.inodes && i in s.inodes && k < Limit(s.n) && l < Limit(s.n)
    requires Mapped(s, t, Leaf(s.n, ino, k), writing, r, used, used')
    ensures BlockOf(t, i, l) == if r.Ok? && (i, l) == (ino, k) then r.b else BlockOf(s, i, l)
  {
    LeafValid(s, i, l);
    StartOfLeaf(s.n, ino, k);
    StartOfLeaf(s.n, i, l);
  }

  /** ext2_truncate on the same map. */
  lemma TruncateIsCut(s: Fs, t: Fs, ino: nat, e: nat, i: nat, l: nat)
    requires s.n > 0 && i in s.inodes && l < Limit(s.n) && CutAt(s, t, ino, e)
    ensures BlockOf(t, i, l) == if i == ino && l >= e then 0 else BlockOf(s, i, l)
  {
    LeafValid(s, i, l);
    StartOfLeaf(s.n, i, l);
  }

  lemma TripleOffGrows(n: nat, b: nat)
    requires n >= 2
    ensures TripleOff(n, n * n, b) >= b
    ensures TripleOff(n, n * n, b) == b <==> b < n
  {
    var q := b / n;
    Remainder(b, n);
    assert b >= n ==> q >= 1;
    SquareGrows(q, n);
  }

  lemma SquareGrows(q: nat, n: nat)
    requires n >= 2
    ensures q * (n * n) >= q * n && (q >= 1 ==> q * (n * n) > q * n)
  {
    assert n * n >= 2 * n;
    assert q * (n * n) >= q * (2 * n) == 2 * (q * n);
    assert q >= 1 ==> q * n >= 1 * n;
  }

  /** ext2_truncate never cuts too early, and cuts where it was told to exactly when the cut is
      less than n blocks into the triple zone, or past the last block a file can have. */
  lemma CutExactlyWhen(n: nat, k: nat)
    requires n >= 2
    ensures EffectiveCut(n, k) >= k
    ensures EffectiveCut(n, k) == k <==> k < Base(n, TIND) + n || Limit(n) <= k
  {
    if Base(n, TIND) <= k { TripleOffGrows(n, k - Base(n, TIND)); }
    assert n * n * n >= n;
  }

  /** Every block from `k` on is gone exactly when the file had none between the cut asked for
      and the cut made. */
  lemma TruncateFreesAllIff(s: Fs, t: Fs, ino: nat, k: nat)
    requires s.n >= 2 && ino in s.inodes && CutAt(s, t, ino, EffectiveCut(s.n, k))
    ensures (forall l :: k <= l < Limit(s.n) ==> BlockOf(t, ino, l) == 0)
            <==> (forall l :: k <= l < Limit(s.n) && l < EffectiveCut(s.n, k) ==> BlockOf(s, ino, l) == 0)
  {
    forall l | k <= l < Limit(s.n)
      ensures BlockOf(t, ino, l) == if l >= EffectiveCut(s.n, k) then 0 else BlockOf(s, ino, l)
    {
      TruncateIsCut(s, t, ino, EffectiveCut(s.n, k), ino, l);
    }
  }

  /** A file with a block n blocks into the triple zone, truncated right there, keeps it. */
  lemma TruncateMisses(s: Fs, t: Fs, ino: nat)
    requires s.n >= 2 && ino in s.inodes && BlockOf(s, ino, Base(s.n, TIND) + s.n) != 0
    requires CutAt(s, t, ino, EffectiveCut(s.n, Base(s.n, TIND) + s.n))
    ensures BlockOf(t, ino, Base(s.n, TIND) + s.n) == BlockOf(s, ino, Base(s.n, TIND) + s.n) != 0
    ensures !CutAt(s, t, ino, Base(s.n, TIND) + s.n)
  {
    FirstMiss(s.n);
    var k := Base(s.n, TIND) + s.n;
    TruncateIsCut(s, t, ino, EffectiveCut(s.n, k), ino, k);
    hide CutAt, BlockOf;
    if CutAt(s, t, ino, k) { TruncateIsCut(s, t, ino, k, ino, k); }
  }

  lemma FirstMiss(n: nat)
    requires n >= 2
    ensures Base(n, TIND) + n < Limit(n) && Base(n, TIND) + n < EffectiveCut(n, Base(n, TIND) + n)
  {
    SquareGrows(n, n);
    CutExactlyWhen(n, Base(n, TIND) + n);
  }

  /** Every 32-bit offset falls inside the tree, for every block size ext2 allows. */
  lemma OffsetsFit(offset: nat, blksize: nat)
    requires offset < 0x1_0000_0000 && blksize in {1024, 2048, 4096}
    ensures offset / blksize < Limit(blksize / 4)
  {
    if blksize == 1024 { assert Limit(256) == 16843020; }
    else if blksize == 2048 { assert Limit(512) == 134480396; }
    else { assert Limit(1024) == 1074791436; }
  }

  /** Truncating a file to nothing frees all its blocks, the indirect ones too, and only those. */
  lemma CutAllFrees(fs: Fs, owner: map<nat, Pos>, ino: nat)
    requires fs.n > 0 && Inv(fs, owner)
    ensures Beyond(owner, fs.n, ino, EffectiveCut(fs.n, 0)) == Owned(owner, ino)
  {
  }

  // ---------------------------------------------------------------- every run

  datatype Op = Grow(ino: nat, k: nat) | Find(ino: nat, k: nat) | Cut(ino: nat, k: nat)

  /** The plain machine: which disk block each block of each file is, if any. */
  type FileMap = map<(nat, nat), nat>

  predicate Sensible(n: nat, inos: set<nat>, op: Op) {
    op.ino in inos && (op.Cut? || op.k < Limit(n))
  }

  function Shown(m: FileMap, i: nat, l: nat): nat {
    if (i, l) in m then m[(i, l)] else 0
  }

  /** Block `b` is in a tree. */
  ghost predicate InTree(fs: Fs, b: nat) {
    exists x :: ValidPos(fs, x) && At(fs, x) == b
  }

  /** Every block of the volume was in use at the start, or is in a tree. */
  ghost predicate AllTaken(geo: Bitmaps.Geometry, v: Bitmaps.Volume, fs: Fs)
    requires Bitmaps.Shape(geo, v)
  {
    forall b :: geo.first <= b < geo.blocks ==> Bitmaps.Used(geo, v, b) || InTree(fs, b)
  }

  /** What one call does to the trees: a search nothing; a growing call fills empty places on the way
      to its block, and fails only when every block of the volume is taken; a cut cuts. */
  ghost predicate Moves(geo: Bitmaps.Geometry, v: Bitmaps.Volume, s: Fs, t: Fs, op: Op, seen: Result)
    requires Bitmaps.Shape(geo, v) && s.n > 0
  {
    match op
    case Find(_, _) => t == s
    case Grow(i, l) => SameBut(s, t, Leaf(s.n, i, l)) && (seen.NoSpace? ==> AllTaken(geo, v, t))
    case Cut(i, k) => CutAt(s, t, i, EffectiveCut(s.n, k))
  }

  /** A block that is there is found; a new one is a block of the volume that nothing has; a search
      makes none. */
  ghost predicate Legal(geo: Bitmaps.Geometry, v: Bitmaps.Volume, s: Fs, m: FileMap, op: Op, seen: Result)
    requires Bitmaps.Shape(geo, v)
  {
    match op
    case Find(i, l) => seen == Ok(Shown(m, i, l))
    case Grow(i, l) =>
      if (i, l) in m then seen == Ok(m[(i, l)])
      else seen.NoSpace? || (seen.b != 0 && geo.first <= seen.b < geo.blocks && !InTree(s, seen.b) && !Bitmaps.Used(geo, v, seen.b))
    case Cut(_, _) => seen == Ok(0)
  }

  function Next(n: nat, m: FileMap, op: Op, seen: Result): FileMap
    requires n > 0
  {
    match op
    case Find(_, _) => m
    case Grow(i, l) => if seen.Ok? then m[(i, l) := seen.b] else m
    case Cut(i, k) => map x | x in m && !(x.0 == i && x.1 >= EffectiveCut(n, k)) :: m[x]
  }

  function After(n: nat, ops: seq<Op>, seen: seq<Result>): FileMap
    requires n > 0 && |ops| == |seen|
  {
    if ops == [] then map[]
    else
      var k := |ops| - 1;
      Next(n, After(n, ops[..k], seen[..k]), ops[k], seen[k])
  }

  /** From empty trees on, every call shows what the map says and moves the trees as it may. */
  ghost predicate Explained(geo: Bitmaps.Geometry, v: Bitmaps.Volume, n: nat, ops: seq<Op>, seen: seq<Result>,
                            trees: seq<Fs>)
    requires Bitmaps.Shape(geo, v) && n > 0 && |ops| == |seen| && |trees| == |ops| + 1
  {
    var k := |ops| - 1;
    if ops == [] then forall x :: At(trees[0], x) == 0
    else
      && Explained(geo, v, n, ops[..k], seen[..k], trees[..k + 1])
      && trees[k].n == n && Legal(geo, v, trees[k], After(n, ops[..k], seen[..k]), ops[k], seen[k])
      && Moves(geo, v, trees[k], trees[k + 1], ops[k], seen[k])
  }

  ghost predicate Agree(fs: Fs, m: FileMap) {
    && fs.n > 0
    && (forall x :: x in m ==> x.0 in fs.inodes && x.1 < Limit(fs.n) && m[x] != 0)
    && (forall i: nat, l: nat :: i in fs.inodes && l < Limit(fs.n) ==> BlockOf(fs, i, l) == Shown(m, i, l))
  }

  lemma GrowAgrees(s: Fs, t: Fs, m: FileMap, ino: nat, k: nat, writing: bool, r: Result, used: set<nat>,
                   used': set<nat>)
    requires Agree(s, m) && ino in s.inodes && k < Limit(s.n) && Mapped(s, t, Leaf(s.n, ino, k), writing, r, used, used')
    ensures Agree(t, if writing && r.Ok? then m[(ino, k) := r.b] else m)
  {
    var m' := if writing && r.Ok? then m[(ino, k) := r.b] else m;
    LeafValid(s, ino, k);
    assert t.n == s.n && t.inodes.Keys == s.inodes.Keys && (writing && r.Ok? ==> r.b != 0);
    assert BlockOf(s, ino, k) == Shown(m, ino, k) && (!writing && r.Ok? ==> r.b == BlockOf(s, ino, k));
    hide Mapped, Limit, BlockOf;
    forall i: nat, l: nat | i in t.inodes && l < Limit(t.n) ensures BlockOf(t, i, l) == Shown(m', i, l) {
      BmapIsUpdate(s, t, ino, k, writing, r, used, used', i, l);
      assert BlockOf(s, i, l) == Shown(m, i, l);
    }
  }

  lemma CutAgrees(s: Fs, t: Fs, m: FileMap, ino: nat, k: nat)
    requires Agree(s, m) && CutAt(s, t, ino, EffectiveCut(s.n, k))
    ensures Agree(t, Next(s.n, m, Cut(ino, k), Ok(0)))
  {
    var m' := Next(s.n, m, Cut(ino, k), Ok(0));
    forall i: nat, l: nat | i in t.inodes && l < Limit(t.n) ensures BlockOf(t, i, l) == Shown(m', i, l) {
      TruncateIsCut(s, t, ino, EffectiveCut(s.n, k), i, l);
      assert BlockOf(s, i, l) == Shown(m, i, l);
    }
  }

  /** In every run of bmap and truncate, on any number of files, the trees are a map from file
      blocks to disk blocks: what a write maps later calls find, a cut removes what is past it, nothing
      else ever changes, a block newly given has been nobody's, and one is refused only when there is
      none. In the end i_blocks is exact, and the blocks in use are those in the trees and those in
      use before. */
  method Run(geo: Bitmaps.Geometry, v: Bitmaps.Volume, n: nat, unit: nat, inos: set<nat>, ops: seq<Op>)
    returns (seen: seq<Result>, trees: seq<Fs>, vol: Bitmaps.Volume, ghost owner: map<nat, Pos>)
    requires Bitmaps.Inv(geo, v) && n > 0 && (geo.first > 0 || Bitmaps.Used(geo, v, 0))
    requires forall i :: 0 <= i < |ops| ==> Sensible(n, inos, ops[i])
    ensures |seen| == |ops| && |trees| == |ops| + 1 && Explained(geo, v, n, ops, seen, trees)
    ensures Along(n, inos, ops, seen, trees) && Inv(trees[|ops|], owner) && trees[|ops|].unit == unit
    ensures Bitmaps.Inv(geo, vol) && Accounted(Bitmaps.InUse(geo, vol), owner, Bitmaps.InUse(geo, v))
  {
    hide Inv, Agree, Accounted, Legal, Moves, Next, Bitmaps.PaddingSet, Bitmaps.CountsExact, Explained, After, At;
    var sb := new Bitmaps.Superblock(geo, v);
    var fs := new FileSystem(sb, n, unit, inos);
    seen, trees := [], [fs.S()];
    assert ops[..0] == [];
    NothingMapped(fs.S());
    assert seen[..0] == [];
    ExplainedStart(geo, v, n, trees[0]);
    for i := 0 to |ops|
      invariant fresh(fs) && fresh(sb) && fs.sb == sb && fs.n == n && fs.unit == unit && fs.Valid() && fs.inodes.Keys == inos
      invariant sb.geo == geo && fs.reserved == Bitmaps.InUse(geo, v)
      invariant |seen| == i && |trees| == i + 1 && trees[i] == fs.S()
      invariant Explained(geo, v, n, ops[..i], seen, trees) && Agree(fs.S(), After(n, ops[..i], seen))
      invariant forall j :: 0 <= j <= i ==> trees[j].inodes.Keys == inos && Agree(trees[j], After(n, ops[..j], seen[..j]))
    {
      assert Sensible(n, inos, ops[i]);
      var r := Perform(fs, v, ops[i], After(n, ops[..i], seen));
      ExplainedMore(geo, v, n, ops[..i], seen, trees, ops[i], r, fs.S());
      assert ops[..i + 1] == ops[..i] + [ops[i]];
      ghost var was := seen;
      seen, trees := seen + [r], trees + [fs.S()];
      assert seen[..i + 1] == seen;
      forall j | 0 <= j <= i ensures seen[..j] == was[..j] { }
    }
    assert ops[..|ops|] == ops;
    vol, owner := sb.V(), fs.owner;
  }

  /** The trees along a run are what the map says after as many calls. */
  ghost predicate Along(n: nat, inos: set<nat>, ops: seq<Op>, seen: seq<Result>, trees: seq<Fs>)
    requires n > 0 && |ops| == |seen| && |trees| == |ops| + 1
  {
    forall j :: 0 <= j <= |ops| ==> trees[j].inodes.Keys == inos && Agree(trees[j], After(n, ops[..j], seen[..j]))
  }

  ghost predicate Injective(m: FileMap) {
    forall x, y :: x in m && y in m && m[x] == m[y] ==> x == y
  }

  /** After every run that is explained, no block serves two file blocks, of one file or of two. */
  lemma {:induction false} NeverShared(geo: Bitmaps.Geometry, v: Bitmaps.Volume, n: nat, inos: set<nat>, ops: seq<Op>,
                                       seen: seq<Result>, trees: seq<Fs>)
    requires Bitmaps.Shape(geo, v) && n > 0 && |ops| == |seen| && |trees| == |ops| + 1
    requires Explained(geo, v, n, ops, seen, trees) && Along(n, inos, ops, seen, trees)
    ensures Injective(After(n, ops, seen))
  {
    if ops != [] {
      var k := |ops| - 1;
      AlongLess(n, inos, ops, seen, trees);
      NeverShared(geo, v, n, inos, ops[..k], seen[..k], trees[..k + 1]);
      NextInjective(geo, v, trees[k], After(n, ops[..k], seen[..k]), ops[k], seen[k]);
    }
  }

  lemma AlongLess(n: nat, inos: set<nat>, ops: seq<Op>, seen: seq<Result>, trees: seq<Fs>)
    requires n > 0 && |ops| == |seen| > 0 && |trees| == |ops| + 1 && Along(n, inos, ops, seen, trees)
    ensures Along(n, inos, ops[..|ops| - 1], seen[..|ops| - 1], trees[..|ops|])
    ensures Agree(trees[|ops| - 1], After(n, ops[..|ops| - 1], seen[..|ops| - 1]))
  {
    hide Agree, After;
    var k := |ops| - 1;
    forall j | 0 <= j <= k ensures ops[..k][..j] == ops[..j] && seen[..k][..j] == seen[..j] { }
  }

  lemma NextInjective(geo: Bitmaps.Geometry, v: Bitmaps.Volume, s: Fs, m: FileMap, op: Op, seen: Result)
    requires Bitmaps.Shape(geo, v) && Injective(m) && Agree(s, m) && Legal(geo, v, s, m, op, seen)
    ensures Injective(Next(s.n, m, op, seen))
  {
    hide Limit, BlockOf, At, Bitmaps.Used, InTree;
    forall x | x in m ensures InTree(s, m[x]) { MappedInTree(s, m, x); }
  }

  lemma MappedInTree(s: Fs, m: FileMap, x: (nat, nat))
    requires Agree(s, m) && x in m
    ensures InTree(s, m[x])
  {
    assert BlockOf(s, x.0, x.1) == Shown(m, x.0, x.1);
    LeafValid(s, x.0, x.1);
  }

  lemma ExplainedStart(geo: Bitmaps.Geometry, v: Bitmaps.Volume, n: nat, fs: Fs)
    requires Bitmaps.Shape(geo, v) && n > 0 && forall x :: At(fs, x) == 0
    ensures Explained(geo, v, n, [], [], [fs]) && After(n, [], []) == map[]
  {
  }

  lemma ExplainedMore(geo: Bitmaps.Geometry, v: Bitmaps.Volume, n: nat, ops: seq<Op>, seen: seq<Result>, trees: seq<Fs>,
                      op: Op, r: Result, t: Fs)
    requires Bitmaps.Shape(geo, v) && n > 0 && |ops| == |seen| && |trees| == |ops| + 1 && trees[|ops|].n == n
    requires Explained(geo, v, n, ops, seen, trees)
    requires Legal(geo, v, trees[|ops|], After(n, ops, seen), op, r) && Moves(geo, v, trees[|ops|], t, op, r)
    ensures Explained(geo, v, n, ops + [op], seen + [r], trees + [t])
    ensures After(n, ops + [op], seen + [r]) == Next(n, After(n, ops, seen), op, r)
  {
    hide Legal, Moves, Next;
    assert (ops + [op])[..|ops|] == ops && (seen + [r])[..|ops|] == seen && (trees + [t])[..|ops| + 1] == trees;
  }

  lemma NothingMapped(fs: Fs)
    requires fs.n > 0 && forall x :: At(fs, x) == 0
    ensures Agree(fs, map[])
  {
  }

  method Perform(fs: FileSystem, v: Bitmaps.Volume, op: Op, ghost m: FileMap) returns (seen: Result)
    requires fs.Valid() && Agree(fs.S(), m) && Sensible(fs.n, fs.inodes.Keys, op)
    requires Bitmaps.Inv(fs.sb.geo, v) && fs.reserved == Bitmaps.InUse(fs.sb.geo, v)
    modifies fs, fs.sb
    ensures fs.Valid() && fs.inodes.Keys == old(fs.inodes).Keys
    ensures Legal(fs.sb.geo, v, old(fs.S()), m, op, seen) && Moves(fs.sb.geo, v, old(fs.S()), fs.S(), op, seen)
    ensures Agree(fs.S(), Next(fs.n, m, op, seen))
  {
    ghost var s, used := fs.S(), fs.sb.Blocks();
    match op {
      case Grow(i, l) => seen := PerformBmap(fs, v, i, l, true, m);
      case Find(i, l) => seen := PerformBmap(fs, v, i, l, false, m);
      case Cut(i, k) =>
        hide Inv, Agree, Accounted, Bitmaps.Inv;
        var done := fs.Truncate(i, k, true);
        CutAgrees(s, fs.S(), m, i, k);
        seen := Ok(0);
    }
  }

  method PerformBmap(fs: FileSystem, v: Bitmaps.Volume, i: nat, l: nat, writing: bool, ghost m: FileMap)
    returns (seen: Result)
    requires fs.Valid() && Agree(fs.S(), m) && i in fs.inodes && l < Limit(fs.n)
    requires Bitmaps.Inv(fs.sb.geo, v) && fs.reserved == Bitmaps.InUse(fs.sb.geo, v)
    modifies fs, fs.sb
    ensures fs.Valid() && fs.inodes.Keys == old(fs.inodes).Keys
    ensures var op := if writing then Grow(i, l) else Find(i, l);
      && Legal(fs.sb.geo, v, old(fs.S()), m, op, seen) && Moves(fs.sb.geo, v, old(fs.S()), fs.S(), op, seen)
      && Agree(fs.S(), Next(fs.n, m, op, seen))
  {
    hide Inv, Agree, Accounted, Bitmaps.Inv, Mapped, Legal, Moves;
    ghost var s, used, own := fs.S(), fs.sb.Blocks(), fs.owner;
    seen := fs.Bmap(i, l, writing);
    GrowAgrees(s, fs.S(), m, i, l, writing, seen, used, fs.sb.Blocks());
    OnVolume(fs.sb.geo, fs.sb.V());
    BmapLegal(fs.sb.geo, v, s, own, used, m, i, l, writing, seen, fs.S(), fs.sb.Blocks());
    if seen.NoSpace? { AllInTrees(fs.sb.geo, v, fs.S(), fs.owner, fs.sb.Blocks()); }
    BmapMoves(fs.sb.geo, v, s, fs.S(), i, l, writing, seen, used, fs.sb.Blocks());
  }

  lemma OnVolume(geo: Bitmaps.Geometry, v: Bitmaps.Volume)
    requires Bitmaps.Inv(geo, v)
    ensures forall b :: b in Bitmaps.InUse(geo, v) ==> geo.first <= b < geo.blocks
  {
  }

  lemma BmapLegal(geo: Bitmaps.Geometry, v: Bitmaps.Volume, s: Fs, owner: map<nat, Pos>, used: set<nat>, m: FileMap,
                  i: nat, l: nat, writing: bool, seen: Result, t: Fs, used': set<nat>)
    requires Bitmaps.Inv(geo, v) && Inv(s, owner) && Accounted(used, owner, Bitmaps.InUse(geo, v)) && Agree(s, m)
    requires i in s.inodes && l < Limit(s.n) && Mapped(s, t, Leaf(s.n, i, l), writing, seen, used, used')
    requires forall b :: b in used' ==> geo.first <= b < geo.blocks
    ensures Legal(geo, v, s, m, if writing then Grow(i, l) else Find(i, l), seen)
  {
    LeafValid(s, i, l);
    assert BlockOf(s, i, l) == Shown(m, i, l);
    forall x | ValidPos(s, x) ensures At(s, x) == 0 || At(s, x) in used {
      assert At(s, x) != 0 ==> At(s, x) in owner;
    }
    assert forall b :: Bitmaps.Used(geo, v, b) ==> b in Bitmaps.InUse(geo, v);
  }

  lemma AllInTrees(geo: Bitmaps.Geometry, v: Bitmaps.Volume, fs: Fs, owner: map<nat, Pos>, used: set<nat>)
    requires Bitmaps.Inv(geo, v) && Inv(fs, owner) && Accounted(used, owner, Bitmaps.InUse(geo, v))
    requires forall b :: geo.first <= b < geo.blocks ==> b in used
    ensures AllTaken(geo, v, fs)
  {
    forall b | geo.first <= b < geo.blocks ensures Bitmaps.Used(geo, v, b) || InTree(fs, b) {
      assert b in owner || b in Bitmaps.InUse(geo, v);
      if b in owner { assert ValidPos(fs, owner[b]) && At(fs, owner[b]) == b; }
    }
  }

  lemma BmapMoves(geo: Bitmaps.Geometry, v: Bitmaps.Volume, s: Fs, t: Fs, i: nat, l: nat, writing: bool, seen: Result,
                  used: set<nat>, used': set<nat>)
    requires Bitmaps.Inv(geo, v) && s.n > 0 && i in s.inodes && l < Limit(s.n)
    requires Mapped(s, t, Leaf(s.n, i, l), writing, seen, used, used') && (seen.NoSpace? ==> AllTaken(geo, v, t))
    ensures Moves(geo, v, s, t, if writing then Grow(i, l) else Find(i, l), seen) && t.inodes.Keys == s.inodes.Keys
  {
  }
}
